/** What each step of the relay takes, adds and hands out, row by row. */
module RelayLaws {
  import opened Prelude
  import opened Relay

  /** A prune takes exactly the rows that were received before the cutoff and that no cursor is below,
      where there is a cursor at all. It touches nothing else. */
  lemma PruneLaw(s: State, cutoff: Time)
    ensures Enabled(s, Prune(cutoff))
    ensures var s' := Step(s, Prune(cutoff));
      && (forall q :: q in s'.journal <==>
            && q in s.journal
            && !(&& s.journal[q].receivedAt < cutoff && (exists d :: d in s.cursors)
                 && forall d | d in s.cursors :: s.cursors[d] >= q))
      && (forall q | q in s'.journal :: s'.journal[q] == s.journal[q])
      && s' == s.(journal := s'.journal)
  {
    forall q | q in s.journal
      ensures PassedByAll(s, q) <==> (exists d :: d in s.cursors) && forall d | d in s.cursors :: s.cursors[d] >= q
    {
      if s.cursors != map[] {
        var d :| d in s.cursors;
      }
    }
  }

  /** Once every device with a cursor is past them, old rows do go. */
  lemma PruneFreesTheJournal(s: State, cutoff: Time, q: Seqno)
    requires q in s.journal && s.journal[q].receivedAt < cutoff && s.cursors != map[]
    requires forall d | d in s.cursors :: s.cursors[d] >= q
    ensures q !in Step(s, Prune(cutoff)).journal
  {
  }

  /** A change whose batch and index the journal has is not appended again; a new one gets the next number. */
  lemma AppendLaw(s: State, d: Device, batch: nat, index: nat, now: Time)
    ensures var s' := Step(s, Append(d, batch, index, now));
      if exists q | q in s.journal :: s.journal[q].batch == batch && s.journal[q].index == index then s' == s
      else
        && s'.nextSeq == s.nextSeq + 1
        && s'.journal == s.journal[s.nextSeq := Row(batch, index, d, now)]
        && s'.log == s.log[s.nextSeq := Row(batch, index, d, now)]
        && s' == s.(nextSeq := s'.nextSeq, journal := s'.journal, log := s'.log)
  {
  }

  /** No two rows of the journal are the same change, in every run. */
  predicate Unique(s: State) {
    forall p, q | p in s.journal && q in s.journal && p != q ::
      s.journal[p].batch != s.journal[q].batch || s.journal[p].index != s.journal[q].index
  }

  lemma StepKeepsUnique(s: State, e: Event)
    requires Unique(s) && LogOk(s) && Enabled(s, e)
    ensures Unique(Step(s, e))
  {
    if e.Append? {
      AppendLaw(s, e.device, e.batch, e.index, e.now);
    }
  }

  lemma {:induction false} RunKeepsUnique(s: State, es: seq<Event>)
    requires Unique(s) && LogOk(s) && Legal(s, es)
    ensures Unique(After(s, es))
    decreases |es|
  {
    if es != [] {
      StepKeepsUnique(s, es[0]);
      LogKeeps(s, es[0]);
      RunKeepsUnique(Step(s, es[0]), es[1..]);
    }
  }

  /** Numbers only grow: a row appended later has the greater number. */
  lemma LaterIsGreater(s: State, e: Event, q: Seqno)
    requires LogOk(s) && Enabled(s, e) && q in Step(s, e).journal && q !in s.journal
    ensures e.Append? && q == s.nextSeq && forall p | p in s.log :: p < q
  {
  }

  /** A send hands the device exactly the fetched rows that others wrote; live fan-out hands it one. */
  lemma SendLaw(s: State, c: Conn)
    requires Enabled(s, Send(c))
    ensures var s', l := Step(s, Send(c)), s.links[c];
      && (forall q :: q in SentTo(s', l.device) <==>
            q in SentTo(s, l.device) || (q in l.phase.rows && q in s.log && s.log[q].origin != l.device))
      && (forall d: Device | d != l.device :: SentTo(s', d) == SentTo(s, d))
      && s'.journal == s.journal && s'.cursors == s.cursors
  {
  }

  lemma FanoutLaw(s: State, c: Conn, q: Seqno)
    ensures Enabled(s, Fanout(c, q)) ==> s.log[q].origin != s.links[c].device
    ensures Enabled(s, Fanout(c, q)) ==>
      var s', d := Step(s, Fanout(c, q)), s.links[c].device;
      && SentTo(s', d) == SentTo(s, d) + {q} && (forall o: Device | o != d :: SentTo(s', o) == SentTo(s, o))
      && s'.journal == s.journal && s'.cursors == s.cursors && s'.links == s.links
  {
  }

  /** Advancing sets the device's cursor to where the connection has delivered, unless it is further on
      already, and no other cursor. */
  lemma AdvanceLaw(s: State, c: Conn, d: Device)
    requires Enabled(s, Advance(c))
    ensures var s', l := Step(s, Advance(c)), s.links[c];
      && l.device in s'.cursors && s'.cursors[l.device] >= l.phase.last
      && (l.device in s.cursors ==> s'.cursors[l.device] >= s.cursors[l.device])
      && (s'.cursors[l.device] == l.phase.last
          || (l.device in s.cursors && s'.cursors[l.device] == s.cursors[l.device]))
      && (d != l.device ==> (d in s'.cursors <==> d in s.cursors) && (d in s.cursors ==> s'.cursors[d] == s.cursors[d]))
      && s'.journal == s.journal && s'.sent == s.sent
  {
  }

  /** A removed device holds nothing back any more. A new one has no cursor yet, so holds nothing back
      either. */
  lemma DeviceLaw(s: State, d: Device)
    ensures Enabled(s, Remove(d)) ==>
      var s' := Step(s, Remove(d));
      d !in s'.devices && d !in s'.cursors && s'.journal == s.journal
      && forall o | o != d ::
           (o in s'.cursors <==> o in s.cursors) && (o in s.cursors ==> s'.cursors[o] == s.cursors[o])
    ensures Enabled(s, Register(d)) ==>
      var s' := Step(s, Register(d)); d in s'.devices && s'.cursors == s.cursors && s'.journal == s.journal
  {
  }

  /** A connection starts, and a rescan goes on, from the stored cursor, or from the beginning without
      one. What it fetches are the first rows past where it is. */
  lemma ConnectionLaw(s: State, c: Conn, d: Device)
    ensures Enabled(s, Connect(c, d)) ==>
      var s' := Step(s, Connect(c, d));
      c in s'.links && s'.links[c] == Link(d, if d in s.cursors then s.cursors[d] else 0, Idle)
    ensures Enabled(s, Rescan(c)) ==>
      var s', e := Step(s, Rescan(c)), s.links[c].device;
      c in s'.links && s'.links[c] == Link(e, if e in s.cursors then s.cursors[e] else 0, Idle)
    ensures Enabled(s, Disconnect(c)) ==>
      var s' := Step(s, Disconnect(c)); c !in s'.links && s'.cursors == s.cursors
  {
  }

  lemma FetchLaw(s: State, c: Conn, rows: seq<Seqno>, q: Seqno)
    requires Enabled(s, Fetch(c, rows)) && q in s.journal && q > s.links[c].local
    ensures |rows| <= 200 && Step(s, Fetch(c, rows)).links[c].phase == Fetched(rows)
    ensures q in rows || (|rows| == 200 && forall r | r in rows :: r < q)
  {
  }

  /** What can happen when. Appending and pruning are always possible. */
  lemma SchedulingLaw(s: State, c: Conn, d: Device)
    ensures Enabled(s, Register(d)) <==> d !in s.sent
    ensures Enabled(s, Remove(d)) <==> d in s.devices
    ensures Enabled(s, Connect(c, d)) <==> c !in s.links && d in s.devices
    ensures Enabled(s, Disconnect(c)) <==> c in s.links
    ensures Enabled(s, Rescan(c)) <==> c in s.links && s.links[c].phase == Idle
    ensures Enabled(s, Send(c)) <==> c in s.links && s.links[c].phase.Fetched? && s.links[c].phase.rows != []
    ensures Enabled(s, Advance(c)) <==> c in s.links && s.links[c].phase.Delivered? && s.links[c].device in s.devices
    ensures forall q :: Enabled(s, Fanout(c, q)) <==> c in s.links && q in s.log && s.log[q].origin != s.links[c].device
    ensures forall batch, index, now :: Enabled(s, Append(d, batch, index, now))
  {
  }
}
