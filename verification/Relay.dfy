/**
 The device relay of one user: a journal in arrival order, a delivery cursor per device,
 backlog sent in chunks, live fan-out, and pruning of what every cursor has passed.
 */
module Relay {
  import opened Prelude

  type Device = nat
  type Seqno = nat
  type Conn = nat

  const CHUNK_SIZE: nat := 200

  /** A journal row; (batch, index) is the key that makes a retry a no-op. */
  datatype Row = Row(batch: nat, index: nat, origin: Device, receivedAt: Time)

  /** Where a connection is in `deliver_backlog`. */
  datatype Phase = Idle | Fetched(rows: seq<Seqno>) | Delivered(last: Seqno)

  datatype Link = Link(device: Device, local: Seqno, phase: Phase)

  /** `log`, `sent` and `missed` are histories: every row ever appended, what was handed to
      each device, and what had been pruned before the device had a cursor. */
  datatype State = State(journal: map<Seqno, Row>, nextSeq: Seqno, devices: set<Device>,
                         cursors: map<Device, Seqno>, links: map<Conn, Link>,
                         log: map<Seqno, Row>, sent: map<Device, set<Seqno>>, missed: map<Device, set<Seqno>>)

  datatype Event =
    | Register(device: Device)
    | Remove(device: Device)
    | Append(device: Device, batch: nat, index: nat, now: Time)
    | Connect(conn: Conn, device: Device)
    | Rescan(conn: Conn)
    | Fetch(conn: Conn, rows: seq<Seqno>)
    | Send(conn: Conn)
    | Advance(conn: Conn)
    | Fanout(conn: Conn, seqno: Seqno)
    | Disconnect(conn: Conn)
    | Prune(cutoff: Time)

  const Fresh := State(map[], 1, {}, map[], map[], map[], map[], map[])

  function CursorOf(s: State, d: Device): Seqno {
    if d in s.cursors then s.cursors[d] else 0
  }

  predicate Increasing(rows: seq<Seqno>) {
    forall i, j | 0 <= i < j < |rows| :: rows[i] < rows[j]
  }

  /** What `changes_after` returns: the first rows past the cursor, in order. */
  predicate IsChunk(journal: map<Seqno, Row>, after: Seqno, limit: nat, rows: seq<Seqno>) {
    && Increasing(rows) && |rows| <= limit
    && (forall q | q in rows :: q in journal && q > after)
    && (forall q | q in journal && q > after && q !in rows :: |rows| == limit && forall r | r in rows :: r < q)
  }

  /** Every cursor of the user's devices has passed the row; with no cursor nothing is. */
  predicate PassedByAll(s: State, q: Seqno) {
    s.cursors != map[] && forall d | d in s.cursors :: q <= s.cursors[d]
  }

  function SentTo(s: State, d: Device): set<Seqno> {
    if d in s.sent then s.sent[d] else {}
  }

  predicate Enabled(s: State, e: Event) {
    match e
    case Register(d) => d !in s.sent
    case Remove(d) => d in s.devices
    case Append(d, _, _, _) => true
    case Connect(c, d) => c !in s.links && d in s.devices
    case Rescan(c) => c in s.links && s.links[c].phase.Idle?
    case Fetch(c, rows) => c in s.links && s.links[c].phase.Idle? && rows != []
                           && IsChunk(s.journal, s.links[c].local, CHUNK_SIZE, rows)
    case Send(c) => c in s.links && s.links[c].phase.Fetched? && s.links[c].phase.rows != []
    case Advance(c) => c in s.links && s.links[c].phase.Delivered? && s.links[c].device in s.devices
    case Fanout(c, q) => c in s.links && q in s.log && s.log[q].origin != s.links[c].device
    case Disconnect(c) => c in s.links
    case Prune(_) => true
  }

  predicate Known(s: State, batch: nat, index: nat) {
    exists q | q in s.journal :: s.journal[q].batch == batch && s.journal[q].index == index
  }

  function Deliver(s: State, d: Device, qs: set<Seqno>): map<Device, set<Seqno>> {
    s.sent[d := SentTo(s, d) + qs]
  }

  /** The fetched rows that other devices wrote. */
  function Deliverable(log: map<Seqno, Row>, rows: seq<Seqno>, d: Device): set<Seqno> {
    set q | q in rows && q in log && log[q].origin != d
  }

  function Step(s: State, e: Event): State
    requires Enabled(s, e)
  {
    match e
    case Register(d) => s.(devices := s.devices + {d}, sent := s.sent[d := {}])
    case Remove(d) => s.(devices := s.devices - {d}, cursors := s.cursors - {d}, missed := s.missed - {d})
    case Append(d, b, i, now) =>
      if Known(s, b, i) then s
      else s.(journal := s.journal[s.nextSeq := Row(b, i, d, now)], log := s.log[s.nextSeq := Row(b, i, d, now)],
              nextSeq := s.nextSeq + 1)
    case Connect(c, d) => s.(links := s.links[c := Link(d, CursorOf(s, d), Idle)])
    case Rescan(c) => s.(links := s.links[c := s.links[c].(local := CursorOf(s, s.links[c].device))])
    case Fetch(c, rows) => s.(links := s.links[c := s.links[c].(phase := Fetched(rows))])
    case Send(c) =>
      var l := s.links[c];
      var rows := l.phase.rows;
      s.(sent := Deliver(s, l.device, Deliverable(s.log, rows, l.device)),
         links := s.links[c := l.(phase := Delivered(rows[|rows| - 1]))])
    case Advance(c) =>
      var l := s.links[c];
      var to := if CursorOf(s, l.device) < l.phase.last then l.phase.last else CursorOf(s, l.device);
      s.(cursors := s.cursors[l.device := to],
         missed := if l.device in s.cursors then s.missed else s.missed[l.device := s.log.Keys - s.journal.Keys],
         links := s.links[c := Link(l.device, l.phase.last, Idle)])
    case Fanout(c, q) => s.(sent := Deliver(s, s.links[c].device, {q}))
    case Disconnect(c) => s.(links := s.links - {c})
    case Prune(cutoff) =>
      s.(journal := map q | q in s.journal && !(s.journal[q].receivedAt < cutoff && PassedByAll(s, q)) :: s.journal[q])
  }

  predicate Legal(s: State, es: seq<Event>)
    decreases |es|
  {
    es == [] || (Enabled(s, es[0]) && Legal(Step(s, es[0]), es[1..]))
  }

  function After(s: State, es: seq<Event>): State
    requires Legal(s, es)
    decreases |es|
  {
    if es == [] then s else After(Step(s, es[0]), es[1..])
  }

  // ---- Invariant ----

  /** Every row still in the journal up to `upTo` that the device did not write itself
      has been sent to it. */
  predicate CaughtUp(s: State, d: Device, upTo: Seqno) {
    forall q | q in s.journal && q <= upTo && s.journal[q].origin != d :: q in SentTo(s, d)
  }

  predicate LinkOk(s: State, l: Link) {
    && l.local < s.nextSeq && CaughtUp(s, l.device, l.local)
    && match l.phase
       case Idle => true
       case Fetched(rows) =>
         && Increasing(rows) && (forall q | q in rows :: q in s.log && q < s.nextSeq)
         && (rows != [] ==> forall q | q in s.journal && l.local < q <= rows[|rows| - 1] :: q in rows)
       case Delivered(last) => last < s.nextSeq && CaughtUp(s, l.device, last)
  }

  /** What the device is owed: others' rows that were in the journal when its cursor row
      appeared or came later. */
  predicate Owed(s: State, d: Device, q: Seqno) {
    q in s.log && s.log[q].origin != d && d in s.missed && q !in s.missed[d]
  }

  predicate LogOk(s: State) {
    && 0 < s.nextSeq && (forall q | q in s.log :: 0 < q < s.nextSeq)
    && (forall q | q in s.journal :: q in s.log && s.log[q] == s.journal[q])
  }

  predicate CursorsOk(s: State) {
    && s.missed.Keys == s.cursors.Keys
    && forall d | d in s.cursors :: s.cursors[d] < s.nextSeq && CaughtUp(s, d, s.cursors[d])
  }

  predicate LinksOk(s: State) {
    forall c | c in s.links :: LinkOk(s, s.links[c])
  }

  predicate OwedOk(s: State) {
    forall d, q | d in s.cursors && q in s.log :: Owed(s, d, q) ==> q in s.journal || q in SentTo(s, d)
  }

  predicate NoEcho(s: State) {
    forall d, q | d in s.sent && q in s.sent[d] :: q in s.log && s.log[q].origin != d
  }

  predicate Inv(s: State) {
    LogOk(s) && CursorsOk(s) && LinksOk(s) && OwedOk(s) && NoEcho(s)
  }

  /** Rows may leave the journal, be sent or be appended at the end; nothing else moves. */
  ghost predicate Onward(s: State, s': State) {
    && s.nextSeq <= s'.nextSeq
    && (forall q | q in s.log :: q in s'.log && s'.log[q] == s.log[q])
    && (forall q | q in s'.journal && q < s.nextSeq :: q in s.journal && s.journal[q] == s'.journal[q])
    && (forall d: Device :: SentTo(s, d) <= SentTo(s', d))
  }

  lemma StepIsOnward(s: State, e: Event)
    requires LogOk(s) && Enabled(s, e)
    ensures Onward(s, Step(s, e))
  {
  }

  lemma CaughtUpStays(s: State, s': State, d: Device, upTo: Seqno)
    requires CaughtUp(s, d, upTo) && upTo < s.nextSeq && Onward(s, s')
    ensures CaughtUp(s', d, upTo)
  {
    assert SentTo(s, d) <= SentTo(s', d);
  }

  lemma LinkStays(s: State, s': State, l: Link)
    requires LinkOk(s, l) && Onward(s, s')
    ensures LinkOk(s', l)
  {
    CaughtUpStays(s, s', l.device, l.local);
    if l.phase.Delivered? {
      CaughtUpStays(s, s', l.device, l.phase.last);
    }
    if l.phase.Fetched? && l.phase.rows != [] {
      var rows := l.phase.rows;
      assert rows[|rows| - 1] in rows;
    }
  }

  lemma LogKeeps(s: State, e: Event)
    requires LogOk(s) && Enabled(s, e)
    ensures LogOk(Step(s, e))
  {
  }

  /** Handing out others' rows is no echo. */
  lemma DeliverNoEcho(s: State, d: Device, qs: set<Seqno>)
    requires NoEcho(s) && forall q | q in qs :: q in s.log && s.log[q].origin != d
    ensures NoEcho(s.(sent := Deliver(s, d, qs)))
  {
  }

  lemma EchoKeeps(s: State, e: Event)
    requires LogOk(s) && NoEcho(s) && Enabled(s, e)
    ensures NoEcho(Step(s, e))
  {
    var s' := Step(s, e);
    if e.Send? {
      var l := s.links[e.conn];
      DeliverNoEcho(s, l.device, Deliverable(s.log, l.phase.rows, l.device));
    } else if e.Fanout? {
      DeliverNoEcho(s, s.links[e.conn].device, {e.seqno});
    } else {
      forall d, q | d in s'.sent && q in s'.sent[d] ensures q in s'.log && s'.log[q].origin != d {
        assert d in s.sent && q in s.sent[d];
        assert q in s.log && s.log[q].origin != d && q < s.nextSeq;
        StepIsOnward(s, e);
      }
    }
  }

  /** The link that sends has everything up to the chunk's last row delivered. */
  lemma SendCatchesUp(s: State, c: Conn)
    requires Inv(s) && Enabled(s, Send(c))
    ensures LinkOk(Step(s, Send(c)), Step(s, Send(c)).links[c])
  {
    var s' := Step(s, Send(c));
    var l := s.links[c];
    assert LinkOk(s, l);
    StepIsOnward(s, Send(c));
    LinkStays(s, s', l);
    var rows := l.phase.rows;
    var last := rows[|rows| - 1];
    assert last in rows;
    forall q | q in s'.journal && q <= last && s'.journal[q].origin != l.device ensures q in SentTo(s', l.device) {
      if q > l.local {
        assert q in rows;
      }
    }
  }

  lemma FetchOk(s: State, c: Conn, rows: seq<Seqno>)
    requires Inv(s) && Enabled(s, Fetch(c, rows))
    ensures LinkOk(s, s.links[c].(phase := Fetched(rows)))
  {
    assert LinkOk(s, s.links[c]);
    var last := rows[|rows| - 1];
    assert last in rows;
  }

  lemma OneLinkKeeps(s: State, e: Event, c: Conn)
    requires Inv(s) && Enabled(s, e) && c in s.links && c in Step(s, e).links
    ensures LinkOk(Step(s, e), Step(s, e).links[c])
  {
    var s', l := Step(s, e), s.links[c];
    assert LinkOk(s, l);
    StepIsOnward(s, e);
    LinkStays(s, s', l);
    if e == Send(c) {
      SendCatchesUp(s, c);
    } else if e.Fetch? && e.conn == c {
      FetchOk(s, c, e.rows);
      LinkStays(s, s', s'.links[c]);
    } else if e == Rescan(c) && l.device in s.cursors {
      CaughtUpStays(s, s', l.device, s.cursors[l.device]);
    }
  }

  lemma LinksKeep(s: State, e: Event)
    requires Inv(s) && Enabled(s, e)
    ensures LinksOk(Step(s, e))
  {
    var s' := Step(s, e);
    StepIsOnward(s, e);
    forall c | c in s'.links ensures LinkOk(s', s'.links[c]) {
      if c in s.links {
        OneLinkKeeps(s, e, c);
      } else if e.device in s.cursors {
        CaughtUpStays(s, s', e.device, s.cursors[e.device]);
      }
    }
  }

  /** A cursor moves only to where its device's connection has delivered up to. */
  lemma OneCursorKeeps(s: State, e: Event, d: Device)
    requires Inv(s) && Enabled(s, e) && d in Step(s, e).cursors
    ensures Step(s, e).cursors[d] < Step(s, e).nextSeq && CaughtUp(Step(s, e), d, Step(s, e).cursors[d])
  {
    var s' := Step(s, e);
    StepIsOnward(s, e);
    if e.Advance? && s.links[e.conn].device == d && s'.cursors[d] == s.links[e.conn].phase.last {
      assert LinkOk(s, s.links[e.conn]);
      CaughtUpStays(s, s', d, s'.cursors[d]);
    } else {
      assert d in s.cursors && s'.cursors[d] == s.cursors[d];
      CaughtUpStays(s, s', d, s.cursors[d]);
    }
  }

  lemma CursorsKeep(s: State, e: Event)
    requires Inv(s) && Enabled(s, e)
    ensures CursorsOk(Step(s, e))
  {
    forall d | d in Step(s, e).cursors
      ensures Step(s, e).cursors[d] < Step(s, e).nextSeq && CaughtUp(Step(s, e), d, Step(s, e).cursors[d])
    {
      OneCursorKeeps(s, e, d);
    }
  }

  /** Pruning takes only rows every cursor has passed, and those have been sent. */
  lemma OwedKeeps(s: State, e: Event)
    requires Inv(s) && Enabled(s, e)
    ensures OwedOk(Step(s, e))
  {
    var s' := Step(s, e);
    StepIsOnward(s, e);
    forall d, q | d in s'.cursors && q in s'.log && Owed(s', d, q) ensures q in s'.journal || q in SentTo(s', d) {
      assert SentTo(s, d) <= SentTo(s', d);
      if d in s.cursors && q in s.log {
        assert Owed(s, d, q);
        if q in s.journal && q !in s'.journal {
          assert q <= s.cursors[d];
          assert CaughtUp(s, d, s.cursors[d]);
        }
      }
    }
  }

  lemma StepKeeps(s: State, e: Event)
    requires Inv(s) && Enabled(s, e)
    ensures Inv(Step(s, e))
  {
    LogKeeps(s, e);
    EchoKeeps(s, e);
    LinksKeep(s, e);
    CursorsKeep(s, e);
    OwedKeeps(s, e);
  }

  lemma {:induction false} RunKeeps(s: State, es: seq<Event>)
    requires Inv(s) && Legal(s, es)
    ensures Inv(After(s, es))
    decreases |es|
  {
    if es != [] {
      StepKeeps(s, es[0]);
      RunKeeps(Step(s, es[0]), es[1..]);
    }
  }

  // ---- Guarantees ----

  /** Once a device has a cursor row, no row it is owed is pruned, or passed by its cursor,
      before it has been sent to the device. */
  lemma NothingOwedIsLost(es: seq<Event>, d: Device, q: Seqno)
    requires Legal(Fresh, es) && d in After(Fresh, es).cursors && Owed(After(Fresh, es), d, q)
    requires q !in After(Fresh, es).journal || q <= After(Fresh, es).cursors[d]
    ensures q in SentTo(After(Fresh, es), d)
  {
    RunKeeps(Fresh, es);
    var s := After(Fresh, es);
    assert CaughtUp(s, d, s.cursors[d]);
  }

  /** The relay never hands a device its own change. */
  lemma NeverEchoes(es: seq<Event>, d: Device, q: Seqno)
    requires Legal(Fresh, es) && q in SentTo(After(Fresh, es), d)
    ensures q in After(Fresh, es).log && After(Fresh, es).log[q].origin != d
  {
    RunKeeps(Fresh, es);
  }

  /** Along any run a cursor that stays never goes back, however many connections of the
      device race; and what a device is owed only grows. */
  lemma CursorsNeverGoBack(s: State, e: Event, d: Device)
    requires Inv(s) && Enabled(s, e) && d in s.cursors && !(e.Remove? && e.device == d)
    ensures d in Step(s, e).cursors && s.cursors[d] <= Step(s, e).cursors[d]
    ensures forall q :: Owed(s, d, q) ==> Owed(Step(s, e), d, q)
    ensures SentTo(s, d) <= SentTo(Step(s, e), d)
  {
  }

  predicate Stays(es: seq<Event>, d: Device) {
    forall i | 0 <= i < |es| :: !(es[i].Remove? && es[i].device == d)
  }

  lemma {:induction false} CursorOverRun(s: State, es: seq<Event>, d: Device)
    requires Inv(s) && Legal(s, es) && d in s.cursors && Stays(es, d)
    ensures d in After(s, es).cursors && s.cursors[d] <= After(s, es).cursors[d]
    ensures forall q :: Owed(s, d, q) ==> Owed(After(s, es), d, q)
    decreases |es|
  {
    if es != [] {
      CursorsNeverGoBack(s, es[0], d);
      StepKeeps(s, es[0]);
      CursorOverRun(Step(s, es[0]), es[1..], d);
    }
  }
}
