/** What a message of ops, a broadcast, a join and a leave do, told without their definitions. */
module SessionLaws {
  import opened Prelude
  import opened VersionVectors
  import opened LineOps
  import opened Session

  // ---- A message of ops ----

  /** The states the ops of a message meet and the outcomes they get, one after the other. */
  predicate Ran(db: Db, note: NoteId, device: Writer, ops: seq<LineOp>, dbs: seq<Db>, outcomes: seq<Outcome>) {
    && |dbs| == |ops| + 1 && |outcomes| == |ops| && dbs[0] == db
    && forall i | 0 <= i < |ops| :: (dbs[i + 1], outcomes[i]) == ApplyOp(dbs[i], note, device, ops[i])
  }

  /** `picks` are the positions of the applied ops, in order. */
  predicate Picks(outcomes: seq<Outcome>, picks: seq<nat>) {
    && (forall j | 0 <= j < |picks| :: picks[j] < |outcomes| && outcomes[picks[j]].Applied?)
    && (forall j, k | 0 <= j < k < |picks| :: picks[j] < picks[k])
    && forall i | 0 <= i < |outcomes| && outcomes[i].Applied? :: i in picks
  }

  predicate PickedFrom(ops: seq<LineOp>, picks: seq<nat>, applied: seq<LineOp>) {
    |applied| == |picks| && forall j | 0 <= j < |picks| :: picks[j] < |ops| && applied[j] == ops[picks[j]]
  }

  lemma RanMore(db: Db, note: NoteId, device: Writer, ops: seq<LineOp>, dbs: seq<Db>, outcomes: seq<Outcome>)
    requires ops != [] && Ran(ApplyOp(db, note, device, ops[0]).0, note, device, ops[1..], dbs, outcomes)
    ensures Ran(db, note, device, ops, [db] + dbs, [ApplyOp(db, note, device, ops[0]).1] + outcomes)
  {
    var all, os := [db] + dbs, [ApplyOp(db, note, device, ops[0]).1] + outcomes;
    forall i | 0 <= i < |ops| ensures (all[i + 1], os[i]) == ApplyOp(all[i], note, device, ops[i]) {
      if i > 0 {
        assert (dbs[i], outcomes[i - 1]) == ApplyOp(dbs[i - 1], note, device, ops[1..][i - 1]);
      }
    }
  }

  function Shifted(o: Outcome, picks: seq<nat>): seq<nat> {
    (if o.Applied? then [0] else []) + seq(|picks|, j requires 0 <= j < |picks| => picks[j] + 1)
  }

  lemma ShiftedAt(o: Outcome, picks: seq<nat>, j: nat)
    requires j < |picks|
    ensures var n := if o.Applied? then 1 else 0;
      && |Shifted(o, picks)| == n + |picks| && Shifted(o, picks)[n + j] == picks[j] + 1
      && picks[j] + 1 in Shifted(o, picks)
  {
  }

  lemma ShiftedIncreases(o: Outcome, picks: seq<nat>)
    requires forall j, k | 0 <= j < k < |picks| :: picks[j] < picks[k]
    ensures forall j, k | 0 <= j < k < |Shifted(o, picks)| :: Shifted(o, picks)[j] < Shifted(o, picks)[k]
  {
  }

  lemma ShiftedPointsAtApplied(o: Outcome, outcomes: seq<Outcome>, picks: seq<nat>, j: nat)
    requires Picks(outcomes, picks) && j < |Shifted(o, picks)|
    ensures var i := Shifted(o, picks)[j]; i <= |outcomes| && ([o] + outcomes)[i].Applied?
  {
    var n := if o.Applied? then 1 else 0;
    if j >= n {
      ShiftedAt(o, picks, j - n);
      assert outcomes[picks[j - n]].Applied?;
    }
  }

  lemma AppliedIsShifted(o: Outcome, outcomes: seq<Outcome>, picks: seq<nat>, i: nat)
    requires Picks(outcomes, picks) && i <= |outcomes| && ([o] + outcomes)[i].Applied?
    ensures i in Shifted(o, picks)
  {
    if i == 0 {
      assert Shifted(o, picks)[0] == 0;
    } else {
      assert outcomes[i - 1].Applied?;
      var j :| 0 <= j < |picks| && picks[j] == i - 1;
      ShiftedAt(o, picks, j);
    }
  }

  lemma PicksMore(o: Outcome, outcomes: seq<Outcome>, picks: seq<nat>)
    requires Picks(outcomes, picks)
    ensures Picks([o] + outcomes, Shifted(o, picks))
  {
    var all, more := [o] + outcomes, Shifted(o, picks);
    ShiftedIncreases(o, picks);
    forall j | 0 <= j < |more| ensures more[j] < |all| && all[more[j]].Applied? {
      ShiftedPointsAtApplied(o, outcomes, picks, j);
    }
    forall i | 0 <= i < |all| && all[i].Applied? ensures i in more {
      AppliedIsShifted(o, outcomes, picks, i);
    }
  }

  lemma PickedMore(o: Outcome, ops: seq<LineOp>, picks: seq<nat>, applied: seq<LineOp>)
    requires ops != [] && PickedFrom(ops[1..], picks, applied)
    ensures PickedFrom(ops, Shifted(o, picks), (if o.Applied? then [ops[0]] else []) + applied)
  {
  }

  predicate SomeFails(outcomes: seq<Outcome>) {
    exists i :: 0 <= i < |outcomes| && outcomes[i].Failed?
  }

  lemma SomeFailsMore(o: Outcome, outcomes: seq<Outcome>)
    ensures SomeFails([o] + outcomes) <==> o.Failed? || SomeFails(outcomes)
  {
    var all := [o] + outcomes;
    assert all[0] == o;
    assert forall i | 0 <= i < |outcomes| :: all[i + 1] == outcomes[i];
    if i :| 0 <= i < |all| && all[i].Failed? {
      assert i > 0 ==> outcomes[i - 1].Failed?;
    }
  }

  /** The result of a message in terms of what its ops met. */
  predicate Explains(r: Option<(Db, seq<LineOp>)>, ops: seq<LineOp>, dbs: seq<Db>, outcomes: seq<Outcome>,
                     picks: seq<nat>)
    requires |dbs| == |ops| + 1
  {
    && (r.None? <==> SomeFails(outcomes))
    && (r.Some? ==> r.value.0 == dbs[|ops|] && PickedFrom(ops, picks, r.value.1))
  }

  /** A message is rolled back exactly when some op fails at the state its predecessors leave. Otherwise
      the database is what all the ops leave one after the other, and what is passed on is exactly the
      ops that were applied, in their order. */
  lemma {:induction false} BatchLaw(db: Db, note: NoteId, device: Writer, ops: seq<LineOp>)
    returns (dbs: seq<Db>, outcomes: seq<Outcome>, picks: seq<nat>)
    ensures Ran(db, note, device, ops, dbs, outcomes) && Picks(outcomes, picks)
    ensures Explains(ApplyBatch(db, note, device, ops), ops, dbs, outcomes, picks)
    decreases |ops|
  {
    if ops == [] {
      dbs, outcomes, picks := [db], [], [];
    } else {
      var (next, o) := ApplyOp(db, note, device, ops[0]);
      var dbs1, outcomes1, picks1 := BatchLaw(next, note, device, ops[1..]);
      RanMore(db, note, device, ops, dbs1, outcomes1);
      PicksMore(o, outcomes1, picks1);
      SomeFailsMore(o, outcomes1);
      dbs, outcomes, picks := [db] + dbs1, [o] + outcomes1, Shifted(o, picks1);
      var rest := ApplyBatch(next, note, device, ops[1..]);
      if rest.Some? {
        PickedMore(o, ops, picks1, rest.value.1);
      }
    }
  }

  /** A note that has an order keeps it and never loses a message. */
  lemma {:induction false} OpenNoteNeverRollsBack(db: Db, note: NoteId, device: Writer, ops: seq<LineOp>)
    requires note in db.orders
    ensures ApplyBatch(db, note, device, ops).Some? && note in ApplyBatch(db, note, device, ops).value.0.orders
    decreases |ops|
  {
    if ops != [] {
      var (next, o) := ApplyOp(db, note, device, ops[0]);
      assert !o.Failed? && note in next.orders;
      OpenNoteNeverRollsBack(next, note, device, ops[1..]);
    }
  }

  // ---- Queues ----

  /** A broadcast to a subscriber other than the sender: with fewer than 256 messages waiting it gets
      the message and stays, otherwise it is dropped and its queue is as it was. */
  lemma BroadcastLaw(s: State, c: Conn, ops: seq<LineOp>, k: Conn)
    requires k in s.subscribers && k != c
    ensures var s' := Publish(s, c, ops);
      if k in s.queues && |s.queues[k]| < 256 then
        k in s'.subscribers && k in s'.queues && s'.queues[k] == s.queues[k] + [Batch(s.seqNo + 1, ops)]
      else
        k !in s'.subscribers && (k in s'.queues <==> k in s.queues) && (k in s.queues ==> s'.queues[k] == s.queues[k])
  {
  }

  /** The sender and strangers hear nothing of it, and nobody is subscribed by it. */
  lemma BroadcastSpares(s: State, c: Conn, ops: seq<LineOp>, k: Conn)
    requires k == c || k !in s.subscribers
    ensures var s' := Publish(s, c, ops);
      && (k in s'.subscribers <==> k in s.subscribers) && (k in s'.queues <==> k in s.queues)
      && (k in s.queues ==> s'.queues[k] == s.queues[k])
  {
  }

  /** A message takes a number and is broadcast exactly when something of it was applied. */
  lemma SubmitLaw(s: State, note: NoteId, c: Conn, device: Writer, ops: seq<LineOp>)
    ensures var s', r := DoSubmit(s, note, c, device, ops), ApplyBatch(s.db, note, device, ops);
      && s'.db == (if r.Some? then r.value.0 else s.db)
      && if r.Some? && r.value.1 != [] then
           s'.seqNo == s.seqNo + 1 && s' == Publish(s.(db := s'.db), c, r.value.1)
         else
           s' == s.(db := s'.db)
  {
  }

  /** Joining an existing note subscribes, and queues the note as it stands when there is room. Joining
      a note without an order does nothing. */
  lemma JoinLaw(s: State, note: NoteId, c: Conn)
    ensures var s' := Step(s, note, Join(c));
      && s'.db == s.db && s'.seqNo == s.seqNo
      && (note !in s.db.orders ==> s' == s)
      && (note in s.db.orders ==> s'.subscribers == s.subscribers + {c})
      && (note in s.db.orders && c in s.queues ==>
            c in s'.queues
            && s'.queues[c] == s.queues[c] + if |s.queues[c]| < 256 then [Welcome(NotePart(s.db, note))] else [])
      && (forall k | k != c :: (k in s'.queues <==> k in s.queues) && (k in s.queues ==> s'.queues[k] == s.queues[k]))
  {
  }

  /** A snapshot holds the note's order and exactly its rows, tombstones included. */
  lemma SnapshotLaw(db: Db, note: NoteId)
    ensures var part := NotePart(db, note);
      && (forall l :: l in part.lines <==> l in db.lines && db.lines[l].note == note)
      && (forall l | l in part.lines :: part.lines[l] == db.lines[l])
      && (forall n :: n in part.orders <==> n == note && note in db.orders)
      && (note in db.orders ==> part.orders[note] == db.orders[note])
  {
  }

  /** Leaving and closing end the subscription of that connection only; closing also throws its queue
      away, opening starts an empty one, and the writer takes the oldest message. */
  lemma ConnectionLaw(s: State, note: NoteId, c: Conn, k: Conn)
    ensures var s' := Step(s, note, Leave(c)); c !in s'.subscribers && s'.queues == s.queues
    ensures var s' := Step(s, note, Close(c)); c !in s'.subscribers && c !in s'.queues
    ensures c !in s.log ==> var s' := Step(s, note, Open(c)); c in s'.queues && s'.queues[c] == []
    ensures c in s.queues && s.queues[c] != [] ==>
      var s' := Step(s, note, Drain(c)); c in s'.queues && [s.queues[c][0]] + s'.queues[c] == s.queues[c]
    ensures k != c ==> forall e | e in {Leave(c), Close(c), Open(c), Drain(c)} ::
      var s' := Step(s, note, e);
      (k in s'.subscribers <==> k in s.subscribers) && (k in s'.queues <==> k in s.queues)
      && (k in s.queues ==> s'.queues[k] == s.queues[k])
  {
  }

  /** An op on another note changes the database and nothing of the session; one on this note goes through
      the session. */
  lemma ElsewhereLaw(s: State, note: NoteId, other: NoteId, device: Writer, op: LineOp)
    ensures Step(s, note, Elsewhere(other, device, op))
            == if other == note then s else s.(db := ApplyOp(s.db, other, device, op).0)
  {
  }

  /** No queue ever holds more than 256 messages. */
  predicate Bounded(s: State) {
    forall c | c in s.queues :: |s.queues[c]| <= 256
  }

  lemma {:induction false} QueuesStayBounded(s: State, note: NoteId, es: seq<Event>)
    requires Bounded(s)
    ensures Bounded(Run(s, note, es))
    decreases |es|
  {
    if es != [] {
      StepBounded(s, note, es[0]);
      QueuesStayBounded(Step(s, note, es[0]), note, es[1..]);
    }
  }

  lemma StepBounded(s: State, note: NoteId, e: Event)
    requires Bounded(s)
    ensures Bounded(Step(s, note, e))
  {
  }

  predicate EndOf(queue: seq<Message>, log: seq<Message>) {
    |queue| <= |log| && queue == log[|log| - |queue|..]
  }

  /** What waits for a connection is always the end of what was ever queued for it. */
  predicate Waiting(s: State) {
    forall c | c in s.queues :: c in s.log && EndOf(s.queues[c], s.log[c])
  }

  lemma EndGrows(queue: seq<Message>, log: seq<Message>, m: Message)
    requires EndOf(queue, log)
    ensures EndOf(queue + [m], log + [m])
  {
  }

  lemma DeliverWaiting(s: State, to: set<Conn>, m: Message)
    requires Waiting(s)
    ensures Waiting(Deliver(s, to, m))
  {
    forall c | c in s.queues ensures EndOf(s.queues[c] + [m], s.log[c] + [m]) {
      EndGrows(s.queues[c], s.log[c], m);
    }
  }

  lemma PublishWaiting(s: State, c: Conn, ops: seq<LineOp>)
    requires Waiting(s)
    ensures Waiting(Publish(s, c, ops))
  {
    var to, m := Reached(s.subscribers, s.queues, Some(c)), Batch(s.seqNo + 1, ops);
    DeliverWaiting(s, to, m);
    WaitingIsOfQueues(Deliver(s, to, m), Publish(s, c, ops));
  }

  lemma WaitingIsOfQueues(s: State, s': State)
    requires Waiting(s) && s'.queues == s.queues && s'.log == s.log
    ensures Waiting(s')
  {
  }

  lemma SubmitWaiting(s: State, note: NoteId, c: Conn, device: Writer, ops: seq<LineOp>)
    requires Waiting(s)
    ensures Waiting(DoSubmit(s, note, c, device, ops))
  {
    var r := ApplyBatch(s.db, note, device, ops);
    if r.Some? {
      WaitingIsOfQueues(s, s.(db := r.value.0));
      PublishWaiting(s.(db := r.value.0), c, r.value.1);
    }
  }

  lemma JoinWaiting(s: State, note: NoteId, c: Conn)
    requires Waiting(s)
    ensures Waiting(DoJoin(s, note, c))
  {
    DeliverWaiting(s.(subscribers := s.subscribers + {c}), {c}, Welcome(NotePart(s.db, note)));
  }

  lemma DrainWaiting(s: State, note: NoteId, c: Conn)
    requires Waiting(s)
    ensures Waiting(Step(s, note, Drain(c)))
  {
  }

  lemma StepWaiting(s: State, note: NoteId, e: Event)
    requires Waiting(s)
    ensures Waiting(Step(s, note, e))
  {
    match e {
      case Say(c) => DeliverWaiting(s, {c}, Chatter);
      case Join(c) => JoinWaiting(s, note, c);
      case Submit(c, device, ops) => SubmitWaiting(s, note, c, device, ops);
      case Drain(c) => DrainWaiting(s, note, c);
      case _ =>
    }
  }

  lemma {:induction false} QueueIsRestOfLog(s: State, note: NoteId, es: seq<Event>)
    requires Waiting(s)
    ensures Waiting(Run(s, note, es))
    decreases |es|
  {
    if es != [] {
      StepWaiting(s, note, es[0]);
      QueueIsRestOfLog(Step(s, note, es[0]), note, es[1..]);
    }
  }
}
