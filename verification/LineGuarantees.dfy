/**
 What holds at every state of every interleaving: each stored line is listed in its
 note's order, exactly once when ids are fresh and moved ids distinct; vectors only
 grow, so a committed op never applies twice; no stored line contains a newline.
 */
module LineGuarantees {
  import opened Prelude
  import opened VersionVectors
  import opened Text
  import opened LineOps
  import opened LineEngine
  import opened Materialize

  lemma StartsOk()
    ensures Inv(Empty) && Distinct(Empty) && Clean(Empty) && AllSettled(Empty)
  {
  }

  // ---- Stored lines are in their order ----

  lemma EveryStoredLineIsInItsOrder(es: seq<Event>)
    requires Legal(Empty, es) && FreshRun(Empty, es)
    ensures var db := After(Empty, es).db;
      forall l | l in db.lines :: db.lines[l].note in db.orders && l in db.orders[db.lines[l].note].ids
  {
    StartsOk();
    RunKeeps(Empty, es);
    var w := After(Empty, es);
    forall l | l in w.db.lines
      ensures w.db.lines[l].note in w.db.orders && l in w.db.orders[w.db.lines[l].note].ids
    {
      assert NoteOk(w.db, w.collected, w.db.lines[l].note);
    }
  }

  // ---- No duplicates ----

  predicate DistinctTxn(t: Txn) {
    && (t.order.Some? ==> NoDup(t.order.value.ids))
    && (t.pending.Some? ==>
          && (t.pending.value.seen.order.Some? ==> NoDup(t.pending.value.seen.order.value.ids))
          && (t.pending.value.op.Move? ==> NoDup(t.pending.value.op.lineIds)))
  }

  predicate Distinct(w: World) {
    && (forall n | n in w.db.orders :: NoDup(w.db.orders[n].ids))
    && (forall n | n in w.txns :: DistinctTxn(w.txns[n]))
  }

  lemma WriteKeepsDistinct(w: World, n: NoteId)
    requires Inv(w) && Distinct(w) && Enabled(w, Write(n)) && Fresh(w, Write(n))
    ensures Distinct(Step(w, Write(n)))
  {
    var t := w.txns[n];
    var p := t.pending.value;
    assert TxnOk(w.db, w.collected, n, t) && DistinctTxn(t);
    if Decide(p.seen, n, p.device, p.op).Applied? {
      if p.op.Insert? {
        assert !Stored(w, p.op.lineId);
        assert p.op.lineId !in p.seen.order.value.ids;
        var _ := InsertPlacesOneId(p.seen.order.value, p.op);
      } else if p.op.Move? {
        MovePermutesIffDistinct(p.seen.order.value, p.op);
      }
    }
    assert DistinctTxn(Step(w, Write(n)).txns[n]);
  }

  lemma StepKeepsDistinct(w: World, e: Event)
    requires Inv(w) && Distinct(w) && Enabled(w, e) && Fresh(w, e)
    requires e.Read? && e.op.Move? ==> NoDup(e.op.lineIds)
    ensures Distinct(Step(w, e))
  {
    match e
    case Write(n) => WriteKeepsDistinct(w, n);
    case GcCompact(job) =>
      if job.note in w.db.orders {
        WithoutNoDup(w.db.orders[job.note].ids, job.ids);
      }
    case Read(n, _, _) => assert DistinctTxn(w.txns[n]);
    case Commit(n) => assert DistinctTxn(w.txns[n]);
    case _ =>
  }

  lemma {:induction false} RunKeepsDistinct(w: World, es: seq<Event>)
    requires Inv(w) && Distinct(w) && Legal(w, es) && FreshRun(w, es) && DistinctMoves(es)
    ensures Distinct(After(w, es))
    decreases |es|
  {
    if es != [] {
      StepKeeps(w, es[0]);
      StepKeepsDistinct(w, es[0]);
      assert forall i | 0 <= i < |es[1..]| :: es[1..][i] == es[i + 1];
      RunKeepsDistinct(Step(w, es[0]), es[1..]);
    }
  }

  /** The materialised body lists each live line of the note exactly once. */
  lemma EachLiveLineOnce(es: seq<Event>, n: NoteId)
    requires Legal(Empty, es) && FreshRun(Empty, es) && DistinctMoves(es)
    requires n in After(Empty, es).db.orders
    ensures var db := After(Empty, es).db;
      && NoDup(db.orders[n].ids)
      && NoDup(LiveIds(db, n))
      && (forall l :: l in LiveIds(db, n) <==> l in LiveLines(db.lines, n))
      && |LiveTexts(db.lines, n, db.orders[n].ids)| == |LiveIds(db, n)|
      && forall i | 0 <= i < |LiveIds(db, n)| ::
           LiveIds(db, n)[i] in db.lines
           && LiveTexts(db.lines, n, db.orders[n].ids)[i] == db.lines[LiveIds(db, n)[i]].content
  {
    StartsOk();
    RunKeeps(Empty, es);
    RunKeepsDistinct(Empty, es);
    var w := After(Empty, es);
    var hidden := Hidden(w.db.lines, n, w.db.orders[n].ids);
    assert NoteOk(w.db, w.collected, n);
    WithoutNoDup(w.db.orders[n].ids, hidden);
    WithoutMembers(w.db.orders[n].ids, hidden);
    TextsOfLiveIds(w.db.lines, n, w.db.orders[n].ids);
  }

  // ---- Vectors only grow; committed ops are settled ----

  /** Between the two databases nothing of note `n` lost a version; rows only vanish
      into `collected'`. */
  predicate Grew(d: Db, d': Db, collected': set<LineId>, n: NoteId) {
    && d'.lines.Keys !! collected'
    && (n in d.orders ==> n in d'.orders && Leq(d.orders[n].vv, d'.orders[n].vv))
    && forall l | l in d.lines && d.lines[l].note == n ::
         if l in d'.lines then d'.lines[l].note == n && Leq(d.lines[l].vv, d'.lines[l].vv) else l in collected'
  }

  /** The op's own component is on record where a resubmission would meet it. */
  predicate Settled(d: Db, collected: set<LineId>, n: NoteId, op: LineOp) {
    if op.Insert? || op.Move? then
      n in d.orders && At(op.vv, op.lastWriter) <= At(d.orders[n].vv, op.lastWriter)
    else if op.lineId in d.lines then
      d.lines[op.lineId].note == n && At(op.vv, op.lastWriter) <= At(d.lines[op.lineId].vv, op.lastWriter)
    else op.lineId in collected
  }

  lemma SettledStays(d: Db, d': Db, collected: set<LineId>, collected': set<LineId>, n: NoteId, op: LineOp)
    requires Settled(d, collected, n, op) && Grew(d, d', collected', n) && collected <= collected'
    ensures Settled(d', collected', n, op)
  {
    if op.Insert? || op.Move? {
      LeqAt(d.orders[n].vv, d'.orders[n].vv);
    } else if op.lineId in d.lines && op.lineId in d'.lines {
      LeqAt(d.lines[op.lineId].vv, d'.lines[op.lineId].vv);
    }
  }

  /** The database as the next op on the note would see it. */
  function Current(w: World, n: NoteId): Db {
    if n in w.txns then View(w.db, n, w.txns[n]) else w.db
  }

  predicate Opened(w: World, n: NoteId, op: LineOp) {
    n in w.txns && op in w.txns[n].log
  }

  ghost predicate AllSettled(w: World) {
    && (forall n: NoteId, op: LineOp :: (n, op) in w.done ==> Settled(w.db, w.collected, n, op))
    && (forall n: NoteId, op: LineOp :: (n, op) in w.done ==> Settled(Current(w, n), w.collected, n, op))
    && (forall n: NoteId, op: LineOp :: Opened(w, n, op) ==> Settled(Current(w, n), w.collected, n, op))
  }

  lemma EffectGrows(v: Db, collected: set<LineId>, n: NoteId, p: Pending)
    requires NoteOk(v, collected, n) && PendingOk(v, collected, n, p) && v.lines.Keys !! collected
    requires Decide(p.seen, n, p.device, p.op).Applied?
    requires p.op.Insert? ==> p.op.lineId !in v.lines && p.op.lineId !in collected
    ensures var v' := Effect(v, n, p.device, p.op, p.seen);
      Grew(v, v', collected, n) && Settled(v', collected, n, p.op)
  {
    var op := p.op;
    var v' := Effect(v, n, p.device, op, p.seen);
    if op.Insert? || op.Move? {
      MergeIsLeastUpperBound(v.orders[n].vv, op.vv, op.vv);
      LeqAt(op.vv, v'.orders[n].vv);
    } else if op.lineId in v.lines {
      MergeIsLeastUpperBound(v.lines[op.lineId].vv, op.vv, op.vv);
      LeqAt(op.vv, v'.lines[op.lineId].vv);
    }
  }

  lemma SameNoteGrew(d: Db, d': Db, collected': set<LineId>, n: NoteId)
    requires SameNote(d, d', n) && d'.lines.Keys !! collected'
    ensures Grew(d, d', collected', n)
  {
  }

  lemma InvViewLive(w: World, n: NoteId)
    requires Inv(w)
    ensures Current(w, n).lines.Keys !! w.collected
  {
    if n in w.txns {
      assert TxnOk(w.db, w.collected, n, w.txns[n]);
    }
  }

  lemma StageGrows(db: Db, collected: set<LineId>, n: NoteId, t: Txn, p: Pending)
    requires NoteOk(View(db, n, t), collected, n) && PendingOk(View(db, n, t), collected, n, p)
    requires View(db, n, t).lines.Keys !! collected && Decide(p.seen, n, p.device, p.op).Applied?
    requires p.op.Insert? ==> p.op.lineId !in View(db, n, t).lines && p.op.lineId !in collected
    ensures var v, v' := View(db, n, t), View(db, n, Stage(View(db, n, t), n, t, p));
      Grew(v, v', collected, n) && Settled(v', collected, n, p.op)
  {
    EffectGrows(View(db, n, t), collected, n, p);
    StageIsEffect(db, n, t, p);
  }

  lemma StagedLog(v: Db, n: NoteId, t: Txn, p: Pending)
    ensures var t' := Stage(v, n, t, p);
      if Decide(p.seen, n, p.device, p.op).Applied? then t'.log == t.log + [p.op]
      else t'.log == t.log && t'.lines == t.lines && t'.order == t.order
  {
  }

  lemma WriteGrows(w: World, n: NoteId)
    requires Inv(w) && Enabled(w, Write(n)) && Fresh(w, Write(n))
    ensures var w' := Step(w, Write(n));
      && Grew(Current(w, n), Current(w', n), w.collected, n)
      && forall op: LineOp :: Opened(w', n, op) && !Opened(w, n, op) ==> Settled(Current(w', n), w.collected, n, op)
  {
    InvViewLive(w, n);
    var t := w.txns[n];
    var p := t.pending.value;
    assert TxnOk(w.db, w.collected, n, t);
    StagedLog(View(w.db, n, t), n, t, p);
    if Decide(p.seen, n, p.device, p.op).Applied? {
      assert p.op.Insert? ==> !Stored(w, p.op.lineId);
      StageGrows(w.db, w.collected, n, t, p);
    } else {
      NothingLost(Current(w, n), w.collected, n);
    }
  }

  /** Steps on the note itself: its transaction opens, reads, writes or commits. */
  lemma OwnStepGrows(w: World, e: Event, n: NoteId)
    requires Inv(w) && Enabled(w, e) && Fresh(w, e)
    requires e.Begin? || e.Read? || e.Write? || e.Commit?
    requires e.note == n
    ensures Grew(Current(w, n), Current(Step(w, e), n), w.collected, n)
    ensures e.Write? ==> forall op: LineOp ::
      Opened(Step(w, e), n, op) && !Opened(w, n, op) ==> Settled(Current(Step(w, e), n), w.collected, n, op)
  {
    if e.Write? {
      WriteGrows(w, n);
    } else {
      InvViewLive(w, n);
      QuietStep(w, e, n);
      NothingLost(Current(w, n), w.collected, n);
    }
  }

  /** Only writes change what the note's own transaction sees. */
  lemma QuietStep(w: World, e: Event, n: NoteId)
    requires Enabled(w, e) && (e.Begin? || e.Read? || e.Commit?) && e.note == n
    ensures Current(Step(w, e), n) == Current(w, n)
  {
  }

  lemma NothingLost(d: Db, collected: set<LineId>, n: NoteId)
    requires d.lines.Keys !! collected
    ensures Grew(d, d, collected, n)
  {
  }

  lemma CommitSame(db: Db, collected: set<LineId>, m: NoteId, t: Txn, n: NoteId)
    requires TxnOk(db, collected, m, t) && m != n
    ensures SameNote(db, View(db, m, t), n)
  {
  }

  lemma CommitSameView(db: Db, collected: set<LineId>, m: NoteId, t: Txn, n: NoteId, u: Txn)
    requires TxnOk(db, collected, m, t) && TxnOk(db, collected, n, u) && m != n
    requires t.lines.Keys !! u.lines.Keys && db.lines.Keys !! collected
    ensures SameNote(View(db, n, u), View(View(db, m, t), n, u), n)
  {
    CommitSame(db, collected, m, t, n);
    TxnFrame(db, View(db, m, t), collected, n, u);
  }

  lemma CommitViewed(w: World, m: NoteId, n: NoteId)
    requires Enabled(w, Commit(m)) && m != n
    ensures var w' := Step(w, Commit(m));
      && w'.db == View(w.db, m, w.txns[m])
      && Current(w', n) == if n in w.txns then View(View(w.db, m, w.txns[m]), n, w.txns[n]) else w'.db
  {
  }

  lemma CommitElsewhereGrows(w: World, m: NoteId, n: NoteId)
    requires Inv(w) && Enabled(w, Commit(m)) && m != n
    ensures SameNote(w.db, Step(w, Commit(m)).db, n)
    ensures SameNote(Current(w, n), Current(Step(w, Commit(m)), n), n)
  {
    CommitViewed(w, m, n);
    assert TxnOk(w.db, w.collected, m, w.txns[m]);
    CommitSame(w.db, w.collected, m, w.txns[m], n);
    if n in w.txns {
      assert TxnOk(w.db, w.collected, n, w.txns[n]);
      CommitSameView(w.db, w.collected, m, w.txns[m], n, w.txns[n]);
    }
  }

  /** Steps elsewhere leave the note's rows alone. */
  lemma OtherStepGrows(w: World, e: Event, n: NoteId)
    requires Inv(w) && Enabled(w, e)
    requires e.Begin? || e.Read? || e.Write? || e.Commit? || e.Abort?
    requires e.note != n
    ensures SameNote(w.db, Step(w, e).db, n)
    ensures SameNote(Current(w, n), Current(Step(w, e), n), n)
  {
    if e.Commit? {
      CommitElsewhereGrows(w, e.note, n);
    } else {
      assert Step(w, e).db == w.db && Current(Step(w, e), n) == Current(w, n);
    }
  }

  /** Surviving rows are untouched, vanished rows are collected, the order keeps its vector. */
  predicate Untouched(d: Db, d': Db, collected': set<LineId>, n: NoteId) {
    && (n in d.orders ==> n in d'.orders && d'.orders[n].vv == d.orders[n].vv)
    && forall l | l in d.lines :: if l in d'.lines then d'.lines[l] == d.lines[l] else l in collected'
  }

  lemma UntouchedGrew(d: Db, d': Db, collected': set<LineId>, n: NoteId)
    requires d'.lines.Keys !! collected' && Untouched(d, d', collected', n)
    ensures Grew(d, d', collected', n)
  {
  }

  lemma CreationGrows(w: World, e: Event, n: NoteId)
    requires Inv(w) && Enabled(w, e) && Fresh(w, e) && (e.CreateNote? || e.ImportNote?)
    ensures Grew(w.db, Step(w, e).db, w.collected, n)
    ensures Grew(Current(w, n), Current(Step(w, e), n), w.collected, n)
  {
    var w' := Step(w, e);
    StepKeeps(w, e);
    InvViewLive(w', n);
    forall l | l in w.db.lines ensures l in w'.db.lines && w'.db.lines[l] == w.db.lines[l] {
      assert Stored(w, l);
    }
    UntouchedGrew(w.db, w'.db, w.collected, n);
    if n in w.txns {
      assert TxnOk(w.db, w.collected, n, w.txns[n]);
      UntouchedGrew(Current(w, n), Current(w', n), w.collected, n);
    }
  }

  /** A read through any open transaction survives GC as the committed tables do. */
  lemma GcUntouched(w: World, e: Event, n: NoteId)
    requires Inv(w) && Enabled(w, e) && (e.GcDelete? || e.GcCompact?)
    ensures Untouched(w.db, Step(w, e).db, Step(w, e).collected, n)
  {
  }

  lemma ViewUntouched(db: Db, db': Db, collected': set<LineId>, n: NoteId, t: Txn)
    requires Untouched(db, db', collected', n)
    ensures Untouched(View(db, n, t), View(db', n, t), collected', n)
  {
  }

  lemma GcUntouchedView(w: World, e: Event, n: NoteId)
    requires Inv(w) && Enabled(w, e) && (e.GcDelete? || e.GcCompact?)
    ensures Untouched(Current(w, n), Current(Step(w, e), n), Step(w, e).collected, n)
  {
    GcUntouched(w, e, n);
    if n in w.txns {
      ViewUntouched(w.db, Step(w, e).db, Step(w, e).collected, n, w.txns[n]);
    }
  }

  lemma GcGrows(w: World, e: Event, n: NoteId)
    requires Inv(w) && Enabled(w, e) && (e.GcDelete? || e.GcCompact?)
    ensures Grew(w.db, Step(w, e).db, Step(w, e).collected, n)
    ensures Grew(Current(w, n), Current(Step(w, e), n), Step(w, e).collected, n)
  {
    var w' := Step(w, e);
    StepKeeps(w, e);
    InvViewLive(w', n);
    GcUntouched(w, e, n);
    UntouchedGrew(w.db, w'.db, w'.collected, n);
    GcUntouchedView(w, e, n);
    UntouchedGrew(Current(w, n), Current(w', n), w'.collected, n);
  }

  /** Opening a note keeps what its committed ops recorded, and so does every other step. */
  lemma StepKeepsSettled(w: World, e: Event)
    requires Inv(w) && AllSettled(w) && Enabled(w, e) && Fresh(w, e)
    ensures AllSettled(Step(w, e))
  {
    var w' := Step(w, e);
    StepKeeps(w, e);
    forall n: NoteId, op: LineOp | (n, op) in w'.done || Opened(w', n, op)
      ensures (n, op) in w'.done ==> Settled(w'.db, w'.collected, n, op)
      ensures Settled(Current(w', n), w'.collected, n, op)
    {
      StepKeepsOneSettled(w, e, n, op);
    }
  }

  lemma StepKeepsOneSettled(w: World, e: Event, n: NoteId, op: LineOp)
    requires Inv(w) && AllSettled(w) && Enabled(w, e) && Fresh(w, e)
    requires (n, op) in Step(w, e).done || Opened(Step(w, e), n, op)
    ensures (n, op) in Step(w, e).done ==> Settled(Step(w, e).db, Step(w, e).collected, n, op)
    ensures Settled(Current(Step(w, e), n), Step(w, e).collected, n, op)
  {
    var w' := Step(w, e);
    StepKeeps(w, e);
    if e.CreateNote? || e.ImportNote? {
      CreationGrows(w, e, n);
    } else if e.GcDelete? || e.GcCompact? {
      GcGrows(w, e, n);
    } else if e.note != n {
      OtherStepGrows(w, e, n);
      InvViewLive(w', n);
      SameNoteGrew(w.db, w'.db, w.collected, n);
      SameNoteGrew(Current(w, n), Current(w', n), w.collected, n);
    } else if !e.Abort? {
      OwnStepGrows(w, e, n);
    }
    if e.Commit? && e.note == n {
      assert Current(w', n) == w'.db == Current(w, n);
      assert (n, op) in w.done || Opened(w, n, op);
    } else {
      if (n, op) in w'.done {
        assert (n, op) in w.done;
        if w'.db != w.db {
          SettledStays(w.db, w'.db, w.collected, w'.collected, n, op);
        }
      }
      if !(e.Abort? && e.note == n) && ((n, op) in w.done || Opened(w, n, op)) {
        SettledStays(Current(w, n), Current(w', n), w.collected, w'.collected, n, op);
      }
    }
  }

  lemma {:induction false} RunKeepsSettled(w: World, es: seq<Event>)
    requires Inv(w) && AllSettled(w) && Legal(w, es) && FreshRun(w, es)
    ensures AllSettled(After(w, es))
    decreases |es|
  {
    if es != [] {
      StepKeeps(w, es[0]);
      StepKeepsSettled(w, es[0]);
      RunKeepsSettled(Step(w, es[0]), es[1..]);
    }
  }

  /** An op on record is refused or ignored. */
  lemma SettledIsRefused(d: Db, collected: set<LineId>, n: NoteId, op: LineOp, device: Writer)
    requires Settled(d, collected, n, op)
    ensures ApplyOp(d, n, device, op).0 == d && !ApplyOp(d, n, device, op).1.Applied?
  {
    var r := ReadsOf(d, n, op);
    if op.Insert? || op.Move? {
      assert r.order == Some(d.orders[n]) && OrderKept(d.orders[n], op);
    } else if op.lineId in d.lines {
      assert r.line == Some(d.lines[op.lineId]) && LineKept(d.lines[op.lineId], op);
    } else {
      assert r.line == None;
    }
    assert !Decide(r, n, device, op).Applied?;
  }

  /** Resubmitting a committed op at any later point of the run, from any device and
      under any transaction then open, changes nothing. */
  lemma ResubmissionIsHarmless(es: seq<Event>, n: NoteId, op: LineOp, device: Writer)
    requires Legal(Empty, es) && FreshRun(Empty, es)
    requires (n, op) in After(Empty, es).done
    ensures var db := Current(After(Empty, es), n);
      ApplyOp(db, n, device, op).0 == db && !ApplyOp(db, n, device, op).1.Applied?
  {
    StartsOk();
    RunKeepsSettled(Empty, es);
    var w := After(Empty, es);
    SettledIsRefused(Current(w, n), w.collected, n, op, device);
  }

  // ---- No stored line contains a newline ----

  predicate CleanLines(lines: map<LineId, Line>) {
    forall l | l in lines :: OneLine(lines[l].content)
  }

  predicate Clean(w: World) {
    CleanLines(w.db.lines) && forall n | n in w.txns :: CleanLines(w.txns[n].lines)
  }

  lemma StepKeepsClean(w: World, e: Event)
    requires Clean(w) && Enabled(w, e)
    ensures Clean(Step(w, e))
  {
    match e
    case ImportNote(_, _, body, _, _) => SplitGivesOneLiners(body);
    case Write(n) =>
      assert CleanLines(w.txns[n].lines);
      assert CleanLines(View(w.db, n, w.txns[n]).lines);
    case Commit(n) => assert CleanLines(w.txns[n].lines);
    case _ =>
  }

  lemma {:induction false} RunKeepsClean(w: World, es: seq<Event>)
    requires Clean(w) && Legal(w, es)
    ensures Clean(After(w, es))
    decreases |es|
  {
    if es != [] {
      StepKeepsClean(w, es[0]);
      RunKeepsClean(Step(w, es[0]), es[1..]);
    }
  }

  /** Whatever the run, splitting a body that shows at least one line gives back
      exactly the live lines. */
  lemma BodySplitsIntoLiveLines(es: seq<Event>, n: NoteId, cap: nat)
    requires Legal(Empty, es) && n in After(Empty, es).db.orders
    requires LiveTexts(After(Empty, es).db.lines, n, After(Empty, es).db.orders[n].ids) != []
    ensures var db := After(Empty, es).db;
      var live := LiveTexts(db.lines, n, db.orders[n].ids);
      match MaterializeBody(db, n, cap)
      case Body(text) => Split(text) == live && (cap > 0 ==> |text| <= cap)
      case TooLarge(total) => 0 < cap < total == |Join(live)|
      case Missing => false
  {
    StartsOk();
    RunKeepsClean(Empty, es);
    var db := After(Empty, es).db;
    var live := LiveTexts(db.lines, n, db.orders[n].ids);
    TextsOfLiveIds(db.lines, n, db.orders[n].ids);
    SplitJoin(live);
    RefusedExactlyWhenTooLong(db, n, cap);
  }

  /** Garbage collection never changes what a read of any note shows. */
  lemma GcKeepsBodies(w: World, e: Event, n: NoteId)
    requires Inv(w) && Enabled(w, e) && (e.GcDelete? || e.GcCompact?) && n in w.db.orders
    ensures n in Step(w, e).db.orders
    ensures LiveTexts(Step(w, e).db.lines, n, Step(w, e).db.orders[n].ids)
            == LiveTexts(w.db.lines, n, w.db.orders[n].ids)
  {
    var w' := Step(w, e);
    if e.GcDelete? {
      assert LiveLines(w'.db.lines, n) == LiveLines(w.db.lines, n);
      SameLiveTexts(w.db.lines, w'.db.lines, n, w.db.orders[n].ids);
    } else if e.job.note == n {
      DropHidden(w.db.lines, n, w.db.orders[n].ids, e.job.ids);
    }
  }

  // ---- Why moved ids must be distinct ----

  const Twice := Move([5, 5], None, map[1 := 2], 1, 20)

  /** A Move that names an id twice is accepted, and a read then shows the line twice. */
  lemma RepeatedMoveShowsTwice(text: Bytes)
    ensures var db := Db(map[5 := Line(0, text, 0, None, map[1 := 1], 1)], map[0 := Order([5], 0, map[1 := 1], 1)]);
      var (db', o) := ApplyOp(db, 0, 1, Twice);
      && o.Applied? && 0 in db'.orders && db'.orders[0].ids == [5, 5]
      && LiveTexts(db'.lines, 0, db'.orders[0].ids) == [text, text]
  {
    var db := Db(map[5 := Line(0, text, 0, None, map[1 := 1], 1)], map[0 := Order([5], 0, map[1 := 1], 1)]);
    var gone := MovedSet(Twice);
    AdvancingNeverDominated(map[1 := 1], 0, 1, Twice.vv, 20, 1);
    WithoutEverything([5], gone);
    var db' := ApplyOp(db, 0, 1, Twice).0;
    assert db'.orders[0].ids == [] + [5, 5] + [] == [5, 5];
    assert 5 in LiveLines(db'.lines, 0);
    assert [5, 5][1..] == [5] && [5][1..] == [];
    assert LiveTexts(db'.lines, 0, [5]) == [text] + LiveTexts(db'.lines, 0, []);
  }

  // ---- Why ids must stay fresh ----

  /** A compaction keeps every stored line listed exactly when none of the ids it
      takes out is stored again. */
  lemma CompactionSafeIff(lines: map<LineId, Line>, n: NoteId, order: Order, ids: set<LineId>)
    requires Covers(lines, n, order.ids)
    ensures Covers(lines, n, Compacted(order, ids).ids)
            <==> forall l | l in lines && lines[l].note == n :: l !in ids
  {
    WithoutMembers(order.ids, ids);
  }

  lemma {:induction false} OneMore(w: World, es: seq<Event>, e: Event)
    requires Legal(w, es) && Enabled(After(w, es), e)
    ensures Legal(w, es + [e]) && After(w, es + [e]) == Step(After(w, es), e)
    decreases |es|
  {
    if es == [] {
      assert es + [e] == [e];
      assert [e][1..] == [];
    } else {
      assert (es + [e])[1..] == es[1..] + [e];
      OneMore(Step(w, es[0]), es[1..], e);
    }
  }

  function Solo(n: NoteId, device: Writer, op: LineOp): seq<Event> {
    [Begin(n), Read(n, device, op), Write(n), Commit(n)]
  }

  lemma FourSteps(w: World, es: seq<Event>)
    requires |es| == 4 && Enabled(w, es[0])
    requires Enabled(Step(w, es[0]), es[1]) && Enabled(Step(Step(w, es[0]), es[1]), es[2])
    requires Enabled(Step(Step(Step(w, es[0]), es[1]), es[2]), es[3])
    ensures Legal(w, es) && After(w, es) == Step(Step(Step(Step(w, es[0]), es[1]), es[2]), es[3])
  {
    var w1 := Step(w, es[0]);
    var w2 := Step(w1, es[1]);
    var w3 := Step(w2, es[2]);
    var w4 := Step(w3, es[3]);
    var tail := es[1..][1..][1..];
    assert Legal(w4, tail[1..]) && After(w4, tail[1..]) == w4;
    assert Legal(w3, tail) && After(w3, tail) == w4;
    assert Legal(w2, es[1..][1..]) && After(w2, es[1..][1..]) == w4;
    assert Legal(w1, es[1..]) && After(w1, es[1..]) == w4;
  }

  lemma SoloRead(w: World, n: NoteId, device: Writer, op: LineOp)
    requires w.txns == map[]
    ensures var w2 := Step(Step(w, Begin(n)), Read(n, device, op));
      w2 == w.(txns := map[n := Txn(map[], None, Some(Pending(op, device, ReadsOf(w.db, n, op))), [])])
      && View(w2.db, n, w2.txns[n]) == w.db
  {
    var w1 := Step(w, Begin(n));
    assert View(w1.db, n, w1.txns[n]) == w.db;
  }

  /** A transaction nothing interleaves with does exactly what `ApplyOp` says. */
  lemma SoloTransaction(w: World, n: NoteId, device: Writer, op: LineOp)
    requires w.txns == map[] && !ApplyOp(w.db, n, device, op).1.Failed?
    ensures Legal(w, Solo(n, device, op))
    ensures var w' := After(w, Solo(n, device, op));
      w'.db == ApplyOp(w.db, n, device, op).0 && w'.txns == map[]
      && w'.queued == w.queued && w'.collected == w.collected
  {
    SoloRead(w, n, device, op);
    var w2 := Step(Step(w, Begin(n)), Read(n, device, op));
    var t := w2.txns[n];
    assert Enabled(w2, Write(n));
    StagedLog(w.db, n, t, t.pending.value);
    if ApplyOp(w.db, n, device, op).1.Applied? {
      StageIsEffect(w2.db, n, t, t.pending.value);
    }
    FourSteps(w, Solo(n, device, op));
  }

  lemma {:induction false} RunsCompose(w: World, es: seq<Event>, fs: seq<Event>)
    requires Legal(w, es) && Legal(After(w, es), fs)
    ensures Legal(w, es + fs) && After(w, es + fs) == After(After(w, es), fs)
    decreases |es|
  {
    if es == [] {
      assert es + fs == fs;
    } else {
      assert (es + fs)[1..] == es[1..] + fs;
      RunsCompose(Step(w, es[0]), es[1..], fs);
    }
  }

  const Del := Delete(5, 20, map[1 := 2], 1, 20)
  const InsAgain := Insert(None, 5, [], map[1 := 3], 1, 30)
  const Imported := ImportNote(0, [5], [], 1, 0)

  const Start := Db(map[5 := Line(0, [], 0, None, map[1 := 1], 1)], map[0 := Order([5], 0, map[1 := 1], 1)])
  const Buried := Start.(lines := map[5 := Line(0, [], 20, Some(20), map[1 := 2], 1)])

  lemma DelApplies()
    ensures ApplyOp(Start, 0, 1, Del) == (Buried, Applied)
  {
    AdvancingNeverDominated(Start.lines[5].vv, 0, 1, Del.vv, 20, 1);
    assert Merge(map[1 := 1], map[1 := 2]) == map[1 := 2];
    assert ApplyOp(Start, 0, 1, Del).0.lines == Buried.lines;
  }

  lemma InsAgainApplies(db: Db)
    requires db == Start.(lines := map[])
    ensures var (db', o) := ApplyOp(db, 0, 1, InsAgain);
      o.Applied? && db'.lines == map[5 := NewLine(0, InsAgain)] && 0 in db'.orders
  {
    assert LiveLines(db.lines, 0) == {};
    AdvancingNeverDominated(map[1 := 1], 0, 1, InsAgain.vv, 30, 1);
  }

  lemma ImportStarts()
    ensures Legal(Empty, [Imported]) && After(Empty, [Imported]) == Empty.(db := Start)
  {
    assert IndexOf([5], 5) == Some(0);
    OneMore(Empty, [], Imported);
    assert [] + [Imported] == [Imported];
    assert Step(Empty, Imported).db.lines == Start.lines && Step(Empty, Imported).db.orders == Start.orders;
  }

  /** An empty import makes one line; deleting it leaves a tombstone. */
  lemma ATombstone() returns (w: World)
    ensures Legal(Empty, [Imported] + Solo(0, 1, Del)) && w == After(Empty, [Imported] + Solo(0, 1, Del))
    ensures w.db == Buried && w.txns == map[]
  {
    ImportStarts();
    var w1 := After(Empty, [Imported]);
    DelApplies();
    SoloTransaction(w1, 0, 1, Del);
    RunsCompose(Empty, [Imported], Solo(0, 1, Del));
    w := After(w1, Solo(0, 1, Del));
  }

  /** The steps from a tombstone to the lost line: GC deletes row 5, an Insert brings the
      id back, and the compaction still queued takes it out of the order. */
  function Reuse(): seq<Event> {
    [GcDelete({5}, 25)] + Solo(0, 1, InsAgain) + [GcCompact(Compaction(0, {5}))]
  }

  lemma TombstoneCollected(w: World)
    requires w.db == Buried && w.txns == map[]
    ensures Legal(w, [GcDelete({5}, 25)])
    ensures var w1 := After(w, [GcDelete({5}, 25)]);
      w1.db == Start.(lines := map[]) && w1.txns == map[] && Compaction(0, {5}) in w1.queued
  {
    var gc := GcDelete({5}, 25);
    OneMore(w, [], gc);
    assert [] + [gc] == [gc];
    var dead: set<LineId> := {5};
    var same := set j | j in dead && w.db.lines[j].note == w.db.lines[5].note;
    assert same == dead;
    assert Compaction(w.db.lines[5].note, same) in CompactionsOf(w.db.lines, dead);
    assert Step(w, gc).queued == w.queued + CompactionsOf(w.db.lines, dead);
    assert Compaction(0, dead) in Step(w, gc).queued;
  }

  lemma CollectedThenReinserted(w: World) returns (w2: World)
    requires w.db == Buried && w.txns == map[]
    ensures Legal(w, [GcDelete({5}, 25)] + Solo(0, 1, InsAgain))
    ensures w2 == After(w, [GcDelete({5}, 25)] + Solo(0, 1, InsAgain))
    ensures w2.txns == map[] && Compaction(0, {5}) in w2.queued
    ensures w2.db.lines == map[5 := NewLine(0, InsAgain)] && 0 in w2.db.orders
  {
    TombstoneCollected(w);
    var w1 := After(w, [GcDelete({5}, 25)]);
    InsAgainApplies(w1.db);
    SoloTransaction(w1, 0, 1, InsAgain);
    RunsCompose(w, [GcDelete({5}, 25)], Solo(0, 1, InsAgain));
    w2 := After(w1, Solo(0, 1, InsAgain));
  }

  /** With a reused id the property fails: a stored live line that no read of its note shows. */
  lemma ReuseHidesALiveLine() returns (es: seq<Event>)
    ensures Legal(Empty, es)
    ensures var db := After(Empty, es).db;
      5 in db.lines && db.lines[5].deletedAt.None? && db.lines[5].note == 0
      && 0 in db.orders && 5 !in db.orders[0].ids
  {
    var w := ATombstone();
    var w2 := CollectedThenReinserted(w);
    var job := GcCompact(Compaction(0, {5}));
    OneMore(w, [GcDelete({5}, 25)] + Solo(0, 1, InsAgain), job);
    RunsCompose(Empty, [Imported] + Solo(0, 1, Del), Reuse());
    es := [Imported] + Solo(0, 1, Del) + Reuse();
    WithoutMembers(w2.db.orders[0].ids, {5});
  }
}
