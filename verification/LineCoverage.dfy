/**
 Exactly when every stored line stays listed, without assuming anything about line ids: as long
 as no compaction takes out an id that is stored again.
 */
module LineCoverage {
  import opened Prelude
  import opened LineOps
  import opened LineEngine

  /** Every stored line is in its note's order. */
  predicate Listed(db: Db) {
    forall l | l in db.lines :: db.lines[l].note in db.orders && l in db.orders[db.lines[l].note].ids
  }

  /** A compaction is safe when its note stores none of the ids it takes out. */
  predicate Safe(w: World, e: Event) {
    e.GcCompact? ==> forall l | l in w.db.lines && w.db.lines[l].note == e.job.note :: l !in e.job.ids
  }

  predicate SafeRun(w: World, es: seq<Event>)
    requires Legal(w, es)
    decreases |es|
  {
    es == [] || (Safe(w, es[0]) && SafeRun(Step(w, es[0]), es[1..]))
  }

  /** At the start and after every step. */
  predicate ListedThroughout(w: World, es: seq<Event>)
    requires Legal(w, es)
    decreases |es|
  {
    Listed(w.db) && (es == [] || ListedThroughout(Step(w, es[0]), es[1..]))
  }

  // ---- What open transactions must not upset ----

  /** A staged row is an edit that leaves the row in its note, or a new row of the transaction's note,
      staged together with an order. */
  predicate RowsOk(db: Db, n: NoteId, t: Txn) {
    forall l | l in t.lines ::
      if l in db.lines then t.lines[l].note == db.lines[l].note else t.lines[l].note == n && t.order.Some?
  }

  /** An order staged or read lists everything of the note that the transaction sees. */
  predicate OrdersOk(db: Db, n: NoteId, t: Txn) {
    var lines := View(db, n, t).lines;
    && (t.order.Some? ==> n in db.orders && Covers(lines, n, t.order.value.ids))
    && (t.pending.Some? && t.pending.value.seen.order.Some? ==>
          n in db.orders && Covers(lines, n, t.pending.value.seen.order.value.ids))
  }

  predicate TxnListed(db: Db, n: NoteId, t: Txn) {
    RowsOk(db, n, t) && OrdersOk(db, n, t)
  }

  /** Two transactions never stage the same new row. */
  predicate Apart(db: Db, t: Txn, u: Txn) {
    forall l | l in t.lines && l in u.lines :: l in db.lines
  }

  predicate Sound(w: World) {
    && Listed(w.db)
    && (forall n | n in w.txns :: TxnListed(w.db, n, w.txns[n]))
    && (forall m, n | m in w.txns && n in w.txns && m != n :: Apart(w.db, w.txns[m], w.txns[n]))
  }

  /** A change that takes no staged row away or into another note, and adds none to this note, is no
      concern of the transaction. */
  lemma TxnFrame(db: Db, db': Db, n: NoteId, t: Txn)
    requires TxnListed(db, n, t) && (n in db.orders ==> n in db'.orders)
    requires forall l | l in t.lines :: l in db.lines <==> l in db'.lines
    requires forall l | l in t.lines && l in db.lines :: db.lines[l].note == db'.lines[l].note
    requires forall l | l in db'.lines && db'.lines[l].note == n :: l in db.lines && db.lines[l].note == n
    ensures TxnListed(db', n, t)
  {
  }

  /** What the transaction sees of its note is listed in the order it sees. */
  lemma ViewIsListed(db: Db, n: NoteId, t: Txn)
    requires Listed(db) && TxnListed(db, n, t)
    ensures forall l | l in View(db, n, t).lines && View(db, n, t).lines[l].note == n ::
      n in View(db, n, t).orders && l in View(db, n, t).orders[n].ids
  {
  }

  lemma ReadKeeps(w: World, e: Event)
    requires Sound(w) && e.Read? && Enabled(w, e)
    ensures Sound(Step(w, e))
  {
    var t, t' := w.txns[e.note], Step(w, e).txns[e.note];
    assert TxnListed(w.db, e.note, t);
    ViewIsListed(w.db, e.note, t);
    assert View(w.db, e.note, t') == View(w.db, e.note, t);
    assert TxnListed(w.db, e.note, t');
    forall m | m in w.txns && m != e.note ensures Apart(w.db, w.txns[m], t') && Apart(w.db, t', w.txns[m]) {
      assert Apart(w.db, w.txns[m], t) && Apart(w.db, t, w.txns[m]);
    }
  }

  lemma InsertListed(db: Db, n: NoteId, t: Txn, p: Pending)
    requires TxnListed(db, n, t) && t.pending == Some(p) && p.op.Insert? && Decide(p.seen, n, p.device, p.op).Applied?
    requires p.op.lineId !in db.lines && p.op.lineId !in t.lines
    ensures TxnListed(db, n, Stage(View(db, n, t), n, t, p))
  {
    var _ := InsertPlacesOneId(p.seen.order.value, p.op);
  }

  lemma MoveListed(db: Db, n: NoteId, t: Txn, p: Pending)
    requires TxnListed(db, n, t) && t.pending == Some(p) && p.op.Move? && Decide(p.seen, n, p.device, p.op).Applied?
    ensures TxnListed(db, n, Stage(View(db, n, t), n, t, p))
  {
    MoveKeepsIds(p.seen.order.value, p.op);
  }

  /** Staging a row in the note it is in already upsets nothing. */
  lemma RowListed(db: Db, n: NoteId, t: Txn, t': Txn, id: LineId, row: Line)
    requires TxnListed(db, n, t) && id in View(db, n, t).lines && row.note == View(db, n, t).lines[id].note
    requires t'.lines == t.lines[id := row] && t'.order == t.order && t'.pending.None?
    ensures TxnListed(db, n, t')
  {
  }

  lemma EditListed(db: Db, n: NoteId, t: Txn, p: Pending)
    requires TxnListed(db, n, t) && t.pending == Some(p) && (p.op.Update? || p.op.Delete?)
    requires Decide(p.seen, n, p.device, p.op).Applied?
    ensures TxnListed(db, n, Stage(View(db, n, t), n, t, p))
  {
    var v := View(db, n, t);
    var t' := Stage(v, n, t, p);
    if p.op.lineId in v.lines {
      RowListed(db, n, t, t', p.op.lineId, EditedLine(v.lines[p.op.lineId], p.seen.line.value.vv, p.op));
    }
  }

  lemma WriteListed(w: World, n: NoteId)
    requires Sound(w) && Enabled(w, Write(n))
    ensures TxnListed(w.db, n, Step(w, Write(n)).txns[n])
  {
    var t := w.txns[n];
    var p := t.pending.value;
    assert TxnListed(w.db, n, t);
    if !Decide(p.seen, n, p.device, p.op).Applied? {
      assert View(w.db, n, Step(w, Write(n)).txns[n]) == View(w.db, n, t);
    } else if p.op.Insert? {
      assert !Stored(w, p.op.lineId);
      InsertListed(w.db, n, t, p);
    } else if p.op.Move? {
      MoveListed(w.db, n, t, p);
    } else {
      EditListed(w.db, n, t, p);
    }
  }

  lemma WriteKeeps(w: World, e: Event)
    requires Sound(w) && e.Write? && Enabled(w, e)
    ensures Sound(Step(w, e))
  {
    var n, t := e.note, w.txns[e.note];
    var p, t' := t.pending.value, Step(w, e).txns[n];
    WriteListed(w, n);
    StagedOne(View(w.db, n, t), n, t, p);
    forall m | m in w.txns && m != n ensures Apart(w.db, w.txns[m], t') && Apart(w.db, t', w.txns[m]) {
      assert Apart(w.db, w.txns[m], t);
      if !p.op.Move? && t'.lines != t.lines && p.op.Insert? {
        assert !Stored(w, p.op.lineId);
      }
    }
  }

  lemma CommitListed(db: Db, n: NoteId, t: Txn)
    requires Listed(db) && TxnListed(db, n, t)
    ensures Listed(View(db, n, t))
  {
  }

  lemma CommitKeeps(w: World, e: Event)
    requires Sound(w) && e.Commit? && Enabled(w, e)
    ensures Sound(Step(w, e))
  {
    var n, t, w' := e.note, w.txns[e.note], Step(w, e);
    assert TxnListed(w.db, n, t);
    CommitListed(w.db, n, t);
    forall m | m in w'.txns ensures TxnListed(w'.db, m, w'.txns[m]) {
      assert TxnListed(w.db, m, w.txns[m]) && Apart(w.db, w.txns[m], t);
      TxnFrame(w.db, w'.db, m, w.txns[m]);
    }
    forall m, k | m in w'.txns && k in w'.txns && m != k ensures Apart(w'.db, w'.txns[m], w'.txns[k]) {
      assert Apart(w.db, w.txns[m], w.txns[k]);
    }
  }

  lemma CreationListed(w: World, e: Event)
    requires Sound(w) && (e.CreateNote? || e.ImportNote?) && Enabled(w, e)
    ensures Listed(Step(w, e).db)
    ensures forall l | Stored(w, l) :: l in w.db.lines <==> l in Step(w, e).db.lines
    ensures forall l | l in w.db.lines :: l in Step(w, e).db.lines && Step(w, e).db.lines[l] == w.db.lines[l]
  {
    forall l | l in w.db.lines ensures Stored(w, l) {}
  }

  lemma CreationTxn(w: World, e: Event, m: NoteId)
    requires Sound(w) && (e.CreateNote? || e.ImportNote?) && Enabled(w, e) && m in w.txns
    ensures TxnListed(Step(w, e).db, m, w.txns[m])
  {
    CreationListed(w, e);
    assert TxnListed(w.db, m, w.txns[m]);
    forall l | l in w.txns[m].lines ensures Stored(w, l) {}
    if m == e.note {
      assert w.txns[m].order.None?;
    } else {
      TxnFrame(w.db, Step(w, e).db, m, w.txns[m]);
    }
  }

  lemma CreationKeeps(w: World, e: Event)
    requires Sound(w) && (e.CreateNote? || e.ImportNote?) && Enabled(w, e)
    ensures Sound(Step(w, e))
  {
    var w' := Step(w, e);
    CreationListed(w, e);
    forall m | m in w'.txns ensures TxnListed(w'.db, m, w'.txns[m]) {
      CreationTxn(w, e, m);
    }
    forall m, k | m in w'.txns && k in w'.txns && m != k ensures Apart(w'.db, w'.txns[m], w'.txns[k]) {
      assert Apart(w.db, w.txns[m], w.txns[k]);
    }
  }

  lemma DeleteKeeps(w: World, e: Event)
    requires Sound(w) && e.GcDelete? && Enabled(w, e)
    ensures Sound(Step(w, e))
  {
    var w' := Step(w, e);
    forall m | m in w'.txns ensures TxnListed(w'.db, m, w'.txns[m]) {
      assert TxnListed(w.db, m, w.txns[m]);
      TxnFrame(w.db, w'.db, m, w.txns[m]);
    }
    forall m, k | m in w'.txns && k in w'.txns && m != k ensures Apart(w'.db, w'.txns[m], w'.txns[k]) {
      assert Apart(w.db, w.txns[m], w.txns[k]);
    }
  }

  /** A compaction leaves every line listed exactly when it is safe. */
  lemma CompactListedIff(w: World, e: Event)
    requires Listed(w.db) && e.GcCompact? && Enabled(w, e)
    ensures Listed(Step(w, e).db) <==> Safe(w, e)
  {
    var w', n := Step(w, e), e.job.note;
    if n in w.db.orders {
      WithoutMembers(w.db.orders[n].ids, e.job.ids);
      if !Safe(w, e) {
        var l :| l in w.db.lines && w.db.lines[l].note == n && l in e.job.ids;
        assert l in w'.db.lines && l !in w'.db.orders[n].ids;
      }
    }
  }

  lemma CompactKeeps(w: World, e: Event)
    requires Sound(w) && e.GcCompact? && Enabled(w, e) && Safe(w, e)
    ensures Sound(Step(w, e))
  {
    var w' := Step(w, e);
    CompactListedIff(w, e);
    forall m | m in w'.txns ensures TxnListed(w'.db, m, w'.txns[m]) {
      assert TxnListed(w.db, m, w.txns[m]);
      TxnFrame(w.db, w'.db, m, w.txns[m]);
    }
    forall m, k | m in w'.txns && k in w'.txns && m != k ensures Apart(w'.db, w'.txns[m], w'.txns[k]) {
      assert Apart(w.db, w.txns[m], w.txns[k]);
    }
  }

  lemma BeginKeeps(w: World, e: Event)
    requires Sound(w) && (e.Begin? || e.Abort?) && Enabled(w, e)
    ensures Sound(Step(w, e))
  {
  }

  lemma StepKeeps(w: World, e: Event)
    requires Sound(w) && Enabled(w, e) && Safe(w, e)
    ensures Sound(Step(w, e))
  {
    match e
    case CreateNote(_, _, _) => CreationKeeps(w, e);
    case ImportNote(_, _, _, _, _) => CreationKeeps(w, e);
    case Begin(_) => BeginKeeps(w, e);
    case Read(_, _, _) => ReadKeeps(w, e);
    case Write(_) => WriteKeeps(w, e);
    case Commit(_) => CommitKeeps(w, e);
    case Abort(_) => BeginKeeps(w, e);
    case GcDelete(_, _) => DeleteKeeps(w, e);
    case GcCompact(_) => CompactKeeps(w, e);
  }

  // ---- The exact condition ----

  lemma {:induction false} ListedIffSafe(w: World, es: seq<Event>)
    requires Sound(w) && Legal(w, es)
    ensures ListedThroughout(w, es) <==> SafeRun(w, es)
    decreases |es|
  {
    if es != [] {
      var w' := Step(w, es[0]);
      if Safe(w, es[0]) {
        StepKeeps(w, es[0]);
        ListedIffSafe(w', es[1..]);
      } else {
        CompactListedIff(w, es[0]);
      }
    }
  }

  /** Over any run of op transactions, imports and both GC phases, with line ids used again or not,
      every stored line is in its note's order at all states exactly when no executed compaction
      takes out an id its note has stored again. */
  lemma {:induction false} EveryLineListedIffSafe(es: seq<Event>)
    requires Legal(Empty, es)
    ensures ListedThroughout(Empty, es) <==> SafeRun(Empty, es)
  {
    ListedIffSafe(Empty, es);
  }

  lemma FreshIsSafe(w: World, e: Event)
    requires Inv(w) && Enabled(w, e)
    ensures Safe(w, e)
  {
  }

  /** Ids that are never used again make every compaction safe. */
  lemma {:induction false} FreshRunsAreSafe(w: World, es: seq<Event>)
    requires Inv(w) && Legal(w, es) && FreshRun(w, es)
    ensures SafeRun(w, es)
    decreases |es|
  {
    if es != [] {
      FreshIsSafe(w, es[0]);
      LineEngine.StepKeeps(w, es[0]);
      FreshRunsAreSafe(Step(w, es[0]), es[1..]);
    }
  }
}
