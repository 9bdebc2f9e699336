/**
 Line editing as a system of interleaved steps. An op batch runs in a transaction
 that holds the note's advisory lock, so a note has at most one; each op's reads and
 its writes are separate steps. Garbage collection takes no advisory lock: it deletes
 tombstone rows in one statement and compacts each order later, in a transaction of
 its own, with only row locks between it and the ops.
 */
module LineEngine {
  import opened Prelude
  import opened VersionVectors
  import opened Text
  import opened LineOps

  /** An op that has read but not yet written. */
  datatype Pending = Pending(op: LineOp, device: Writer, seen: Reads)

  /** Rows and order written so far, invisible to others until commit; `log` keeps
      the ops this transaction applied. */
  datatype Txn = Txn(lines: map<LineId, Line>, order: Option<Order>, pending: Option<Pending>, log: seq<LineOp>)

  /** A note's share of one GC delete, waiting to be taken out of its order. */
  datatype Compaction = Compaction(note: NoteId, ids: set<LineId>)

  /** The committed tables, open transactions and queued compactions, with two
      histories: the ids GC has deleted and the ops that were applied and committed. */
  datatype World = World(db: Db, txns: map<NoteId, Txn>, queued: set<Compaction>,
                         collected: set<LineId>, done: set<(NoteId, LineOp)>)

  datatype Event =
    | CreateNote(note: NoteId, owner: Writer, now: Time)
    | ImportNote(note: NoteId, ids: seq<LineId>, body: Bytes, writer: Writer, now: Time)
    | Begin(note: NoteId)
    | Read(note: NoteId, device: Writer, op: LineOp)
    | Write(note: NoteId)
    | Commit(note: NoteId)
    | Abort(note: NoteId)
    | GcDelete(dead: set<LineId>, cutoff: Time)
    | GcCompact(job: Compaction)

  /** What a transaction sees: the committed tables under its own writes. */
  function View(db: Db, note: NoteId, t: Txn): Db {
    Db(db.lines + t.lines, if t.order.Some? then db.orders[note := t.order.value] else db.orders)
  }

  predicate Stored(w: World, id: LineId) {
    id in w.db.lines || exists n | n in w.txns :: id in w.txns[n].lines
  }

  /** A step is enabled when neither a lock nor a key constraint holds it up. */
  predicate Enabled(w: World, e: Event) {
    match e
    case CreateNote(n, _, _) => n !in w.db.orders
    case ImportNote(n, ids, body, _, _) =>
      n !in w.db.orders && |ids| == |Split(body)| && NoDup(ids) && forall id | id in ids :: !Stored(w, id)
    case Begin(n) => n !in w.txns
    case Read(n, _, _) => n in w.txns && w.txns[n].pending.None?
    case Write(n) => n in w.txns && w.txns[n].pending.Some? && CanWrite(w, n, w.txns[n].pending.value)
    case Commit(n) => n in w.txns && w.txns[n].pending.None?
    case Abort(n) => n in w.txns
    case GcDelete(ids, cutoff) =>
      forall id | id in ids ::
        && id in w.db.lines && w.db.lines[id].deletedAt.Some? && w.db.lines[id].deletedAt.value < cutoff
        && forall n | n in w.txns :: id !in w.txns[n].lines
    case GcCompact(job) => job in w.queued && (job.note in w.txns ==> w.txns[job.note].order.None?)
  }

  /** The op did not fail, and an Insert meets no other row of that id. */
  predicate CanWrite(w: World, n: NoteId, p: Pending) {
    var o := Decide(p.seen, n, p.device, p.op);
    !o.Failed? && (o.Applied? && p.op.Insert? ==> !Stored(w, p.op.lineId))
  }

  /** The op's writes, staged in the transaction. */
  function Stage(view: Db, n: NoteId, t: Txn, p: Pending): Txn {
    var op := p.op;
    if !Decide(p.seen, n, p.device, op).Applied? then t.(pending := None)
    else
      var t' := t.(pending := None, log := t.log + [op]);
      match op
      case Insert(_, id, _, _, _, _) =>
        t'.(lines := t.lines[id := NewLine(n, op)], order := Some(NewOrder(p.seen.order.value, op)))
      case Move(_, _, _, _, _) =>
        t'.(order := Some(NewOrder(p.seen.order.value, op)))
      case _ =>
        if op.lineId in view.lines then
          t'.(lines := t.lines[op.lineId := EditedLine(view.lines[op.lineId], p.seen.line.value.vv, op)])
        else t'
  }

  function ImportedLines(n: NoteId, ids: seq<LineId>, lines: seq<Bytes>, writer: Writer, now: Time): map<LineId, Line>
    requires |ids| == |lines|
  {
    map id | id in ids :: Line(n, lines[IndexOf(ids, id).value], now, None, map[writer := 1], writer)
  }

  function CompactionsOf(lines: map<LineId, Line>, ids: set<LineId>): set<Compaction>
    requires ids <= lines.Keys
  {
    set id | id in ids ::
      Compaction(lines[id].note, set j | j in ids && lines[j].note == lines[id].note)
  }

  function Compacted(order: Order, ids: set<LineId>): Order {
    order.(ids := Without(order.ids, ids))
  }

  function Step(w: World, e: Event): World
    requires Enabled(w, e)
  {
    match e
    case CreateNote(n, owner, now) =>
      w.(db := w.db.(orders := w.db.orders[n := Order([], now, map[], owner)]))
    case ImportNote(n, ids, body, writer, now) =>
      w.(db := Db(w.db.lines + ImportedLines(n, ids, Split(body), writer, now),
                  w.db.orders[n := Order(ids, now, map[writer := |ids|], writer)]))
    case Begin(n) =>
      w.(txns := w.txns[n := Txn(map[], None, None, [])])
    case Read(n, device, op) =>
      var t := w.txns[n];
      w.(txns := w.txns[n := t.(pending := Some(Pending(op, device, ReadsOf(View(w.db, n, t), n, op))))])
    case Write(n) =>
      var t := w.txns[n];
      w.(txns := w.txns[n := Stage(View(w.db, n, t), n, t, t.pending.value)])
    case Commit(n) =>
      var t := w.txns[n];
      w.(db := View(w.db, n, t), txns := w.txns - {n}, done := w.done + set op | op in t.log :: (n, op))
    case Abort(n) =>
      w.(txns := w.txns - {n})
    case GcDelete(ids, _) =>
      w.(db := w.db.(lines := w.db.lines - ids), collected := w.collected + ids,
         queued := w.queued + CompactionsOf(w.db.lines, ids))
    case GcCompact(job) =>
      w.(queued := w.queued - {job},
         db := if job.note in w.db.orders
               then w.db.(orders := w.db.orders[job.note := Compacted(w.db.orders[job.note], job.ids)])
               else w.db)
  }

  lemma OneMoreRow(lines: map<LineId, Line>, own: map<LineId, Line>, id: LineId, row: Line)
    ensures lines + own[id := row] == (lines + own)[id := row]
  {
  }

  lemma StagedInsert(db: Db, n: NoteId, t: Txn, p: Pending)
    requires p.op.Insert? && Decide(p.seen, n, p.device, p.op).Applied?
    ensures View(db, n, Stage(View(db, n, t), n, t, p)) == Effect(View(db, n, t), n, p.device, p.op, p.seen)
  {
    OneMoreRow(db.lines, t.lines, p.op.lineId, NewLine(n, p.op));
  }

  lemma StagedEdit(db: Db, n: NoteId, t: Txn, p: Pending)
    requires (p.op.Update? || p.op.Delete?) && Decide(p.seen, n, p.device, p.op).Applied?
    ensures View(db, n, Stage(View(db, n, t), n, t, p)) == Effect(View(db, n, t), n, p.device, p.op, p.seen)
  {
    var v := View(db, n, t);
    if p.op.lineId in v.lines {
      OneMoreRow(db.lines, t.lines, p.op.lineId, EditedLine(v.lines[p.op.lineId], p.seen.line.value.vv, p.op));
    }
  }

  /** What a staged write does to the transaction's own view is the op's effect. */
  lemma StageIsEffect(db: Db, n: NoteId, t: Txn, p: Pending)
    requires Decide(p.seen, n, p.device, p.op).Applied?
    ensures View(db, n, Stage(View(db, n, t), n, t, p)) == Effect(View(db, n, t), n, p.device, p.op, p.seen)
  {
    if p.op.Insert? {
      StagedInsert(db, n, t, p);
    } else if !p.op.Move? {
      StagedEdit(db, n, t, p);
    }
  }

  // ---- Runs ----

  const Empty := World(Db(map[], map[]), map[], {}, {}, {})

  predicate Legal(w: World, es: seq<Event>)
    decreases |es|
  {
    es == [] || (Enabled(w, es[0]) && Legal(Step(w, es[0]), es[1..]))
  }

  function After(w: World, es: seq<Event>): World
    requires Legal(w, es)
    decreases |es|
  {
    if es == [] then w else After(Step(w, es[0]), es[1..])
  }

  /** No line id comes back once GC has deleted its row. */
  predicate Fresh(w: World, e: Event)
    requires Enabled(w, e)
  {
    match e
    case ImportNote(_, ids, _, _, _) => forall id | id in ids :: id !in w.collected
    case Write(n) =>
      var p := w.txns[n].pending.value;
      p.op.Insert? && Decide(p.seen, n, p.device, p.op).Applied? ==> p.op.lineId !in w.collected
    case _ => true
  }

  predicate FreshRun(w: World, es: seq<Event>)
    requires Legal(w, es)
    decreases |es|
  {
    es == [] || (Fresh(w, es[0]) && FreshRun(Step(w, es[0]), es[1..]))
  }

  /** Every Move names each line once. */
  predicate DistinctMoves(es: seq<Event>) {
    forall i | 0 <= i < |es| :: es[i].Read? && es[i].op.Move? ==> NoDup(es[i].op.lineIds)
  }

  // ---- Every stored line is in its note's order ----

  predicate Covers(lines: map<LineId, Line>, n: NoteId, ids: seq<LineId>) {
    forall l | l in lines && lines[l].note == n :: l in ids
  }

  /** An id in the order is a stored line of the note or one GC has deleted. */
  predicate Known(lines: map<LineId, Line>, collected: set<LineId>, n: NoteId, ids: seq<LineId>) {
    forall id | id in ids :: id in collected || (id in lines && lines[id].note == n)
  }

  predicate NoteOk(db: Db, collected: set<LineId>, n: NoteId) {
    && (n in db.orders ==> Covers(db.lines, n, db.orders[n].ids) && Known(db.lines, collected, n, db.orders[n].ids))
    && (n !in db.orders ==> Covers(db.lines, n, []))
  }

  /** An order that was read may miss compactions, never a stored line. */
  predicate PendingOk(view: Db, collected: set<LineId>, n: NoteId, p: Pending) {
    && (p.seen.order.Some? ==>
          && n in view.orders && view.orders[n].vv == p.seen.order.value.vv
          && Covers(view.lines, n, p.seen.order.value.ids)
          && Known(view.lines, collected, n, p.seen.order.value.ids))
    && (!p.op.Move? && p.seen.line.Some? && p.seen.line.value.note == n ==>
          if p.op.lineId in view.lines then view.lines[p.op.lineId] == p.seen.line.value
          else p.op.lineId in collected)
  }

  predicate TxnOk(db: Db, collected: set<LineId>, n: NoteId, t: Txn) {
    && NoteOk(View(db, n, t), collected, n)
    && t.lines.Keys !! collected
    && (forall l | l in t.lines :: t.lines[l].note == n && (l in db.lines ==> db.lines[l].note == n))
    && (t.order.Some? ==> n in db.orders)
    && (t.order.None? ==> t.lines.Keys <= db.lines.Keys)
    && (t.pending.Some? ==> PendingOk(View(db, n, t), collected, n, t.pending.value))
  }

  ghost predicate Inv(w: World) {
    && (forall n: NoteId :: NoteOk(w.db, w.collected, n))
    && w.db.lines.Keys !! w.collected
    && (forall c | c in w.queued :: c.ids <= w.collected)
    && (forall n | n in w.txns :: TxnOk(w.db, w.collected, n, w.txns[n]))
    && (forall m, n | m in w.txns && n in w.txns && m != n :: w.txns[m].lines.Keys !! w.txns[n].lines.Keys)
  }

  lemma ReadTxnOk(db: Db, collected: set<LineId>, n: NoteId, t: Txn, device: Writer, op: LineOp)
    requires TxnOk(db, collected, n, t)
    ensures TxnOk(db, collected, n, t.(pending := Some(Pending(op, device, ReadsOf(View(db, n, t), n, op)))))
  {
    var t' := t.(pending := Some(Pending(op, device, ReadsOf(View(db, n, t), n, op))));
    assert View(db, n, t') == View(db, n, t);
  }

  lemma ReadKeeps(w: World, e: Event)
    requires Inv(w) && e.Read? && Enabled(w, e)
    ensures Inv(Step(w, e))
  {
    assert TxnOk(w.db, w.collected, e.note, w.txns[e.note]);
    ReadTxnOk(w.db, w.collected, e.note, w.txns[e.note], e.device, e.op);
  }

  lemma BeginKeeps(w: World, e: Event)
    requires Inv(w) && e.Begin? && Enabled(w, e)
    ensures Inv(Step(w, e))
  {
    var t := Step(w, e).txns[e.note];
    assert View(w.db, e.note, t) == w.db;
    assert TxnOk(w.db, w.collected, e.note, t);
  }

  lemma AbortKeeps(w: World, e: Event)
    requires Inv(w) && e.Abort? && Enabled(w, e)
    ensures Inv(Step(w, e))
  {
  }

  /** The rows of a transaction's own note survive a change that touches other notes. */
  lemma CreateKeeps(w: World, e: Event)
    requires Inv(w) && e.CreateNote? && Enabled(w, e)
    ensures Inv(Step(w, e))
  {
    var w' := Step(w, e);
    forall n: NoteId ensures NoteOk(w'.db, w'.collected, n) {
      assert NoteOk(w.db, w.collected, n);
    }
    forall n | n in w'.txns ensures TxnOk(w'.db, w'.collected, n, w'.txns[n]) {
      assert TxnOk(w.db, w.collected, n, w.txns[n]);
    }
  }

  /** Note `n` has the same order and rows in both databases. */
  predicate SameNote(db: Db, db': Db, n: NoteId) {
    && (n in db.orders <==> n in db'.orders) && (n in db.orders ==> db.orders[n] == db'.orders[n])
    && (forall l | l in db.lines && db.lines[l].note == n :: l in db'.lines && db'.lines[l] == db.lines[l])
    && (forall l | l in db'.lines && db'.lines[l].note == n :: l in db.lines && db.lines[l] == db'.lines[l])
  }

  /** A change to other notes leaves a transaction's view and guarantees in place. */
  lemma TxnFrame(db: Db, db': Db, collected: set<LineId>, n: NoteId, t: Txn)
    requires TxnOk(db, collected, n, t) && SameNote(db, db', n) && db'.lines.Keys !! collected
    requires forall l | l in t.lines && l in db'.lines :: l in db.lines
    ensures TxnOk(db', collected, n, t)
    ensures SameNote(View(db, n, t), View(db', n, t), n)
  {
    var v, v' := View(db, n, t), View(db', n, t);
    assert SameNote(v, v', n);
    assert NoteOk(v', collected, n);
  }

  /** A note without an order has no rows, and an open transaction on it wrote nothing. */
  lemma NewRowsHere(db: Db, collected: set<LineId>, n: NoteId, t: Txn, rows: map<LineId, Line>, o: Order)
    requires TxnOk(db, collected, n, t) && n !in db.orders && rows.Keys !! collected
    requires forall l :: l in o.ids <==> l in rows
    requires forall l | l in rows :: rows[l].note == n
    ensures TxnOk(Db(db.lines + rows, db.orders[n := o]), collected, n, t)
  {
    var v := View(db, n, t);
    assert forall l | l in t.lines :: l in v.lines && v.lines[l].note == n;
    assert t.lines == map[];
    assert View(Db(db.lines + rows, db.orders[n := o]), n, t) == Db(db.lines + rows, db.orders[n := o]);
  }

  lemma ImportedNoteOk(w: World, e: Event, n: NoteId)
    requires Inv(w) && e.ImportNote? && Enabled(w, e) && Fresh(w, e)
    ensures NoteOk(Step(w, e).db, w.collected, n)
  {
    assert NoteOk(w.db, w.collected, n);
    assert forall id | id in e.ids :: !Stored(w, id);
  }

  lemma ImportKeeps(w: World, e: Event)
    requires Inv(w) && e.ImportNote? && Enabled(w, e) && Fresh(w, e)
    ensures Inv(Step(w, e))
  {
    var w' := Step(w, e);
    var rows := ImportedLines(e.note, e.ids, Split(e.body), e.writer, e.now);
    assert forall id | id in e.ids :: !Stored(w, id);
    forall n: NoteId ensures NoteOk(w'.db, w'.collected, n) {
      ImportedNoteOk(w, e, n);
    }
    forall n | n in w'.txns ensures TxnOk(w'.db, w'.collected, n, w'.txns[n]) {
      assert forall l | l in w.txns[n].lines :: Stored(w, l);
      if n == e.note {
        NewRowsHere(w.db, w.collected, n, w.txns[n], rows, w'.db.orders[e.note]);
      } else {
        TxnFrame(w.db, w'.db, w.collected, n, w.txns[n]);
      }
    }
  }

  lemma InsertOk(v: Db, collected: set<LineId>, n: NoteId, o: Order, op: LineOp)
    requires Covers(v.lines, n, o.ids) && Known(v.lines, collected, n, o.ids)
    requires op.Insert? && PositionAfter(o.ids, op.after).Some? && op.lineId !in v.lines
    ensures NoteOk(Db(v.lines[op.lineId := NewLine(n, op)], v.orders[n := NewOrder(o, op)]), collected, n)
  {
    var _ := InsertPlacesOneId(o, op);
  }

  lemma MoveOk(v: Db, collected: set<LineId>, n: NoteId, o: Order, op: LineOp)
    requires Covers(v.lines, n, o.ids) && Known(v.lines, collected, n, o.ids)
    requires op.Move? && PositionAfter(Without(o.ids, MovedSet(op)), op.after).Some?
    requires forall id | id in op.lineIds :: id in o.ids
    ensures NoteOk(v.(orders := v.orders[n := NewOrder(o, op)]), collected, n)
  {
    MoveKeepsIds(o, op);
  }

  /** The writes of an applied op, seen through the transaction, leave its note in order. */
  lemma EffectOk(v: Db, collected: set<LineId>, n: NoteId, p: Pending)
    requires NoteOk(v, collected, n) && PendingOk(v, collected, n, p)
    requires Decide(p.seen, n, p.device, p.op).Applied?
    requires p.op.Insert? ==> p.op.lineId !in v.lines
    ensures NoteOk(Effect(v, n, p.device, p.op, p.seen), collected, n)
  {
    if p.op.Insert? {
      InsertOk(v, collected, n, p.seen.order.value, p.op);
    } else if p.op.Move? {
      MoveOk(v, collected, n, p.seen.order.value, p.op);
    }
  }

  /** Staging touches one row at most. */
  lemma StagedOne(view: Db, n: NoteId, t: Txn, p: Pending)
    ensures var t' := Stage(view, n, t, p);
      t'.lines == t.lines
      || (!p.op.Move? && t'.lines == t.lines[p.op.lineId := t'.lines[p.op.lineId]]
          && if p.op.Insert? then
               t'.order.Some? && t'.lines[p.op.lineId].note == n && Decide(p.seen, n, p.device, p.op).Applied?
             else
               p.op.lineId in view.lines && t'.lines[p.op.lineId].note == view.lines[p.op.lineId].note
               && p.seen.line.Some? && p.seen.line.value.note == n)
  {
  }

  /** And that row is new or the note's own. */
  lemma StagedRows(w: World, n: NoteId)
    requires Inv(w) && n in w.txns && w.txns[n].pending.Some?
    requires CanWrite(w, n, w.txns[n].pending.value)
    ensures var t, p := w.txns[n], w.txns[n].pending.value;
      var t' := Stage(View(w.db, n, t), n, t, p);
      forall l | l in t'.lines :: t'.lines[l].note == n && (l in t.lines || l !in w.db.lines || w.db.lines[l].note == n)
        && (l in t.lines || l in w.db.lines || (p.op.Insert? && l == p.op.lineId && t'.order.Some? && !Stored(w, l)))
  {
    var t, p := w.txns[n], w.txns[n].pending.value;
    assert TxnOk(w.db, w.collected, n, t);
    StagedOne(View(w.db, n, t), n, t, p);
    if p.op.Insert? && Decide(p.seen, n, p.device, p.op).Applied? {
      assert !Stored(w, p.op.lineId);
    } else if p.op.Update? || p.op.Delete? {
      assert PendingOk(View(w.db, n, t), w.collected, n, p);
    }
  }

  lemma WriteTxnOk(w: World, n: NoteId)
    requires Inv(w) && Enabled(w, Write(n)) && Fresh(w, Write(n))
    ensures var t := w.txns[n];
      TxnOk(w.db, w.collected, n, Stage(View(w.db, n, t), n, t, t.pending.value))
  {
    var t := w.txns[n];
    var p := t.pending.value;
    var v := View(w.db, n, t);
    var t' := Stage(v, n, t, p);
    assert TxnOk(w.db, w.collected, n, t);
    StagedRows(w, n);
    if Decide(p.seen, n, p.device, p.op).Applied? {
      assert p.op.Insert? ==> !Stored(w, p.op.lineId);
      EffectOk(v, w.collected, n, p);
      StageIsEffect(w.db, n, t, p);
    } else {
      assert View(w.db, n, t') == v;
    }
    assert NoteOk(View(w.db, n, t'), w.collected, n);
    assert t'.order.Some? ==> n in w.db.orders;
  }

  lemma WriteKeeps(w: World, e: Event)
    requires Inv(w) && e.Write? && Enabled(w, e) && Fresh(w, e)
    ensures Inv(Step(w, e))
  {
    var n := e.note;
    var t := w.txns[n];
    var t' := Stage(View(w.db, n, t), n, t, t.pending.value);
    WriteTxnOk(w, n);
    StagedRows(w, n);
    forall m | m in w.txns && m != n ensures w.txns[m].lines.Keys !! t'.lines.Keys {
      assert TxnOk(w.db, w.collected, m, w.txns[m]);
      assert w.txns[m].lines.Keys !! t.lines.Keys;
    }
    assert Step(w, e).txns == w.txns[n := t'];
  }

  /** Committing one note leaves every other note's rows as they were. */
  lemma CommitElsewhere(w: World, n: NoteId, m: NoteId)
    requires Inv(w) && n in w.txns && m in w.txns && m != n
    ensures TxnOk(View(w.db, n, w.txns[n]), w.collected, m, w.txns[m])
    ensures SameNote(View(w.db, m, w.txns[m]), View(View(w.db, n, w.txns[n]), m, w.txns[m]), m)
  {
    var t, u := w.txns[n], w.txns[m];
    assert TxnOk(w.db, w.collected, n, t) && TxnOk(w.db, w.collected, m, u);
    assert t.lines.Keys !! u.lines.Keys;
    TxnFrame(w.db, View(w.db, n, t), w.collected, m, u);
  }

  lemma CommitKeeps(w: World, e: Event)
    requires Inv(w) && e.Commit? && Enabled(w, e)
    ensures Inv(Step(w, e))
  {
    var w' := Step(w, e);
    var t := w.txns[e.note];
    assert TxnOk(w.db, w.collected, e.note, t);
    forall n: NoteId ensures NoteOk(w'.db, w'.collected, n) {
      assert NoteOk(w.db, w.collected, n);
    }
    forall n | n in w'.txns ensures TxnOk(w'.db, w'.collected, n, w'.txns[n]) {
      CommitElsewhere(w, e.note, n);
    }
  }

  lemma GcDeleteKeeps(w: World, e: Event)
    requires Inv(w) && e.GcDelete? && Enabled(w, e)
    ensures Inv(Step(w, e))
  {
    var w' := Step(w, e);
    forall n: NoteId ensures NoteOk(w'.db, w'.collected, n) {
      assert NoteOk(w.db, w.collected, n);
    }
    forall n | n in w'.txns ensures TxnOk(w'.db, w'.collected, n, w'.txns[n]) {
      var t := w.txns[n];
      assert TxnOk(w.db, w.collected, n, t);
      var v, v' := View(w.db, n, t), View(w'.db, n, t);
      assert forall l :: l in v'.lines <==> l in v.lines && l !in e.dead;
      assert forall l | l in v'.lines :: v'.lines[l] == v.lines[l];
    }
  }

  /** Compacting a note's order hides no row, and a transaction that has not written the order
      still sees a superset in what it read. */
  lemma CompactTxn(db: Db, collected: set<LineId>, n: NoteId, t: Txn, ids: set<LineId>)
    requires TxnOk(db, collected, n, t) && n in db.orders && t.order.None? && ids <= collected
    requires db.lines.Keys !! collected
    ensures TxnOk(db.(orders := db.orders[n := Compacted(db.orders[n], ids)]), collected, n, t)
  {
    WithoutMembers(db.orders[n].ids, ids);
    var db' := db.(orders := db.orders[n := Compacted(db.orders[n], ids)]);
    assert NoteOk(View(db', n, t), collected, n);
  }

  lemma GcCompactKeeps(w: World, e: Event)
    requires Inv(w) && e.GcCompact? && Enabled(w, e)
    ensures Inv(Step(w, e))
  {
    var w' := Step(w, e);
    if e.job.note in w.db.orders {
      WithoutMembers(w.db.orders[e.job.note].ids, e.job.ids);
      forall n: NoteId ensures NoteOk(w'.db, w'.collected, n) {
        assert NoteOk(w.db, w.collected, n);
      }
      forall n | n in w'.txns ensures TxnOk(w'.db, w'.collected, n, w'.txns[n]) {
        assert TxnOk(w.db, w.collected, n, w.txns[n]);
        if n == e.job.note {
          CompactTxn(w.db, w.collected, n, w.txns[n], e.job.ids);
        } else {
          TxnFrame(w.db, w'.db, w.collected, n, w.txns[n]);
        }
      }
    }
  }

  lemma StepKeeps(w: World, e: Event)
    requires Inv(w) && Enabled(w, e) && Fresh(w, e)
    ensures Inv(Step(w, e))
  {
    match e
    case CreateNote(_, _, _) => CreateKeeps(w, e);
    case ImportNote(_, _, _, _, _) => ImportKeeps(w, e);
    case Begin(_) => BeginKeeps(w, e);
    case Read(_, _, _) => ReadKeeps(w, e);
    case Write(_) => WriteKeeps(w, e);
    case Commit(_) => CommitKeeps(w, e);
    case Abort(_) => AbortKeeps(w, e);
    case GcDelete(_, _) => GcDeleteKeeps(w, e);
    case GcCompact(_) => GcCompactKeeps(w, e);
  }

  lemma {:induction false} RunKeeps(w: World, es: seq<Event>)
    requires Inv(w) && Legal(w, es) && FreshRun(w, es)
    ensures Inv(After(w, es))
    decreases |es|
  {
    if es != [] {
      StepKeeps(w, es[0]);
      RunKeeps(Step(w, es[0]), es[1..]);
    }
  }
}
