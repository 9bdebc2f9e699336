/**
 What a line op does, told field by field: when it is applied, ignored or fails, and everything
 the tables hold afterwards.
 */
module LineLaws {
  import opened Prelude
  import opened VersionVectors
  import opened Text
  import opened LineOps
  import opened Materialize
  import opened LineEngine

  // ---- When an op is applied ----

  /** The op raises its writer's component over the stored version and either carries everything the
      version does or bears the later (timestamp, writer). */
  ghost predicate Supersedes(op: LineOp, vv: VV, ts: Time, writer: Writer) {
    && At(op.vv, op.lastWriter) > At(vv, op.lastWriter)
    && ((forall w: Writer :: At(vv, w) <= At(op.vv, w))
        || op.updatedAt > ts || (op.updatedAt == ts && op.lastWriter > writer))
  }

  predicate GoodText(text: Bytes) {
    |text| <= 4096 && forall i | 0 <= i < |text| :: text[i] != 10
  }

  lemma TextIsGood(text: Bytes)
    ensures GoodText(text) <==> BadText(text).None?
  {
  }

  lemma KeptUnlessSuperseded(op: LineOp, vv: VV, ts: Time, writer: Writer)
    ensures Supersedes(op, vv, ts, writer)
            <==> AdvancesWriter(vv, op.vv, op.lastWriter)
                 && Resolve(vv, ts, writer, op.vv, op.updatedAt, op.lastWriter).Incoming?
  {
    ResolveLaw(vv, ts, writer, op.vv, op.updatedAt, op.lastWriter);
  }

  predicate AnchorListed(order: Order, after: Option<LineId>) {
    after.Some? ==> after.value in order.ids
  }

  /** An Insert that names its device and carries a good text for an id not stored. */
  predicate FitInsert(db: Db, device: Writer, op: LineOp)
    requires op.Insert?
  {
    op.lastWriter == device && GoodText(op.content) && op.lineId !in db.lines
  }

  predicate RoomAndAnchor(db: Db, note: NoteId, op: LineOp)
    requires op.Insert? && note in db.orders
  {
    && |set l | l in db.lines && db.lines[l].note == note && db.lines[l].deletedAt.None?| < 65536
    && AnchorListed(db.orders[note], op.after)
  }

  lemma InsertOutcome(db: Db, note: NoteId, device: Writer, op: LineOp)
    requires op.Insert?
    ensures var o := ApplyOp(db, note, device, op).1;
      && (o.Failed? <==> FitInsert(db, device, op) && note !in db.orders)
      && (o.Applied? <==>
            && FitInsert(db, device, op) && note in db.orders && RoomAndAnchor(db, note, op)
            && Supersedes(op, db.orders[note].vv, db.orders[note].updatedAt, db.orders[note].lastWriter))
      && (o.Ignored? <==>
            && FitInsert(db, device, op) && note in db.orders && RoomAndAnchor(db, note, op)
            && !Supersedes(op, db.orders[note].vv, db.orders[note].updatedAt, db.orders[note].lastWriter))
  {
    TextIsGood(op.content);
    if note in db.orders {
      KeptUnlessSuperseded(op, db.orders[note].vv, db.orders[note].updatedAt, db.orders[note].lastWriter);
      LiveCount(db, note);
    }
  }

  predicate FitEdit(db: Db, note: NoteId, device: Writer, op: LineOp)
    requires op.Update? || op.Delete?
  {
    && op.lastWriter == device && (op.Update? ==> GoodText(op.content))
    && op.lineId in db.lines && db.lines[op.lineId].note == note
  }

  lemma EditOutcome(db: Db, note: NoteId, device: Writer, op: LineOp)
    requires op.Update? || op.Delete?
    ensures var o := ApplyOp(db, note, device, op).1;
      && !o.Failed?
      && (o.Applied? <==>
            && FitEdit(db, note, device, op)
            && var row := db.lines[op.lineId]; Supersedes(op, row.vv, row.updatedAt, row.lastWriter))
      && (o.Ignored? <==>
            && FitEdit(db, note, device, op)
            && var row := db.lines[op.lineId]; !Supersedes(op, row.vv, row.updatedAt, row.lastWriter))
  {
    if op.Update? {
      TextIsGood(op.content);
    }
    if op.lineId in db.lines {
      var row := db.lines[op.lineId];
      KeptUnlessSuperseded(op, row.vv, row.updatedAt, row.lastWriter);
    }
  }

  predicate FitMove(db: Db, note: NoteId, device: Writer, op: LineOp)
    requires op.Move? && note in db.orders
  {
    && op.lastWriter == device && op.lineIds != []
    && (forall i | 0 <= i < |op.lineIds| :: op.lineIds[i] in db.orders[note].ids)
    && (op.after.Some? ==> op.after.value !in op.lineIds)
  }

  /** A Move whose anchor is unknown is refused only if it would otherwise have been applied. */
  lemma MoveOutcome(db: Db, note: NoteId, device: Writer, op: LineOp)
    requires op.Move?
    ensures var o := ApplyOp(db, note, device, op).1;
      && (o.Failed? <==> op.lastWriter == device && op.lineIds != [] && note !in db.orders)
      && (o.Applied? <==>
            && note in db.orders && FitMove(db, note, device, op) && AnchorListed(db.orders[note], op.after)
            && Supersedes(op, db.orders[note].vv, db.orders[note].updatedAt, db.orders[note].lastWriter))
      && (o.Ignored? <==>
            && note in db.orders && FitMove(db, note, device, op)
            && !Supersedes(op, db.orders[note].vv, db.orders[note].updatedAt, db.orders[note].lastWriter))
  {
    if note in db.orders {
      var order := db.orders[note];
      KeptUnlessSuperseded(op, order.vv, order.updatedAt, order.lastWriter);
      WithoutMembers(order.ids, MovedSet(op));
      assert (exists id | id in op.lineIds :: id !in order.ids)
             <==> !(forall i | 0 <= i < |op.lineIds| :: op.lineIds[i] in order.ids);
    }
  }

  // ---- Why an op is refused ----

  predicate HasNewline(text: Bytes) {
    exists i :: 0 <= i < |text| && text[i] == 10
  }

  /** The codes that all ops share: a foreign writer first, then the text of an Insert or Update. */
  lemma TextCodes(db: Db, note: NoteId, device: Writer, op: LineOp)
    ensures var o := ApplyOp(db, note, device, op).1;
      && (o == Invalid(BadWriter) <==> op.lastWriter != device)
      && (op.Insert? || op.Update? ==>
            && (o == Invalid(BadContent) <==> op.lastWriter == device && HasNewline(op.content))
            && (o == Invalid(LineTooLong) <==>
                  op.lastWriter == device && !HasNewline(op.content) && |op.content| > 4096))
  {
    if op.Insert? || op.Update? {
      assert HasNewline(op.content) <==> NEWLINE in op.content;
    }
  }

  lemma InsertCodes(db: Db, note: NoteId, device: Writer, op: LineOp)
    requires op.Insert?
    ensures var o := ApplyOp(db, note, device, op).1;
      var live := |set l | l in db.lines && db.lines[l].note == note && db.lines[l].deletedAt.None?|;
      && (o == Invalid(LineExists) <==> op.lastWriter == device && GoodText(op.content) && op.lineId in db.lines)
      && (o == Invalid(TooManyLines) <==> FitInsert(db, device, op) && note in db.orders && live >= 65536)
      && (o == Invalid(BadAfter) <==>
            FitInsert(db, device, op) && note in db.orders && live < 65536 && !AnchorListed(db.orders[note], op.after))
  {
    TextIsGood(op.content);
    LiveCount(db, note);
  }

  lemma LiveCount(db: Db, note: NoteId)
    ensures LiveLines(db.lines, note)
            == set l | l in db.lines && db.lines[l].note == note && db.lines[l].deletedAt.None?
  {
  }

  lemma EditCodes(db: Db, note: NoteId, device: Writer, op: LineOp)
    requires op.Update? || op.Delete?
    ensures ApplyOp(db, note, device, op).1 == Invalid(NotFound) <==>
      && op.lastWriter == device && (op.Update? ==> GoodText(op.content))
      && (op.lineId !in db.lines || db.lines[op.lineId].note != note)
  {
    if op.Update? {
      TextIsGood(op.content);
    }
  }

  lemma MoveCodes(db: Db, note: NoteId, device: Writer, op: LineOp)
    requires op.Move?
    ensures var o := ApplyOp(db, note, device, op).1;
      var listed := note in db.orders && forall i | 0 <= i < |op.lineIds| :: op.lineIds[i] in db.orders[note].ids;
      && (o == Invalid(NotFound) <==> op.lastWriter == device && op.lineIds != [] && note in db.orders && !listed)
      && (o == Invalid(BadMove) <==>
            op.lastWriter == device && (op.lineIds == [] || (listed && op.after.Some? && op.after.value in op.lineIds)))
      && (o == Invalid(BadAfter) <==>
            && note in db.orders && FitMove(db, note, device, op) && !AnchorListed(db.orders[note], op.after)
            && Supersedes(op, db.orders[note].vv, db.orders[note].updatedAt, db.orders[note].lastWriter))
  {
    MoveOutcome(db, note, device, op);
    if note in db.orders {
      var order := db.orders[note];
      KeptUnlessSuperseded(op, order.vv, order.updatedAt, order.lastWriter);
      WithoutMembers(order.ids, MovedSet(op));
      assert (exists id | id in op.lineIds :: id !in order.ids)
             <==> !(forall i | 0 <= i < |op.lineIds| :: op.lineIds[i] in order.ids);
    }
  }

  // ---- What an op leaves behind ----

  /** An op that is not applied changes nothing. */
  lemma RefusedChangesNothing(db: Db, note: NoteId, device: Writer, op: LineOp)
    requires !ApplyOp(db, note, device, op).1.Applied?
    ensures ApplyOp(db, note, device, op).0 == db
  {
  }

  /** The order bears the op's stamp and, component by component, the greater of the two vectors. */
  ghost predicate OrderStamped(was: Order, order: Order, op: LineOp) {
    && order.updatedAt == op.updatedAt && order.lastWriter == op.lastWriter
    && forall w: Writer :: At(order.vv, w) == if At(was.vv, w) < At(op.vv, w) then At(op.vv, w) else At(was.vv, w)
  }

  /** Right after the first occurrence of the anchor, or at the head. */
  predicate AnchorPosition(ids: seq<LineId>, after: Option<LineId>, p: nat) {
    && p <= |ids|
    && if after.None? then p == 0 else p > 0 && ids[p - 1] == after.value && after.value !in ids[..p - 1]
  }

  /** An applied Insert stores one new row with the op's text, live, under the op's version, lists it
      right after its anchor, stamps the order and touches nothing else. */
  lemma InsertEffect(db: Db, note: NoteId, device: Writer, op: LineOp) returns (p: nat)
    requires op.Insert? && ApplyOp(db, note, device, op).1.Applied?
    ensures note in db.orders && AnchorPosition(db.orders[note].ids, op.after, p)
    ensures var db' := ApplyOp(db, note, device, op).0;
      && db'.lines == db.lines[op.lineId := Line(note, op.content, op.updatedAt, None, op.vv, op.lastWriter)]
      && db'.orders.Keys == db.orders.Keys && (forall n | n in db.orders && n != note :: db'.orders[n] == db.orders[n])
      && db'.orders[note].ids == db.orders[note].ids[..p] + [op.lineId] + db.orders[note].ids[p..]
      && OrderStamped(db.orders[note], db'.orders[note], op)
  {
    p := PositionAfter(db.orders[note].ids, op.after).value;
    MergeIsLeastUpperBound(db.orders[note].vv, op.vv, op.vv);
  }

  /** An applied Update or Delete changes its own row only: an Update sets the text and revives the
      line, a Delete keeps the text and buries it, and the versions are merged. */
  lemma EditEffect(db: Db, note: NoteId, device: Writer, op: LineOp)
    requires (op.Update? || op.Delete?) && ApplyOp(db, note, device, op).1.Applied?
    ensures op.lineId in db.lines
    ensures var db', was := ApplyOp(db, note, device, op).0, db.lines[op.lineId];
      && db'.orders == db.orders && db'.lines.Keys == db.lines.Keys
      && (forall l | l in db.lines && l != op.lineId :: db'.lines[l] == db.lines[l])
      && var row := db'.lines[op.lineId];
         && row.note == was.note && row.updatedAt == op.updatedAt && row.lastWriter == op.lastWriter
         && row.content == (if op.Update? then op.content else was.content)
         && row.deletedAt == (if op.Update? then None else Some(op.deletedAt))
         && forall w: Writer :: At(row.vv, w) == if At(was.vv, w) < At(op.vv, w) then At(op.vv, w) else At(was.vv, w)
  {
    MergeIsLeastUpperBound(db.lines[op.lineId].vv, op.vv, op.vv);
  }

  /** An applied Move changes its note's order only, and puts the moved ids as one block right after
      the anchor among the others. */
  lemma MoveEffect(db: Db, note: NoteId, device: Writer, op: LineOp) returns (p: nat)
    requires op.Move? && ApplyOp(db, note, device, op).1.Applied?
    ensures note in db.orders
    ensures var db', rest := ApplyOp(db, note, device, op).0, Without(db.orders[note].ids, MovedSet(op));
      && db'.lines == db.lines
      && db'.orders.Keys == db.orders.Keys && (forall n | n in db.orders && n != note :: db'.orders[n] == db.orders[n])
      && AnchorPosition(rest, op.after, p) && db'.orders[note].ids == rest[..p] + op.lineIds + rest[p..]
      && OrderStamped(db.orders[note], db'.orders[note], op)
  {
    var rest := Without(db.orders[note].ids, MovedSet(op));
    p := PositionAfter(rest, op.after).value;
    MergeIsLeastUpperBound(db.orders[note].vv, op.vv, op.vv);
  }

  // ---- What a read shows ----

  lemma {:induction false} TextsConcat(lines: map<LineId, Line>, n: NoteId, a: seq<LineId>, b: seq<LineId>)
    ensures LiveTexts(lines, n, a + b) == LiveTexts(lines, n, a) + LiveTexts(lines, n, b)
  {
    if a == [] {
      assert a + b == b;
    } else {
      assert (a + b)[1..] == a[1..] + b;
      TextsConcat(lines, n, a[1..], b);
    }
  }

  lemma {:induction false} TextsElsewhere(lines: map<LineId, Line>, n: NoteId, ids: seq<LineId>, id: LineId, row: Line)
    requires id !in ids
    ensures LiveTexts(lines[id := row], n, ids) == LiveTexts(lines, n, ids)
  {
    if ids != [] {
      assert ids[0] != id && id !in ids[1..];
      TextsElsewhere(lines, n, ids[1..], id, row);
    }
  }

  lemma {:induction false} TextsSpliced(lines: map<LineId, Line>, n: NoteId, ids: seq<LineId>, p: nat, id: LineId,
                                        row: Line)
    requires p <= |ids| && id !in ids && row.note == n && row.deletedAt.None?
    ensures LiveTexts(lines[id := row], n, ids[..p] + [id] + ids[p..])
            == LiveTexts(lines, n, ids[..p]) + [row.content] + LiveTexts(lines, n, ids[p..])
    ensures LiveTexts(lines, n, ids) == LiveTexts(lines, n, ids[..p]) + LiveTexts(lines, n, ids[p..])
  {
    var lines' := lines[id := row];
    TextsConcat(lines', n, ids[..p] + [id], ids[p..]);
    TextsConcat(lines', n, ids[..p], [id]);
    assert LiveTexts(lines', n, [id]) == [row.content] + LiveTexts(lines', n, []);
    TextsElsewhere(lines, n, ids[..p], id, row);
    TextsElsewhere(lines, n, ids[p..], id, row);
    TextsConcat(lines, n, ids[..p], ids[p..]);
    assert ids[..p] + ids[p..] == ids;
  }

  /** After an applied Insert of an id not listed before, a read shows the new text in its place among
      the texts it showed before. */
  lemma InsertShows(db: Db, note: NoteId, device: Writer, op: LineOp) returns (p: nat)
    requires op.Insert? && ApplyOp(db, note, device, op).1.Applied? && op.lineId !in db.orders[note].ids
    ensures note in db.orders && AnchorPosition(db.orders[note].ids, op.after, p)
    ensures var db', ids := ApplyOp(db, note, device, op).0, db.orders[note].ids;
      && LiveTexts(db'.lines, note, db'.orders[note].ids)
         == LiveTexts(db.lines, note, ids[..p]) + [op.content] + LiveTexts(db.lines, note, ids[p..])
      && LiveTexts(db.lines, note, ids) == LiveTexts(db.lines, note, ids[..p]) + LiveTexts(db.lines, note, ids[p..])
  {
    p := InsertEffect(db, note, device, op);
    TextsSpliced(db.lines, note, db.orders[note].ids, p, op.lineId, NewLine(note, op));
  }

  /** A read of a note without an order finds nothing. */
  lemma MissingIffNoOrder(db: Db, n: NoteId, cap: nat)
    ensures MaterializeBody(db, n, cap).Missing? <==> n !in db.orders
  {
  }

  // ---- Notes come into being ----

  /** A created note is empty; its order carries no version yet. */
  lemma CreationEffect(w: World, n: NoteId, owner: Writer, now: Time)
    requires Enabled(w, CreateNote(n, owner, now))
    ensures var w' := Step(w, CreateNote(n, owner, now));
      && n !in w.db.orders && w'.db.orders == w.db.orders[n := w'.db.orders[n]] && w'.db.lines == w.db.lines
      && w'.db.orders[n].ids == [] && w'.db.orders[n].updatedAt == now && w'.db.orders[n].lastWriter == owner
      && (forall wr: Writer :: At(w'.db.orders[n].vv, wr) == 0)
      && w'.txns == w.txns && w'.queued == w.queued && w'.collected == w.collected && w'.done == w.done
  {
  }

  /** An imported note lists one live line per piece of the body, each at its writer's first version,
      under an order that counts them. */
  lemma ImportEffect(w: World, e: Event)
    requires e.ImportNote? && Enabled(w, e)
    ensures var db' := Step(w, e).db;
      && db'.orders == w.db.orders[e.note := Order(e.ids, e.now, map[e.writer := |Split(e.body)|], e.writer)]
      && (forall l | l in db'.lines && l !in e.ids :: l in w.db.lines && db'.lines[l] == w.db.lines[l])
      && (forall l | l in w.db.lines :: l in db'.lines)
      && forall i | 0 <= i < |e.ids| ::
           && e.ids[i] in db'.lines
           && db'.lines[e.ids[i]] == Line(e.note, Split(e.body)[i], e.now, None, map[e.writer := 1], e.writer)
  {
    forall i | 0 <= i < |e.ids|
      ensures e.ids[i] in Step(w, e).db.lines
      ensures Step(w, e).db.lines[e.ids[i]] == Line(e.note, Split(e.body)[i], e.now, None, map[e.writer := 1], e.writer)
    {
      IndexOfDistinct(e.ids, i);
    }
  }

  /** An aborted transaction leaves no trace; what it staged was never seen by anyone else. */
  lemma AbortEffect(w: World, n: NoteId)
    requires Enabled(w, Abort(n))
    ensures Step(w, Abort(n)).db == w.db && Step(w, Abort(n)).done == w.done && n !in Step(w, Abort(n)).txns
    ensures forall m | m in w.txns && m != n :: m in Step(w, Abort(n)).txns && Step(w, Abort(n)).txns[m] == w.txns[m]
  {
  }

  /** A commit publishes what the transaction staged and records the ops it applied. */
  lemma CommitEffect(w: World, n: NoteId)
    requires Enabled(w, Commit(n))
    ensures var t, w' := w.txns[n], Step(w, Commit(n));
      && n !in w'.txns
      && (forall l | l in t.lines :: l in w'.db.lines && w'.db.lines[l] == t.lines[l])
      && (forall l | l !in t.lines ::
            (l in w'.db.lines <==> l in w.db.lines) && (l in w.db.lines ==> w'.db.lines[l] == w.db.lines[l]))
      && (t.order.Some? ==> n in w'.db.orders && w'.db.orders[n] == t.order.value)
      && (forall m | m != n || t.order.None? ::
            (m in w'.db.orders <==> m in w.db.orders) && (m in w.db.orders ==> w'.db.orders[m] == w.db.orders[m]))
      && forall op | op in t.log :: (n, op) in w'.done
  {
  }

  // ---- The two phases of a collection ----

  /** The first phase may take only tombstones dated before the cutoff that no open transaction has
      written; it takes just these rows and queues each for its note. */
  lemma GcDeleteLaw(w: World, dead: set<LineId>, cutoff: Time)
    requires Enabled(w, GcDelete(dead, cutoff))
    ensures forall id | id in dead ::
      id in w.db.lines && w.db.lines[id].deletedAt.Some? && w.db.lines[id].deletedAt.value < cutoff
    ensures forall id, n | id in dead && n in w.txns :: id !in w.txns[n].lines
    ensures var w' := Step(w, GcDelete(dead, cutoff));
      && (forall l :: l in w'.db.lines <==> l in w.db.lines && l !in dead)
      && (forall l | l in w'.db.lines :: w'.db.lines[l] == w.db.lines[l])
      && w'.db.orders == w.db.orders && w'.txns == w.txns && w'.done == w.done && w'.collected == w.collected + dead
      && (forall id | id in dead :: exists job | job in w'.queued :: job.note == w.db.lines[id].note && id in job.ids)
      && forall job | job in w'.queued && job !in w.queued ::
           forall id | id in job.ids :: id in dead && w.db.lines[id].note == job.note
  {
    var w' := Step(w, GcDelete(dead, cutoff));
    forall id | id in dead ensures exists job | job in w'.queued :: job.note == w.db.lines[id].note && id in job.ids {
      var same := set j | j in dead && w.db.lines[j].note == w.db.lines[id].note;
      assert Compaction(w.db.lines[id].note, same) in CompactionsOf(w.db.lines, dead);
    }
  }

  /** The second takes the queued ids out of the note's order, and leaves its version and all rows alone. */
  lemma GcCompactLaw(w: World, job: Compaction)
    requires Enabled(w, GcCompact(job))
    ensures var w' := Step(w, GcCompact(job));
      && job in w.queued && w'.queued == w.queued - {job}
      && w'.db.lines == w.db.lines && w'.txns == w.txns && w'.collected == w.collected && w'.done == w.done
      && w'.db.orders.Keys == w.db.orders.Keys
      && (forall n | n in w.db.orders && n != job.note :: w'.db.orders[n] == w.db.orders[n])
      && (job.note in w.db.orders ==>
            var was, now := w.db.orders[job.note], w'.db.orders[job.note];
            && now.vv == was.vv && now.updatedAt == was.updatedAt && now.lastWriter == was.lastWriter
            && forall id :: id in now.ids <==> id in was.ids && id !in job.ids)
  {
    if job.note in w.db.orders {
      WithoutMembers(w.db.orders[job.note].ids, job.ids);
    }
  }

  // ---- What can happen when ----

  /** The only locks are one transaction per note and the rows and order a transaction has written: any
      other interleaving is possible. */
  lemma SchedulingLaw(w: World, n: NoteId)
    ensures Enabled(w, Begin(n)) <==> n !in w.txns
    ensures Enabled(w, Commit(n)) <==> n in w.txns && w.txns[n].pending.None?
    ensures Enabled(w, Abort(n)) <==> n in w.txns
    ensures forall device, op :: Enabled(w, Read(n, device, op)) <==> n in w.txns && w.txns[n].pending.None?
    ensures forall owner, now :: Enabled(w, CreateNote(n, owner, now)) <==> n !in w.db.orders
    ensures forall job :: Enabled(w, GcCompact(job)) <==>
      job in w.queued && (job.note in w.txns ==> w.txns[job.note].order.None?)
    ensures forall cutoff, id :: Enabled(w, GcDelete({id}, cutoff)) <==>
      && id in w.db.lines && w.db.lines[id].deletedAt.Some? && w.db.lines[id].deletedAt.value < cutoff
      && forall m | m in w.txns :: id !in w.txns[m].lines
  {
  }

  /** A read op writes unless it failed, or would insert a row that is stored somewhere by now. */
  lemma WriteSchedulingLaw(w: World, n: NoteId)
    requires n in w.txns && w.txns[n].pending.Some?
    ensures var p := w.txns[n].pending.value;
      var o := Decide(p.seen, n, p.device, p.op);
      Enabled(w, Write(n)) <==>
        && !o.Failed?
        && (o.Applied? && p.op.Insert? ==>
              p.op.lineId !in w.db.lines && forall m | m in w.txns :: p.op.lineId !in w.txns[m].lines)
  {
  }

  /** What an op reads is what its transaction sees: its own writes over the committed tables. */
  lemma ReadLaw(w: World, n: NoteId, device: Writer, op: LineOp)
    requires Enabled(w, Read(n, device, op))
    ensures var t, w' := w.txns[n], Step(w, Read(n, device, op));
      && n in w'.txns && w'.txns[n] == t.(pending := w'.txns[n].pending) && w'.txns[n].pending.Some?
      && w' == w.(txns := w.txns[n := w'.txns[n]])
      && var p := w'.txns[n].pending.value;
         && p.op == op && p.device == device
         && p.seen.order == (if t.order.Some? then t.order else if n in w.db.orders then Some(w.db.orders[n]) else None)
         && (!op.Move? ==>
               p.seen.line == if op.lineId in t.lines then Some(t.lines[op.lineId])
                              else if op.lineId in w.db.lines then Some(w.db.lines[op.lineId])
                              else None)
  {
  }
}
