/**
 One collaborative line operation against the stored note: what it reads, how it
 is validated and resolved, and what it writes.
 */
module LineOps {
  import opened Prelude
  import opened VersionVectors
  import opened Text

  type LineId = nat
  type NoteId = nat

  const MAX_LINE_BYTES: nat := 4096
  const MAX_LINES_PER_NOTE: nat := 65536

  datatype Line = Line(note: NoteId, content: Bytes, updatedAt: Time, deletedAt: Option<Time>,
                       vv: VV, lastWriter: Writer)

  /** The order of a note's lines is a versioned entity of its own. */
  datatype Order = Order(ids: seq<LineId>, updatedAt: Time, vv: VV, lastWriter: Writer)

  datatype LineOp =
    | Insert(after: Option<LineId>, lineId: LineId, content: Bytes,
             vv: VV, lastWriter: Writer, updatedAt: Time)
    | Update(lineId: LineId, content: Bytes, vv: VV, lastWriter: Writer, updatedAt: Time)
    | Delete(lineId: LineId, deletedAt: Time, vv: VV, lastWriter: Writer, updatedAt: Time)
    | Move(lineIds: seq<LineId>, after: Option<LineId>, vv: VV, lastWriter: Writer, updatedAt: Time)

  /** The `lines` and `note_line_order` tables. */
  datatype Db = Db(lines: map<LineId, Line>, orders: map<NoteId, Order>)

  datatype Code = BadWriter | BadContent | LineTooLong | LineExists | TooManyLines | BadAfter | NotFound | BadMove

  /** `Failed` is the error that abandons the whole transaction. */
  datatype Outcome = Applied | Ignored | Invalid(code: Code) | Failed

  /** What the statements before the first write of one op returned. */
  datatype Reads = Reads(line: Option<Line>, order: Option<Order>, live: nat)

  function Lookup<K, V>(m: map<K, V>, k: K): Option<V> {
    if k in m then Some(m[k]) else None
  }

  function LiveLines(lines: map<LineId, Line>, note: NoteId): set<LineId> {
    set l | l in lines && lines[l].note == note && lines[l].deletedAt.None?
  }

  function ReadsOf(db: Db, note: NoteId, op: LineOp): Reads {
    Reads(if op.Move? then None else Lookup(db.lines, op.lineId), Lookup(db.orders, note), |LiveLines(db.lines, note)|)
  }

  function PositionAfter(ids: seq<LineId>, after: Option<LineId>): (r: Option<nat>)
    ensures r.None? <==> after.Some? && after.value !in ids
    ensures r.Some? ==> r.value <= |ids|
    ensures r.Some? && after.None? ==> r.value == 0
    ensures r.Some? && after.Some? ==>
      r.value > 0 && ids[r.value - 1] == after.value && after.value !in ids[..r.value - 1]
  {
    match after
    case None => Some(0)
    case Some(a) =>
      var i := IndexOf(ids, a);
      if i.Some? then Some(i.value + 1) else None
  }

  predicate OrderKept(order: Order, op: LineOp) {
    || !AdvancesWriter(order.vv, op.vv, op.lastWriter)
    || Resolve(order.vv, order.updatedAt, order.lastWriter, op.vv, op.updatedAt, op.lastWriter).Local?
  }

  predicate LineKept(line: Line, op: LineOp) {
    || !AdvancesWriter(line.vv, op.vv, op.lastWriter)
    || Resolve(line.vv, line.updatedAt, line.lastWriter, op.vv, op.updatedAt, op.lastWriter).Local?
  }

  function BadText(content: Bytes): Option<Code> {
    if !OneLine(content) then Some(BadContent)
    else if |content| > MAX_LINE_BYTES then Some(LineTooLong)
    else None
  }

  function DecideInsert(r: Reads, op: LineOp): Outcome
    requires op.Insert?
  {
    if BadText(op.content).Some? then Invalid(BadText(op.content).value)
    else if r.line.Some? then Invalid(LineExists)
    else if r.order.None? then Failed
    else if r.live >= MAX_LINES_PER_NOTE then Invalid(TooManyLines)
    else if PositionAfter(r.order.value.ids, op.after).None? then Invalid(BadAfter)
    else if OrderKept(r.order.value, op) then Ignored
    else Applied
  }

  function DecideEdit(r: Reads, note: NoteId, op: LineOp): Outcome
    requires op.Update? || op.Delete?
  {
    if op.Update? && BadText(op.content).Some? then Invalid(BadText(op.content).value)
    else if r.line.None? || r.line.value.note != note then Invalid(NotFound)
    else if LineKept(r.line.value, op) then Ignored
    else Applied
  }

  function DecideMove(r: Reads, op: LineOp): Outcome
    requires op.Move?
  {
    if op.lineIds == [] then Invalid(BadMove)
    else if r.order.None? then Failed
    else if exists id | id in op.lineIds :: id !in r.order.value.ids then Invalid(NotFound)
    else if op.after.Some? && op.after.value in op.lineIds then Invalid(BadMove)
    else if OrderKept(r.order.value, op) then Ignored
    else if PositionAfter(Without(r.order.value.ids, MovedSet(op)), op.after).None? then Invalid(BadAfter)
    else Applied
  }

  function MovedSet(op: LineOp): set<LineId>
    requires op.Move?
  {
    set id | id in op.lineIds
  }

  function Decide(r: Reads, note: NoteId, device: Writer, op: LineOp): Outcome {
    if op.lastWriter != device then Invalid(BadWriter)
    else match op
      case Insert(_, _, _, _, _, _) => DecideInsert(r, op)
      case Move(_, _, _, _, _) => DecideMove(r, op)
      case _ => DecideEdit(r, note, op)
  }

  function Splice(ids: seq<LineId>, p: nat, block: seq<LineId>): seq<LineId>
    requires p <= |ids|
  {
    ids[..p] + block + ids[p..]
  }

  /** The order an applied Insert or Move writes, computed from the order it read. */
  function NewOrder(order: Order, op: LineOp): Order
    requires op.Insert? ==> PositionAfter(order.ids, op.after).Some?
    requires op.Move? ==> PositionAfter(Without(order.ids, MovedSet(op)), op.after).Some?
    requires op.Insert? || op.Move?
  {
    var ids := if op.Insert? then Splice(order.ids, PositionAfter(order.ids, op.after).value, [op.lineId])
               else var rest := Without(order.ids, MovedSet(op));
                    Splice(rest, PositionAfter(rest, op.after).value, op.lineIds);
    Order(ids, op.updatedAt, Merge(order.vv, op.vv), op.lastWriter)
  }

  /** The row an Insert creates. */
  function NewLine(note: NoteId, op: LineOp): Line
    requires op.Insert?
  {
    Line(note, op.content, op.updatedAt, None, op.vv, op.lastWriter)
  }

  /** The row an applied Update or Delete leaves: an Update clears the tombstone,
      a Delete keeps the text. `seen` is the vector that was read. */
  function EditedLine(row: Line, seen: VV, op: LineOp): Line
    requires op.Update? || op.Delete?
  {
    if op.Update? then
      row.(content := op.content, vv := Merge(seen, op.vv), lastWriter := op.lastWriter,
           updatedAt := op.updatedAt, deletedAt := None)
    else
      row.(deletedAt := Some(op.deletedAt), vv := Merge(seen, op.vv), lastWriter := op.lastWriter,
           updatedAt := op.updatedAt)
  }

  /** The writes of an applied op, given what it read earlier. An edit whose row has
      meanwhile disappeared updates nothing. */
  function Effect(db: Db, note: NoteId, device: Writer, op: LineOp, r: Reads): Db
    requires Decide(r, note, device, op).Applied?
  {
    match op
    case Insert(_, id, _, _, _, _) =>
      Db(db.lines[id := NewLine(note, op)], db.orders[note := NewOrder(r.order.value, op)])
    case Move(_, _, _, _, _) =>
      db.(orders := db.orders[note := NewOrder(r.order.value, op)])
    case _ =>
      if op.lineId in db.lines then
        db.(lines := db.lines[op.lineId := EditedLine(db.lines[op.lineId], r.line.value.vv, op)])
      else db
  }

  /** `apply_op` with nothing happening between its reads and its writes. */
  function ApplyOp(db: Db, note: NoteId, device: Writer, op: LineOp): (Db, Outcome) {
    var r := ReadsOf(db, note, op);
    var o := Decide(r, note, device, op);
    (if o.Applied? then Effect(db, note, device, op, r) else db, o)
  }

  // ---- What an applied Insert and an applied Move do to the order ----

  lemma SpliceCounts(ids: seq<LineId>, p: nat, block: seq<LineId>)
    requires p <= |ids|
    ensures multiset(Splice(ids, p, block)) == multiset(ids) + multiset(block)
    ensures forall x :: x in Splice(ids, p, block) <==> x in ids || x in block
  {
    assert ids == ids[..p] + ids[p..];
  }

  lemma SpliceNoDup(ids: seq<LineId>, p: nat, block: seq<LineId>)
    requires p <= |ids|
    ensures NoDup(Splice(ids, p, block)) <==> NoDup(ids) && NoDup(block) && forall x | x in block :: x !in ids
  {
    var s := Splice(ids, p, block);
    SpliceCounts(ids, p, block);
    NoDupIffSingleCounts(s);
    NoDupIffSingleCounts(ids);
    NoDupIffSingleCounts(block);
    if NoDup(s) {
      forall x | x in s ensures multiset(ids)[x] + multiset(block)[x] == 1 {
        assert multiset(s)[x] == 1;
      }
    } else if NoDup(ids) && NoDup(block) && forall x | x in block :: x !in ids {
      forall x | x in s ensures multiset(s)[x] == 1 {
        NoDupCounts(ids, x);
        NoDupCounts(block, x);
      }
    }
  }

  lemma {:induction false} WithoutBlock(a: seq<LineId>, block: seq<LineId>, gone: set<LineId>)
    requires forall x | x in block :: x in gone
    requires forall x | x in a :: x !in gone
    ensures Without(a + block, gone) == a
  {
    WithoutConcat(a, block, gone);
    WithoutNothing(a, gone);
    WithoutEverything(block, gone);
  }

  lemma {:induction false} WithoutMiddle(a: seq<LineId>, block: seq<LineId>, b: seq<LineId>, gone: set<LineId>)
    requires forall x | x in block :: x in gone
    requires forall x | x in a || x in b :: x !in gone
    ensures Without((a + block) + b, gone) == a + b
  {
    WithoutConcat(a + block, b, gone);
    WithoutBlock(a, block, gone);
    WithoutNothing(b, gone);
  }

  /** Taking the spliced block out again leaves what the splice started from. */
  lemma {:induction false} SpliceUndone(ids: seq<LineId>, p: nat, block: seq<LineId>, gone: set<LineId>)
    requires p <= |ids|
    requires forall x | x in block :: x in gone
    requires forall x | x in ids :: x !in gone
    ensures Without(Splice(ids, p, block), gone) == ids
  {
    WithoutMiddle(ids[..p], block, ids[p..], gone);
    assert ids[..p] + ids[p..] == ids;
  }

  /** The new id sits right after its anchor (or at the head) and nothing else moves;
      duplicate-freedom survives exactly when the id was not in the order. */
  lemma InsertPlacesOneId(order: Order, op: LineOp) returns (p: nat)
    requires op.Insert? && PositionAfter(order.ids, op.after).Some?
    ensures p <= |order.ids| && NewOrder(order, op).ids == order.ids[..p] + [op.lineId] + order.ids[p..]
    ensures if op.after.None? then p == 0 else p > 0 && order.ids[p - 1] == op.after.value
    ensures op.lineId !in order.ids ==> Without(NewOrder(order, op).ids, {op.lineId}) == order.ids
    ensures forall x :: x in NewOrder(order, op).ids <==> x == op.lineId || x in order.ids
    ensures NoDup(order.ids) ==> (NoDup(NewOrder(order, op).ids) <==> op.lineId !in order.ids)
  {
    p := PositionAfter(order.ids, op.after).value;
    SpliceCounts(order.ids, p, [op.lineId]);
    SpliceNoDup(order.ids, p, [op.lineId]);
    if op.lineId !in order.ids {
      SpliceUndone(order.ids, p, [op.lineId], {op.lineId});
    }
  }

  /** The moved ids form one block in the given sequence right after the anchor
      (or at the head) and every other id keeps its relative order. */
  lemma MoveRelocatesBlock(order: Order, op: LineOp) returns (p: nat)
    requires op.Move? && PositionAfter(Without(order.ids, MovedSet(op)), op.after).Some?
    ensures var ids := NewOrder(order, op).ids;
      && p + |op.lineIds| <= |ids| && ids[p..p + |op.lineIds|] == op.lineIds
      && if op.after.None? then p == 0 else p > 0 && ids[p - 1] == op.after.value
    ensures Without(NewOrder(order, op).ids, MovedSet(op)) == Without(order.ids, MovedSet(op))
  {
    var rest := Without(order.ids, MovedSet(op));
    p := PositionAfter(rest, op.after).value;
    WithoutMembers(order.ids, MovedSet(op));
    SpliceUndone(rest, p, op.lineIds, MovedSet(op));
  }

  /** An applied Move neither gains nor loses an id. */
  lemma MoveKeepsIds(order: Order, op: LineOp)
    requires op.Move? && PositionAfter(Without(order.ids, MovedSet(op)), op.after).Some?
    requires forall id | id in op.lineIds :: id in order.ids
    ensures forall x :: x in NewOrder(order, op).ids <==> x in order.ids
  {
    var rest := Without(order.ids, MovedSet(op));
    WithoutMembers(order.ids, MovedSet(op));
    SpliceCounts(rest, PositionAfter(rest, op.after).value, op.lineIds);
  }

  /** Moving distinct ids keeps every count. */
  lemma MoveKeepsCount(order: Order, op: LineOp, x: LineId)
    requires op.Move? && PositionAfter(Without(order.ids, MovedSet(op)), op.after).Some?
    requires (forall id | id in op.lineIds :: id in order.ids) && NoDup(order.ids) && NoDup(op.lineIds)
    ensures multiset(NewOrder(order, op).ids)[x] == multiset(order.ids)[x]
  {
    var rest := Without(order.ids, MovedSet(op));
    SpliceCounts(rest, PositionAfter(rest, op.after).value, op.lineIds);
    WithoutMultiset(order.ids, MovedSet(op), x);
    NoDupCounts(op.lineIds, x);
    NoDupCounts(order.ids, x);
  }

  /** The new order has a duplicate exactly when the moved ids do. */
  lemma MoveDistinct(order: Order, op: LineOp)
    requires op.Move? && PositionAfter(Without(order.ids, MovedSet(op)), op.after).Some? && NoDup(order.ids)
    ensures NoDup(op.lineIds) <==> NoDup(NewOrder(order, op).ids)
  {
    var rest := Without(order.ids, MovedSet(op));
    WithoutMembers(order.ids, MovedSet(op));
    WithoutNoDup(order.ids, MovedSet(op));
    SpliceNoDup(rest, PositionAfter(rest, op.after).value, op.lineIds);
  }

  /** On a duplicate-free order, an applied Move is a permutation exactly when the
      moved ids are distinct; with a repeated id it leaves a duplicate behind. */
  lemma MovePermutesIffDistinct(order: Order, op: LineOp)
    requires op.Move? && PositionAfter(Without(order.ids, MovedSet(op)), op.after).Some?
    requires forall id | id in op.lineIds :: id in order.ids
    requires NoDup(order.ids)
    ensures NoDup(op.lineIds) <==> multiset(NewOrder(order, op).ids) == multiset(order.ids)
    ensures NoDup(op.lineIds) <==> NoDup(NewOrder(order, op).ids)
  {
    var ids := NewOrder(order, op).ids;
    MoveDistinct(order, op);
    if NoDup(op.lineIds) {
      forall x ensures multiset(ids)[x] == multiset(order.ids)[x] {
        MoveKeepsCount(order, op, x);
      }
    } else {
      NoDupIffSingleCounts(ids);
      var x :| x in ids && multiset(ids)[x] != 1;
      assert x in multiset(ids);
      NoDupCounts(order.ids, x);
    }
  }

  // ---- Vectors only grow ----

  /** Whatever the outcome, the note's order vector and every surviving line's vector
      dominate what they were; an applied op's own component is recorded. */
  lemma VectorsOnlyGrow(db: Db, note: NoteId, device: Writer, op: LineOp)
    ensures var (db', o) := ApplyOp(db, note, device, op);
      && (forall n | n in db.orders :: n in db'.orders && Leq(db.orders[n].vv, db'.orders[n].vv))
      && (forall l | l in db.lines :: l in db'.lines && Leq(db.lines[l].vv, db'.lines[l].vv))
      && (o.Applied? && (op.Insert? || op.Move?) ==>
            Leq(op.vv, db'.orders[note].vv))
      && (o.Applied? && (op.Update? || op.Delete?) ==>
            op.lineId in db'.lines && Leq(op.vv, db'.lines[op.lineId].vv))
  {
    var (db', o) := ApplyOp(db, note, device, op);
    if o.Applied? {
      if op.Insert? || op.Move? {
        MergeIsLeastUpperBound(db.orders[note].vv, op.vv, op.vv);
      } else {
        MergeIsLeastUpperBound(db.lines[op.lineId].vv, op.vv, op.vv);
      }
    }
  }
}
