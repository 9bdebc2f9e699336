/**
 The code that edits a note's tables in place: `apply_op`, tombstone collection and
 import, each proved to have the effect the pure model gives it.
 */
module NoteStore {
  import opened Prelude
  import opened VersionVectors
  import opened Text
  import opened Materialize
  import opened LineEngine
  import O = LineOps

  /** The order's ids outside `gone`, as the iterator chain collects them. */
  method Retain(ids: seq<O.LineId>, gone: set<O.LineId>) returns (kept: seq<O.LineId>)
    ensures kept == Without(ids, gone)
  {
    kept := [];
    for i := 0 to |ids|
      invariant kept + Without(ids[i..], gone) == Without(ids, gone)
    {
      assert ids[i..][1..] == ids[i + 1..];
      if ids[i] !in gone {
        kept := kept + [ids[i]];
      }
    }
  }

  /** Tombstones deleted before the cutoff. */
  function Expired(lines: map<O.LineId, O.Line>, cutoff: Time): set<O.LineId> {
    set l | l in lines && lines[l].deletedAt.Some? && lines[l].deletedAt.value < cutoff
  }

  function OfNote(lines: map<O.LineId, O.Line>, ids: set<O.LineId>, n: O.NoteId): set<O.LineId> {
    set l | l in ids && l in lines && lines[l].note == n
  }

  /** One whole collection with nothing interleaved. */
  function Collected(db: O.Db, cutoff: Time): O.Db {
    var dead := Expired(db.lines, cutoff);
    O.Db(db.lines - dead,
         map n | n in db.orders :: Compacted(db.orders[n], OfNote(db.lines, dead, n)))
  }

  function Imported(db: O.Db, n: O.NoteId, ids: seq<O.LineId>, body: Bytes, writer: Writer, now: Time): O.Db
    requires |ids| == |Split(body)|
  {
    O.Db(db.lines + ImportedLines(n, ids, Split(body), writer, now),
         db.orders[n := O.Order(ids, now, map[writer := |ids|], writer)])
  }

  class Tables {
    var lines: map<O.LineId, O.Line>
    var orders: map<O.NoteId, O.Order>

    function Contents(): O.Db
      reads this
    {
      O.Db(lines, orders)
    }

    constructor ()
      ensures Contents() == O.Db(map[], map[])
    {
      lines, orders := map[], map[];
    }

    method ApplyInsert(note: O.NoteId, op: O.LineOp) returns (o: O.Outcome)
      requires op.Insert?
      modifies this
      ensures (Contents(), o) == O.ApplyOp(old(Contents()), note, op.lastWriter, op)
    {
      if NEWLINE in op.content {
        return O.Invalid(O.BadContent);
      }
      if |op.content| > O.MAX_LINE_BYTES {
        return O.Invalid(O.LineTooLong);
      }
      if op.lineId in lines {
        return O.Invalid(O.LineExists);
      }
      if note !in orders {
        return O.Failed;
      }
      var order := orders[note];
      if |O.LiveLines(lines, note)| >= O.MAX_LINES_PER_NOTE {
        return O.Invalid(O.TooManyLines);
      }
      var position := O.PositionAfter(order.ids, op.after);
      if position.None? {
        return O.Invalid(O.BadAfter);
      }
      if O.OrderKept(order, op) {
        return O.Ignored;
      }
      lines := lines[op.lineId := O.Line(note, op.content, op.updatedAt, None, op.vv, op.lastWriter)];
      var newIds := order.ids[..position.value] + [op.lineId] + order.ids[position.value..];
      var vv := MergeVv(order.vv, op.vv);
      orders := orders[note := O.Order(newIds, op.updatedAt, vv, op.lastWriter)];
      return O.Applied;
    }

    method ApplyEdit(note: O.NoteId, op: O.LineOp) returns (o: O.Outcome)
      requires op.Update? || op.Delete?
      modifies this
      ensures (Contents(), o) == O.ApplyOp(old(Contents()), note, op.lastWriter, op)
    {
      if op.Update? {
        if NEWLINE in op.content {
          return O.Invalid(O.BadContent);
        }
        if |op.content| > O.MAX_LINE_BYTES {
          return O.Invalid(O.LineTooLong);
        }
      }
      if op.lineId !in lines || lines[op.lineId].note != note {
        return O.Invalid(O.NotFound);
      }
      var line := lines[op.lineId];
      if O.LineKept(line, op) {
        return O.Ignored;
      }
      var vv := MergeVv(line.vv, op.vv);
      if op.Update? {
        lines := lines[op.lineId := line.(content := op.content, vv := vv, lastWriter := op.lastWriter,
                                         updatedAt := op.updatedAt, deletedAt := None)];
      } else {
        lines := lines[op.lineId := line.(deletedAt := Some(op.deletedAt), vv := vv,
                                         lastWriter := op.lastWriter, updatedAt := op.updatedAt)];
      }
      return O.Applied;
    }

    method ApplyMove(note: O.NoteId, op: O.LineOp) returns (o: O.Outcome)
      requires op.Move?
      modifies this
      ensures (Contents(), o) == O.ApplyOp(old(Contents()), note, op.lastWriter, op)
    {
      if op.lineIds == [] {
        return O.Invalid(O.BadMove);
      }
      if note !in orders {
        return O.Failed;
      }
      var order := orders[note];
      if exists id | id in op.lineIds :: id !in order.ids {
        return O.Invalid(O.NotFound);
      }
      if op.after.Some? && op.after.value in op.lineIds {
        return O.Invalid(O.BadMove);
      }
      if O.OrderKept(order, op) {
        return O.Ignored;
      }
      var rest := Retain(order.ids, set id | id in op.lineIds);
      var position := O.PositionAfter(rest, op.after);
      if position.None? {
        return O.Invalid(O.BadAfter);
      }
      var newIds := rest[..position.value] + op.lineIds + rest[position.value..];
      var vv := MergeVv(order.vv, op.vv);
      orders := orders[note := O.Order(newIds, op.updatedAt, vv, op.lastWriter)];
      return O.Applied;
    }

    method ApplyOp(note: O.NoteId, device: Writer, op: O.LineOp) returns (o: O.Outcome)
      modifies this
      ensures (Contents(), o) == O.ApplyOp(old(Contents()), note, device, op)
    {
      if op.lastWriter != device {
        return O.Invalid(O.BadWriter);
      }
      match op
      case Insert(_, _, _, _, _, _) => o := ApplyInsert(note, op);
      case Move(_, _, _, _, _) => o := ApplyMove(note, op);
      case _ => o := ApplyEdit(note, op);
    }

    /** Groups the deleted ids by note, as the loop over the returned rows does. */
    method GroupByNote(was: map<O.LineId, O.Line>, dead: set<O.LineId>) returns (byNote: map<O.NoteId, set<O.LineId>>)
      requires dead <= was.Keys
      ensures forall n :: n in byNote <==> OfNote(was, dead, n) != {}
      ensures forall n | n in byNote :: byNote[n] == OfNote(was, dead, n)
    {
      byNote := map[];
      var todo := dead;
      while todo != {}
        invariant todo <= dead
        invariant forall n :: n in byNote <==> OfNote(was, dead - todo, n) != {}
        invariant forall n | n in byNote :: byNote[n] == OfNote(was, dead - todo, n)
        decreases todo
      {
        var id :| id in todo;
        var n := was[id].note;
        ghost var seen := dead - todo;
        var group := if n in byNote then byNote[n] else {};
        byNote := byNote[n := group + {id}];
        todo := todo - {id};
        assert dead - todo == seen + {id};
        assert id in OfNote(was, seen + {id}, n);
        assert OfNote(was, seen + {id}, n) == OfNote(was, seen, n) + {id};
        assert forall m | m != n :: OfNote(was, seen + {id}, m) == OfNote(was, seen, m);
      }
    }

    /** Deletes expired tombstones, then compacts every order that listed one; order
        vectors, timestamps and writers stay as they were. */
    method GcLineTombstones(cutoff: Time) returns (removed: nat)
      modifies this
      ensures Contents() == Collected(old(Contents()), cutoff)
      ensures removed == |Expired(old(lines), cutoff)|
    {
      var was := lines;
      var dead := Expired(lines, cutoff);
      lines := lines - dead;
      removed := |dead|;
      var byNote := GroupByNote(was, dead);
      var before := orders;
      var todo := byNote.Keys;
      while todo != {}
        invariant lines == was - dead && todo <= byNote.Keys
        invariant orders.Keys == before.Keys
        invariant forall n | n in orders ::
          orders[n] == if n in byNote.Keys - todo then Compacted(before[n], byNote[n]) else before[n]
        decreases todo
      {
        var n :| n in todo;
        if n in orders {
          var kept := Retain(orders[n].ids, byNote[n]);
          orders := orders[n := orders[n].(ids := kept)];
        }
        todo := todo - {n};
      }
      forall n | n in orders ensures orders[n] == Compacted(before[n], OfNote(was, dead, n)) {
        if n !in byNote {
          WithoutNothing(before[n].ids, {});
        }
      }
      assert orders == Collected(old(Contents()), cutoff).orders;
    }

    /** `ids` are the fresh ids the server draws, one per line. */
    method ImportNote(note: O.NoteId, ids: seq<O.LineId>, body: Bytes, writer: Writer, now: Time)
      requires note !in orders && |ids| == |Split(body)| && NoDup(ids)
      requires forall id | id in ids :: id !in lines
      modifies this
      ensures Contents() == Imported(old(Contents()), note, ids, body, writer, now)
    {
      var pieces := Split(body);
      var order: seq<O.LineId> := [];
      ghost var was := lines;
      ImportEnds(was, note, ids, pieces, writer, now);
      for i := 0 to |pieces|
        invariant order == ids[..i] && orders == old(orders)
        invariant lines == ImportedOnto(was, note, ids, pieces, i, writer, now)
      {
        ImportOneMore(was, note, ids, pieces, i, writer, now);
        lines := lines[ids[i] := NewRow(note, pieces[i], writer, now)];
        order := order + [ids[i]];
      }
      assert ids[..|pieces|] == ids;
      orders := orders[note := O.Order(order, now, map[writer := |pieces|], writer)];
    }
  }

  function NewRow(note: O.NoteId, text: Bytes, writer: Writer, now: Time): O.Line {
    O.Line(note, text, now, None, map[writer := 1], writer)
  }

  /** The table with the rows of the first `k` pieces in it. */
  ghost function ImportedOnto(was: map<O.LineId, O.Line>, note: O.NoteId, ids: seq<O.LineId>, pieces: seq<Bytes>,
                              k: nat, writer: Writer, now: Time): map<O.LineId, O.Line>
    requires k <= |ids| == |pieces|
  {
    was + ImportedLines(note, ids[..k], pieces[..k], writer, now)
  }

  lemma ImportEnds(was: map<O.LineId, O.Line>, note: O.NoteId, ids: seq<O.LineId>, pieces: seq<Bytes>,
                   writer: Writer, now: Time)
    requires |ids| == |pieces|
    ensures ImportedOnto(was, note, ids, pieces, 0, writer, now) == was
    ensures ImportedOnto(was, note, ids, pieces, |pieces|, writer, now)
          == was + ImportedLines(note, ids, pieces, writer, now)
  {
    assert ids[..|ids|] == ids && pieces[..|pieces|] == pieces;
  }

  lemma IndexInPrefix(ids: seq<O.LineId>, k: nat, id: O.LineId)
    requires k < |ids| && NoDup(ids) && id in ids[..k]
    ensures IndexOf(ids[..k + 1], id) == IndexOf(ids[..k], id) && id != ids[k]
  {
    var i := IndexOf(ids[..k], id).value;
    assert ids[..k + 1][i] == id;
    IndexOfDistinct(ids[..k + 1], i);
  }

  lemma RowsOneMore(note: O.NoteId, ids: seq<O.LineId>, pieces: seq<Bytes>, k: nat, writer: Writer, now: Time)
    requires k < |ids| == |pieces| && NoDup(ids)
    ensures ImportedLines(note, ids[..k + 1], pieces[..k + 1], writer, now)
            == ImportedLines(note, ids[..k], pieces[..k], writer, now)[ids[k] := NewRow(note, pieces[k], writer, now)]
  {
    assert ids[..k + 1] == ids[..k] + [ids[k]];
    IndexOfDistinct(ids[..k + 1], k);
    forall id | id in ids[..k] ensures IndexOf(ids[..k + 1], id) == IndexOf(ids[..k], id) && id != ids[k] {
      IndexInPrefix(ids, k, id);
    }
  }

  lemma ImportOneMore(was: map<O.LineId, O.Line>, note: O.NoteId, ids: seq<O.LineId>, pieces: seq<Bytes>, k: nat,
                      writer: Writer, now: Time)
    requires k < |ids| == |pieces| && NoDup(ids)
    ensures ids[..k + 1] == ids[..k] + [ids[k]]
    ensures ImportedOnto(was, note, ids, pieces, k + 1, writer, now)
            == ImportedOnto(was, note, ids, pieces, k, writer, now)[ids[k] := NewRow(note, pieces[k], writer, now)]
  {
    RowsOneMore(note, ids, pieces, k, writer, now);
    var rows := ImportedLines(note, ids[..k], pieces[..k], writer, now);
    OneMoreRow(was, rows, ids[k], NewRow(note, pieces[k], writer, now));
  }

  lemma {:induction false} TextsInStep(rows: map<O.LineId, O.Line>, n: O.NoteId, ids: seq<O.LineId>, texts: seq<Bytes>)
    requires |ids| == |texts|
    requires forall i | 0 <= i < |ids| :: ids[i] in O.LiveLines(rows, n) && rows[ids[i]].content == texts[i]
    ensures LiveTexts(rows, n, ids) == texts
  {
    if ids != [] {
      TextsInStep(rows, n, ids[1..], texts[1..]);
      assert texts == [texts[0]] + texts[1..];
    }
  }

  lemma ImportedTexts(db: O.Db, n: O.NoteId, ids: seq<O.LineId>, body: Bytes, writer: Writer, now: Time)
    requires |ids| == |Split(body)| && NoDup(ids)
    ensures LiveTexts(Imported(db, n, ids, body, writer, now).lines, n, ids) == Split(body)
  {
    var rows := Imported(db, n, ids, body, writer, now).lines;
    forall i | 0 <= i < |ids|
      ensures ids[i] in O.LiveLines(rows, n) && rows[ids[i]].content == Split(body)[i]
    {
      IndexOfDistinct(ids, i);
    }
    TextsInStep(rows, n, ids, Split(body));
  }

  /** Exporting a freshly imported note returns the original bytes for every body, or
      refuses exactly when the body exceeds a non-zero cap. */
  lemma ExportOfImport(db: O.Db, n: O.NoteId, ids: seq<O.LineId>, body: Bytes, writer: Writer, now: Time, cap: nat)
    requires |ids| == |Split(body)| && NoDup(ids)
    ensures MaterializeBody(Imported(db, n, ids, body, writer, now), n, cap)
            == if cap > 0 && |body| > cap then TooLarge(|body|) else Body(body)
  {
    ImportedTexts(db, n, ids, body, writer, now);
    JoinSplit(body);
    RefusedExactlyWhenTooLong(Imported(db, n, ids, body, writer, now), n, cap);
  }
}
