/**
 Concurrent edits of one line: devices that all saw the same version each send an
 Update or a Delete. Whatever the arrival order, and however often ops are resent,
 the op with the greatest (timestamp, writer) decides what readers see.
 */
module LineConvergence {
  import opened Prelude
  import opened VersionVectors
  import opened LineOps

  /** An accepted edit of the line, built on `vv` by raising only its writer's component. */
  predicate BuiltOn(vv: VV, id: LineId, op: LineOp) {
    && (op.Update? || op.Delete?) && op.lineId == id
    && (op.Update? ==> BadText(op.content).None?)
    && At(op.vv, op.lastWriter) > At(vv, op.lastWriter)
    && (forall w | w in op.vv.Keys + vv.Keys :: w != op.lastWriter ==> At(op.vv, w) == At(vv, w))
  }

  /** Edits from distinct devices, all built on the same version. */
  predicate Siblings(vv: VV, id: LineId, ops: seq<LineOp>) {
    && (forall o | o in ops :: BuiltOn(vv, id, o))
    && (forall o, p | o in ops && p in ops :: o.lastWriter == p.lastWriter ==> o == p)
  }

  /** The row after one arriving edit. */
  function Arrive(line: Line, op: LineOp): Line
    requires op.Update? || op.Delete?
  {
    if LineKept(line, op) then line else EditedLine(line, line.vv, op)
  }

  function Final(line: Line, ops: seq<LineOp>): Line
    requires forall o | o in ops :: o.Update? || o.Delete?
  {
    if ops == [] then line
    else Arrive(Final(line, ops[..|ops| - 1]), ops[|ops| - 1])
  }

  /** The later stamp of two edits. */
  predicate Outranks(m: LineOp, o: LineOp) {
    Earlier(o.updatedAt, o.lastWriter, m.updatedAt, m.lastWriter)
  }

  predicate Greatest(ops: seq<LineOp>, m: LineOp) {
    m in ops && forall o | o in ops :: o != m ==> Outranks(m, o)
  }

  /** The row shows what the op said: its text if it was an Update, gone if a Delete. */
  predicate Shows(line: Line, op: LineOp) {
    && line.updatedAt == op.updatedAt && line.lastWriter == op.lastWriter
    && (op.Update? ==> line.deletedAt.None? && line.content == op.content)
    && (op.Delete? ==> line.deletedAt == Some(op.deletedAt))
  }

  /** The component is the common version's or that of the device's own edit. */
  ghost predicate TracedAt(line: Line, vv: VV, ops: seq<LineOp>, w: Writer) {
    || At(line.vv, w) == At(vv, w)
    || exists o :: o in ops && o.lastWriter == w && At(line.vv, w) == At(o.vv, w)
  }

  ghost predicate Traced(line: Line, vv: VV, ops: seq<LineOp>) {
    forall w: Writer :: TracedAt(line, vv, ops, w)
  }

  lemma FirstEditWins(line: Line, id: LineId, op: LineOp)
    requires BuiltOn(line.vv, id, op)
    ensures var r := Arrive(line, op);
      Shows(r, op) && At(r.vv, op.lastWriter) == At(op.vv, op.lastWriter) && Leq(line.vv, r.vv)
      && forall w: Writer | w != op.lastWriter :: At(r.vv, w) == At(line.vv, w)
  {
    AdvancingNeverDominated(line.vv, line.updatedAt, line.lastWriter, op.vv, op.updatedAt, op.lastWriter);
    MergeIsLeastUpperBound(line.vv, op.vv, op.vv);
    assert Leq(line.vv, op.vv);
  }

  /** A later edit meets a row that carries another device's raise: the two are
      concurrent, so the stamps decide. */
  lemma NextEdit(line: Line, vv: VV, id: LineId, m: LineOp, op: LineOp)
    requires BuiltOn(vv, id, m) && BuiltOn(vv, id, op) && m.lastWriter != op.lastWriter
    requires Shows(line, m) && At(line.vv, m.lastWriter) == At(m.vv, m.lastWriter)
    requires At(line.vv, op.lastWriter) == At(vv, op.lastWriter)
    ensures Arrive(line, op) == if Outranks(op, m) then EditedLine(line, line.vv, op) else line
    ensures Outranks(op, m) ==> Shows(Arrive(line, op), op)
  {
    AdvancingNeverDominated(line.vv, line.updatedAt, line.lastWriter, op.vv, op.updatedAt, op.lastWriter);
    assert At(op.vv, m.lastWriter) == At(vv, m.lastWriter);
    assert m.lastWriter in line.vv;
    assert !Leq(line.vv, op.vv);
  }

  /** Resending an edit changes nothing, whether it was applied or lost. */
  lemma AlreadySeen(line: Line, vv: VV, id: LineId, ops: seq<LineOp>, m: LineOp, op: LineOp)
    requires Siblings(vv, id, ops) && op in ops && Greatest(ops, m)
    requires Shows(line, m) && At(line.vv, m.lastWriter) == At(m.vv, m.lastWriter) && Traced(line, vv, ops)
    ensures Arrive(line, op) == line
  {
    if AdvancesWriter(line.vv, op.vv, op.lastWriter) {
      assert TracedAt(line, vv, ops, op.lastWriter);
      NextEdit(line, vv, id, m, op);
      assert Outranks(m, op);
    }
  }

  lemma NotYetSeen(line: Line, vv: VV, id: LineId, ops: seq<LineOp>, m: LineOp, op: LineOp)
    requires Siblings(vv, id, ops + [op]) && op !in ops && m in ops && Traced(line, vv, ops)
    ensures At(line.vv, op.lastWriter) == At(vv, op.lastWriter) && m.lastWriter != op.lastWriter
  {
    assert op in ops + [op] && forall o | o in ops :: o in ops + [op];
    assert TracedAt(line, vv, ops, op.lastWriter);
  }

  lemma TraceGrows(line: Line, vv: VV, id: LineId, ops: seq<LineOp>, op: LineOp)
    requires (op.Update? || op.Delete?) && Siblings(vv, id, ops + [op]) && Traced(line, vv, ops)
    ensures Traced(Arrive(line, op), vv, ops + [op])
  {
    var r := Arrive(line, op);
    assert op in ops + [op] && forall o | o in ops :: o in ops + [op];
    MergeIsLeastUpperBound(line.vv, op.vv, op.vv);
    forall w: Writer ensures TracedAt(r, vv, ops + [op], w) {
      assert TracedAt(line, vv, ops, w);
      if At(r.vv, w) != At(line.vv, w) {
        assert At(r.vv, w) == At(op.vv, w) > At(line.vv, w);
        assert w in op.vv;
        if w != op.lastWriter {
          assert At(op.vv, w) == At(vv, w);
        }
      }
    }
  }

  lemma NothingTraced(line: Line)
    ensures Traced(line, line.vv, [])
  {
    forall w: Writer ensures TracedAt(line, line.vv, [], w) {}
  }

  lemma PrefixSiblings(vv: VV, id: LineId, ops: seq<LineOp>)
    requires ops != [] && Siblings(vv, id, ops)
    ensures Siblings(vv, id, ops[..|ops| - 1]) && ops == ops[..|ops| - 1] + [ops[|ops| - 1]]
  {
    assert forall o | o in ops[..|ops| - 1] :: o in ops;
  }

  lemma {:induction false} FinalTraced(line: Line, id: LineId, ops: seq<LineOp>)
    requires Siblings(line.vv, id, ops)
    ensures Traced(Final(line, ops), line.vv, ops)
    decreases |ops|
  {
    if ops == [] {
      NothingTraced(line);
    } else {
      var init, op := ops[..|ops| - 1], ops[|ops| - 1];
      PrefixSiblings(line.vv, id, ops);
      assert op in ops && BuiltOn(line.vv, id, op);
      FinalTraced(line, id, init);
      TraceGrows(Final(line, init), line.vv, id, init, op);
    }
  }

  lemma OneMoreEdit(was: Line, vv: VV, id: LineId, init: seq<LineOp>, before: LineOp, op: LineOp) returns (m: LineOp)
    requires (op.Update? || op.Delete?) && Siblings(vv, id, init + [op]) && Siblings(vv, id, init)
    requires Greatest(init, before) && Traced(was, vv, init)
    requires Shows(was, before) && At(was.vv, before.lastWriter) == At(before.vv, before.lastWriter)
    ensures Greatest(init + [op], m) && Shows(Arrive(was, op), m)
    ensures At(Arrive(was, op).vv, m.lastWriter) == At(m.vv, m.lastWriter)
  {
    assert op in init + [op] && BuiltOn(vv, id, op);
    if op in init {
      m := before;
      AlreadySeen(was, vv, id, init, before, op);
    } else {
      NotYetSeen(was, vv, id, init, before, op);
      NextEdit(was, vv, id, before, op);
      m := if Outranks(op, before) then op else before;
      MergeIsLeastUpperBound(was.vv, op.vv, op.vv);
    }
    forall o | o in init + [op] && o != m ensures Outranks(m, o) {
      assert o == op || o in init;
    }
  }

  /** The greatest edit received so far is the one the row shows. */
  lemma {:induction false} GreatestDecides(line: Line, id: LineId, ops: seq<LineOp>) returns (m: LineOp)
    requires ops != [] && Siblings(line.vv, id, ops)
    ensures Greatest(ops, m) && Shows(Final(line, ops), m)
    ensures At(Final(line, ops).vv, m.lastWriter) == At(m.vv, m.lastWriter)
    decreases |ops|
  {
    var op, init := ops[|ops| - 1], ops[..|ops| - 1];
    PrefixSiblings(line.vv, id, ops);
    assert op in ops && BuiltOn(line.vv, id, op);
    assert Final(line, ops) == Arrive(Final(line, init), op);
    if init == [] {
      m := op;
      assert ops == [op];
      FirstEditWins(line, id, op);
    } else {
      var before := GreatestDecides(line, id, init);
      FinalTraced(line, id, init);
      m := OneMoreEdit(Final(line, init), line.vv, id, init, before, op);
    }
  }

  lemma GreatestIsUnique(ops: seq<LineOp>, others: seq<LineOp>, m: LineOp, m': LineOp)
    requires Greatest(ops, m) && Greatest(others, m') && forall o :: o in ops <==> o in others
    ensures m == m'
  {
    assert m != m' ==> Outranks(m, m') && Outranks(m', m);
  }

  /** Two replicas that received the same edits, in any orders and with any repeats, agree
      on whether the line is live, on its text when it is, and on its stamp. */
  lemma ArrivalOrderIsIrrelevant(line: Line, id: LineId, ops: seq<LineOp>, others: seq<LineOp>)
    requires Siblings(line.vv, id, ops) && Siblings(line.vv, id, others)
    requires forall o :: o in ops <==> o in others
    ensures var a, b := Final(line, ops), Final(line, others);
      && a.updatedAt == b.updatedAt && a.lastWriter == b.lastWriter && a.deletedAt == b.deletedAt
      && (a.deletedAt.None? ==> a.content == b.content)
  {
    if ops == [] {
      assert forall i | 0 <= i < |others| :: others[i] in ops;
    } else {
      assert ops[0] in others;
      var m := GreatestDecides(line, id, ops);
      var m' := GreatestDecides(line, id, others);
      GreatestIsUnique(ops, others, m, m');
    }
  }

  /** The stored vectors may still differ: a loser that arrives first leaves its
      component behind, one that arrives last does not. */
  lemma VectorsMayDiffer(line: Line, id: LineId, lost: LineOp, won: LineOp)
    requires BuiltOn(line.vv, id, lost) && BuiltOn(line.vv, id, won)
    requires lost.lastWriter != won.lastWriter && Outranks(won, lost)
    ensures At(Arrive(Arrive(line, lost), won).vv, lost.lastWriter)
            > At(Arrive(Arrive(line, won), lost).vv, lost.lastWriter)
  {
    FirstEditWins(line, id, lost);
    FirstEditWins(line, id, won);
    NextEdit(Arrive(line, lost), line.vv, id, lost, won);
    NextEdit(Arrive(line, won), line.vv, id, won, lost);
    MergeIsLeastUpperBound(Arrive(line, lost).vv, won.vv, won.vv);
  }

  /** On the stored note, an arriving sibling edit is `ApplyOp`. */
  lemma ArriveIsApplyOp(db: Db, n: NoteId, vv: VV, op: LineOp)
    requires !op.Move? && BuiltOn(vv, op.lineId, op) && op.lineId in db.lines && db.lines[op.lineId].note == n
    ensures ApplyOp(db, n, op.lastWriter, op).0 == db.(lines := db.lines[op.lineId := Arrive(db.lines[op.lineId], op)])
  {
    if LineKept(db.lines[op.lineId], op) {
      assert db.lines == db.lines[op.lineId := db.lines[op.lineId]];
    }
  }
}
