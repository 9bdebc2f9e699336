/**
 The re-encryption loop over a table nobody else writes: what it computes, and that it is a run
 of the step system.
 */
module QuietPass {
  import opened Prelude
  import opened Ordered
  import opened AtRest
  import opened Reencrypt

  /** The table with the given rows sealed. */
  function Sealed(c: Cipher, t: Table, ids: set<Id>, nonce: Id -> nat): Table {
    map id | id in t :: if id in ids then Encrypt(c, nonce(id), t[id]) else t[id]
  }

  /** Where a pass over a quiet table ends. */
  predicate Done(u: Setup, t: Table, nonce: Id -> nat, end: Table, stats: Stats) {
    var n := |Untagged(t, NIL)|;
    && end == (if u.dryRun then t else Sealed(u.cipher, t, Untagged(t, NIL), nonce))
    && stats == Stats(n, if u.dryRun then 0 else n, 0)
  }

  /** A second pass has nothing to scan, and sealing changes what no row says. */
  lemma SealingIsComplete(c: Cipher, t: Table, nonce: Id -> nat)
    requires c.Keyed? && Invertible(c)
    ensures var t' := Sealed(c, t, Untagged(t, NIL), nonce);
      && t'.Keys == t.Keys && Untagged(t', NIL) == {}
      && (forall id | id in t && (id == NIL || Tagged(t[id])) :: t'[id] == t[id])
      && forall id | id in t :: Decrypt(c, t'[id]) == Decrypt(c, t[id])
  {
    forall id | id in t
      ensures Decrypt(c, Encrypt(c, nonce(id), t[id])) == Some(t[id]) && Tagged(Encrypt(c, nonce(id), t[id]))
    {
      RoundTripIff(c, nonce(id), t[id]);
    }
  }

  // ---- How far a pass has come ----

  predicate Increasing(q: seq<Id>) {
    forall i, j | 0 <= i < j < |q| :: q[i] < q[j]
  }

  /** The untagged rows of the original table, in order. */
  ghost predicate Lists(t: Table, q: seq<Id>) {
    Increasing(q) && forall id :: id in q <==> id in Untagged(t, NIL)
  }

  function LastOf(q: seq<Id>, k: nat): Id
    requires k <= |q|
  {
    if k == 0 then NIL else q[k - 1]
  }

  /** The rows to select after the first k. */
  function NextIds(q: seq<Id>, k: nat, limit: nat): seq<Id>
    requires k <= |q|
  {
    FirstOf(q[k..], limit)
  }

  /** The table once the first k rows have been dealt with. */
  ghost function TableAt(u: Setup, t: Table, q: seq<Id>, k: nat, nonce: Id -> nat): Table
    requires k <= |q|
  {
    if u.dryRun then t else Sealed(u.cipher, t, Elems(q[..k]), nonce)
  }

  lemma ListingExists(t: Table) returns (q: seq<Id>)
    ensures Lists(t, q) && |q| == |Untagged(t, NIL)|
  {
    q := Sorted(Untagged(t, NIL), ById());
    SortedListsTheSet(Untagged(t, NIL), ById());
    forall i, j | 0 <= i < j < |q| ensures q[i] < q[j] {
      assert ById()(q[i], q[j]);
    }
  }

  lemma NextFacts(q: seq<Id>, k: nat, limit: nat)
    requires Increasing(q) && k <= |q|
    ensures var ids := NextIds(q, k, limit);
      && k + |ids| <= |q| && q[..k + |ids|] == q[..k] + ids && NoDup(ids)
      && (ids != [] ==> ids[|ids| - 1] == LastOf(q, k + |ids|))
      && (ids == [] && limit > 0 ==> k == |q|)
      && forall id | id in ids :: id in q && id !in q[..k]
  {
    var ids := NextIds(q, k, limit);
    assert ids == q[k..k + |ids|];
    forall id | id in ids ensures id in q && id !in q[..k] {
      var i :| 0 <= i < |ids| && ids[i] == id;
      assert id == q[k + i];
    }
  }

  /** What is still untagged past the k-th row is the rest of the listing. */
  lemma UntaggedPast(u: Setup, t: Table, q: seq<Id>, k: nat, nonce: Id -> nat, id: Id)
    requires Lists(t, q) && k <= |q|
    ensures id in q[k..] <==> id in Untagged(TableAt(u, t, q, k, nonce), LastOf(q, k))
  {
    assert id in q <==> id in Untagged(t, NIL);
    if id in q[k..] {
      var i :| k <= i < |q| && q[i] == id;
      assert id !in q[..k] && LastOf(q, k) < id;
    } else if id in q {
      assert q == q[..k] + q[k..];
      var i :| 0 <= i < k && q[i] == id;
      assert q[..k][i] == id && id <= LastOf(q, k);
    }
  }

  lemma NextBatch(u: Setup, t: Table, q: seq<Id>, k: nat, nonce: Id -> nat)
    requires Lists(t, q) && k <= |q|
    ensures Batch(TableAt(u, t, q, k, nonce), LastOf(q, k), u.batchSize) == NextIds(q, k, u.batchSize)
  {
    var rest, s := q[k..], Untagged(TableAt(u, t, q, k, nonce), LastOf(q, k));
    forall id ensures id in rest <==> id in s {
      UntaggedPast(u, t, q, k, nonce, id);
    }
    AscendingIsSorted(rest, s, ById());
  }

  lemma TableEnds(u: Setup, t: Table, q: seq<Id>, nonce: Id -> nat)
    requires Lists(t, q)
    ensures TableAt(u, t, q, 0, nonce) == t
    ensures TableAt(u, t, q, |q|, nonce) == if u.dryRun then t else Sealed(u.cipher, t, Untagged(t, NIL), nonce)
  {
    assert q[..0] == [] && q[..|q|] == q;
    assert Elems(q) == Untagged(t, NIL);
  }

  lemma SealMore(c: Cipher, t: Table, first: seq<Id>, more: seq<Id>, nonce: Id -> nat)
    requires forall id | id in more :: id !in first
    ensures Sealed(c, Sealed(c, t, Elems(first), nonce), Elems(more), nonce)
            == Sealed(c, t, Elems(first + more), nonce)
  {
  }

  // ---- The loop ----

  function StatsAt(u: Setup, k: nat): Stats {
    Stats(k, if u.dryRun then 0 else k, 0)
  }

  function Counted(u: Setup, before: Stats, n: nat): Stats {
    Stats(before.scanned + n, before.rewritten + if u.dryRun then 0 else n, before.skippedConcurrent)
  }

  ghost function Processed(u: Setup, now: Table, ids: seq<Id>, nonce: Id -> nat): Table {
    if u.dryRun then now else Sealed(u.cipher, now, Elems(ids), nonce)
  }

  /** A turn of the loop takes the table from k to the end of the batch. */
  lemma Turn(u: Setup, t: Table, q: seq<Id>, k: nat, nonce: Id -> nat, ids: seq<Id>)
    requires Lists(t, q) && k <= |q| && ids == NextIds(q, k, u.batchSize) && ids != []
    ensures k + |ids| <= |q| && NoDup(ids) && ids[|ids| - 1] == LastOf(q, k + |ids|)
    ensures forall id | id in ids :: id in TableAt(u, t, q, k, nonce)
    ensures TableAt(u, t, q, k + |ids|, nonce) == Processed(u, TableAt(u, t, q, k, nonce), ids, nonce)
    ensures StatsAt(u, k + |ids|) == Counted(u, StatsAt(u, k), |ids|)
  {
    NextFacts(q, k, u.batchSize);
    SealMore(u.cipher, t, q[..k], ids, nonce);
  }

  lemma LoopEnds(u: Setup, t: Table, q: seq<Id>, k: nat, nonce: Id -> nat)
    requires Lists(t, q) && k <= |q| && NextIds(q, k, u.batchSize) == []
    requires u.batchSize > 0 && |q| == |Untagged(t, NIL)|
    ensures k == |q| && Done(u, t, nonce, TableAt(u, t, q, k, nonce), StatsAt(u, k))
  {
    NextFacts(q, k, u.batchSize);
    TableEnds(u, t, q, nonce);
  }

  lemma SealOne(c: Cipher, t: Table, ids: seq<Id>, i: nat, nonce: Id -> nat)
    requires NoDup(ids) && i < |ids| && ids[i] in t
    ensures var sealed := Sealed(c, t, Elems(ids[..i]), nonce);
      && ids[i] in sealed && sealed[ids[i]] == t[ids[i]]
      && sealed[ids[i] := Encrypt(c, nonce(ids[i]), t[ids[i]])] == Sealed(c, t, Elems(ids[..i + 1]), nonce)
  {
    assert ids[..i + 1] == ids[..i] + [ids[i]];
    ElemsConcat(ids[..i], [ids[i]]);
  }

  class Column {
    var rows: Table

    constructor (t: Table)
      ensures rows == t
    {
      rows := t;
    }

    /** One compare-and-set. */
    method Update(id: Id, expected: string, value: string) returns (affected: nat)
      modifies this
      ensures affected == if id in old(rows) && old(rows)[id] == expected then 1 else 0
      ensures rows == if affected == 1 then old(rows)[id := value] else old(rows)
    {
      affected := 0;
      if id in rows && rows[id] == expected {
        rows := rows[id := value];
        affected := 1;
      }
    }

    /** The transaction of one batch, whose rows nobody has touched since it was selected. */
    method RewriteBatch(c: Cipher, ids: seq<Id>, nonce: Id -> nat) returns (rewritten: nat, skipped: int)
      requires NoDup(ids) && forall id | id in ids :: id in rows
      modifies this
      ensures rows == Sealed(c, old(rows), Elems(ids), nonce) && rewritten == |ids| && skipped == 0
    {
      var selected := rows;
      rewritten, skipped := 0, 0;
      assert ids[..0] == [] && rows == Sealed(c, selected, Elems(ids[..0]), nonce);
      for i := 0 to |ids|
        invariant rewritten == i && skipped == 0
        invariant rows == Sealed(c, selected, Elems(ids[..i]), nonce)
      {
        SealOne(c, selected, ids, i, nonce);
        var affected := Update(ids[i], selected[ids[i]], Encrypt(c, nonce(ids[i]), selected[ids[i]]));
        if affected == 1 {
          rewritten := rewritten + 1;
        } else {
          skipped := skipped + 1;
        }
      }
      assert ids[..|ids|] == ids;
    }

    /** One turn of the loop. */
    method ProcessBatch(u: Setup, ids: seq<Id>, nonce: Id -> nat, before: Stats) returns (stats: Stats)
      requires NoDup(ids) && forall id | id in ids :: id in rows
      modifies this
      ensures rows == Processed(u, old(rows), ids, nonce) && stats == Counted(u, before, |ids|)
    {
      stats := before.(scanned := before.scanned + |ids|);
      if !u.dryRun {
        var rewritten, skipped := RewriteBatch(u.cipher, ids, nonce);
        stats := stats.(rewritten := stats.rewritten + rewritten,
              skippedConcurrent := stats.skippedConcurrent + skipped);
      }
    }

    method SelectBatch(u: Setup, lastId: Id, ghost t0: Table, ghost q: seq<Id>, ghost k: nat, ghost nonce: Id -> nat)
      returns (ids: seq<Id>)
      requires Lists(t0, q) && k <= |q| && rows == TableAt(u, t0, q, k, nonce) && lastId == LastOf(q, k)
      ensures ids == NextIds(q, k, u.batchSize)
    {
      NextBatch(u, t0, q, k, nonce);
      ids := Batch(rows, lastId, u.batchSize);
    }

    /** One turn of the loop. */
    method TakeTurn(u: Setup, nonce: Id -> nat, ids: seq<Id>, before: Stats, ghost t0: Table, ghost q: seq<Id>,
                    ghost k: nat)
      returns (lastId: Id, next: seq<Id>, stats: Stats)
      requires Lists(t0, q) && k <= |q| && ids != [] && AtRow(u, t0, q, k, nonce, rows, ids, before)
      modifies this
      ensures k + |ids| <= |q| && AtRow(u, t0, q, k + |ids|, nonce, rows, next, stats)
    {
      Turn(u, t0, q, k, nonce, ids);
      lastId := ids[|ids| - 1];
      stats := ProcessBatch(u, ids, nonce, before);
      next := SelectBatch(u, lastId, t0, q, k + |ids|, nonce);
    }

    method RunLoop(u: Setup, nonce: Id -> nat, ghost q: seq<Id>) returns (stats: Stats)
      requires Lists(rows, q)
      modifies this
      ensures exists k: nat | k <= |q| :: AtRow(u, old(rows), q, k, nonce, rows, [], stats)
    {
      ghost var t0, k: nat := rows, 0;
      TableEnds(u, t0, q, nonce);
      stats := Stats(0, 0, 0);
      var lastId: Id := NIL;
      var ids := SelectBatch(u, lastId, t0, q, k, nonce);
      while ids != []
        invariant k <= |q| && AtRow(u, t0, q, k, nonce, rows, ids, stats)
        decreases |q| - k
      {
        ghost var n := |ids|;
        lastId, ids, stats := TakeTurn(u, nonce, ids, stats, t0, q, k);
        k := k + n;
      }
    }

    /** `reencrypt_column` over a table nobody else writes: it comes to an end having scanned
        every untagged row past nil once and, unless it is a dry run, sealed exactly those. A
        limit of zero selects nothing. */
    method ReencryptColumn(u: Setup, nonce: Id -> nat) returns (stats: Stats)
      modifies this
      ensures u.batchSize == 0 ==> rows == old(rows) && stats == Stats(0, 0, 0)
      ensures u.batchSize > 0 ==> Done(u, old(rows), nonce, rows, stats)
    {
      if u.batchSize == 0 {
        return Stats(0, 0, 0);
      }
      ghost var q := ListingExists(rows);
      ghost var t0 := rows;
      stats := RunLoop(u, nonce, q);
      ghost var k: nat :| k <= |q| && AtRow(u, t0, q, k, nonce, rows, [], stats);
      AtRowEnds(u, t0, q, k, nonce, rows, stats);
    }
  }

  lemma AtRowEnds(u: Setup, t: Table, q: seq<Id>, k: nat, nonce: Id -> nat, now: Table, stats: Stats)
    requires Lists(t, q) && k <= |q| && AtRow(u, t, q, k, nonce, now, [], stats)
    requires u.batchSize > 0 && |q| == |Untagged(t, NIL)|
    ensures Done(u, t, nonce, now, stats)
  {
    LoopEnds(u, t, q, k, nonce);
  }

  /** The loop has dealt with the first k rows. */
  ghost predicate AtRow(u: Setup, t: Table, q: seq<Id>, k: nat, nonce: Id -> nat, now: Table, ids: seq<Id>,
                        stats: Stats)
    requires k <= |q|
  {
    (now, ids, stats) == (TableAt(u, t, q, k, nonce), NextIds(q, k, u.batchSize), StatsAt(u, k))
  }

  // ---- The quiet pass is a run of the step system ----

  lemma {:induction false} RunsJoin(u: Setup, w: World, es: seq<Event>, fs: seq<Event>)
    requires Legal(u, w, es) && Legal(u, After(u, w, es), fs)
    ensures Legal(u, w, es + fs) && After(u, w, es + fs) == After(u, After(u, w, es), fs)
    decreases |es|
  {
    if es == [] {
      assert es + fs == fs;
    } else {
      assert (es + fs)[1..] == es[1..] + fs;
      RunsJoin(u, Step(u, w, es[0]), es[1..], fs);
    }
  }

  lemma OneStep(u: Setup, w: World, e: Event)
    requires Enabled(u, w, e)
    ensures Legal(u, w, [e]) && After(u, w, [e]) == Step(u, w, e)
  {
    assert [e][1..] == [];
  }

  /** The rows listed to be rewritten still hold what was selected. */
  predicate Fresh(w: World, ids: seq<Id>) {
    && NoDup(ids) && |w.pass.todo| == |ids|
    && forall i | 0 <= i < |ids| :: ids[i] in w.table && w.pass.todo[i] == (ids[i], w.table[ids[i]])
  }

  /** The world once they are rewritten. */
  ghost function Rewritten(u: Setup, w: World, ids: seq<Id>, nonce: Id -> nat): World {
    w.(table := Sealed(u.cipher, w.table, Elems(ids), nonce),
       pass := w.pass.(todo := [], stats := w.pass.stats.(rewritten := w.pass.stats.rewritten + |ids|)))
  }

  lemma SealFirst(c: Cipher, t: Table, ids: seq<Id>, nonce: Id -> nat)
    requires NoDup(ids) && ids != [] && ids[0] in t
    ensures Sealed(c, t[ids[0] := Encrypt(c, nonce(ids[0]), t[ids[0]])], Elems(ids[1..]), nonce)
            == Sealed(c, t, Elems(ids), nonce)
  {
    assert ids == [ids[0]] + ids[1..];
    assert ids[0] !in ids[1..];
  }

  lemma RewriteFirst(u: Setup, w: World, ids: seq<Id>, nonce: Id -> nat)
    requires Fresh(w, ids) && ids != []
    ensures Enabled(u, w, Rewrite(nonce(ids[0])))
    ensures var w' := Step(u, w, Rewrite(nonce(ids[0])));
      Fresh(w', ids[1..]) && Rewritten(u, w', ids[1..], nonce) == Rewritten(u, w, ids, nonce)
  {
    SealFirst(u.cipher, w.table, ids, nonce);
    assert ids[0] !in ids[1..];
  }

  lemma {:induction false} RewriteAll(u: Setup, w: World, ids: seq<Id>, nonce: Id -> nat) returns (run: seq<Event>)
    requires Fresh(w, ids)
    ensures Legal(u, w, run) && After(u, w, run) == Rewritten(u, w, ids, nonce)
    decreases |ids|
  {
    if ids == [] {
      run := [];
      assert Sealed(u.cipher, w.table, {}, nonce) == w.table;
      assert w.pass.todo == [];
    } else {
      var e := Rewrite(nonce(ids[0]));
      RewriteFirst(u, w, ids, nonce);
      var rest := RewriteAll(u, Step(u, w, e), ids[1..], nonce);
      run := [e] + rest;
      OneStep(u, w, e);
      RunsJoin(u, w, [e], rest);
    }
  }

  /** The pass where the loop stands after the first k rows. */
  function PassAt(u: Setup, q: seq<Id>, k: nat): Pass
    requires k <= |q|
  {
    Pass(LastOf(q, k), [], StatsAt(u, k), false)
  }

  ghost function WorldAt(u: Setup, w: World, t: Table, q: seq<Id>, k: nat, nonce: Id -> nat): World
    requires k <= |q|
  {
    w.(table := TableAt(u, t, q, k, nonce), pass := PassAt(u, q, k))
  }

  /** What a selection does there, in terms of the original listing. */
  lemma SelectAt(u: Setup, w: World, t: Table, q: seq<Id>, k: nat, nonce: Id -> nat, ids: seq<Id>)
    requires Lists(t, q) && k <= |q| && ids == NextIds(q, k, u.batchSize)
    ensures var at := WorldAt(u, w, t, q, k, nonce);
      && Enabled(u, at, Select)
      && (ids == [] ==> Step(u, at, Select) == at.(pass := PassAt(u, q, k).(finished := true)))
      && (ids != [] ==>
            var p := Step(u, at, Select).pass;
            && Step(u, at, Select) == at.(pass := p) && p.lastId == ids[|ids| - 1] && !p.finished
            && p.stats == StatsAt(u, k).(scanned := k + |ids|)
            && if u.dryRun then p.todo == [] else Fresh(at.(pass := p), ids))
  {
    var at := WorldAt(u, w, t, q, k, nonce);
    NextBatch(u, t, q, k, nonce);
    NextFacts(q, k, u.batchSize);
    if ids != [] && !u.dryRun {
      forall i | 0 <= i < |ids|
        ensures |DoSelect(u, at).pass.todo| == |ids| && ids[i] in at.table
        ensures DoSelect(u, at).pass.todo[i] == (ids[i], at.table[ids[i]])
      {
        SelectedShape(u, at, i);
      }
    }
  }

  /** One turn of the loop is a selection and its rewrites. */
  lemma TurnIsRun(u: Setup, w: World, t: Table, q: seq<Id>, k: nat, nonce: Id -> nat, ids: seq<Id>)
    returns (run: seq<Event>)
    requires Lists(t, q) && k <= |q| && ids == NextIds(q, k, u.batchSize) && ids != []
    ensures k + |ids| <= |q| && Legal(u, WorldAt(u, w, t, q, k, nonce), run)
    ensures After(u, WorldAt(u, w, t, q, k, nonce), run) == WorldAt(u, w, t, q, k + |ids|, nonce)
  {
    var at := WorldAt(u, w, t, q, k, nonce);
    SelectAt(u, w, t, q, k, nonce, ids);
    Turn(u, t, q, k, nonce, ids);
    var selected := Step(u, at, Select);
    OneStep(u, at, Select);
    run := [Select];
    if !u.dryRun {
      var rest := RewriteAll(u, selected, ids, nonce);
      RunsJoin(u, at, [Select], rest);
      run := [Select] + rest;
    }
  }

  lemma {:induction false} RunFrom(u: Setup, w: World, t: Table, q: seq<Id>, k: nat, nonce: Id -> nat)
    returns (run: seq<Event>)
    requires u.batchSize > 0 && Lists(t, q) && k <= |q|
    ensures Legal(u, WorldAt(u, w, t, q, k, nonce), run)
    ensures After(u, WorldAt(u, w, t, q, k, nonce), run)
            == WorldAt(u, w, t, q, |q|, nonce).(pass := PassAt(u, q, |q|).(finished := true))
    decreases |q| - k
  {
    var at, ids := WorldAt(u, w, t, q, k, nonce), NextIds(q, k, u.batchSize);
    if ids == [] {
      SelectAt(u, w, t, q, k, nonce, ids);
      NextFacts(q, k, u.batchSize);
      OneStep(u, at, Select);
      run := [Select];
    } else {
      var turn := TurnIsRun(u, w, t, q, k, nonce, ids);
      var rest := RunFrom(u, w, t, q, k + |ids|, nonce);
      RunsJoin(u, at, turn, rest);
      run := turn + rest;
    }
  }

  /** What the loop over a quiet table computes is where a run of the step system ends in which nobody
      else writes: the same table, the same counts. */
  lemma QuietPassIsRun(u: Setup, w: World, nonce: Id -> nat) returns (run: seq<Event>)
    requires u.batchSize > 0 && Start(w)
    ensures Legal(u, w, run) && After(u, w, run).pass.finished
    ensures Done(u, w.table, nonce, After(u, w, run).table, After(u, w, run).pass.stats)
  {
    var q := ListingExists(w.table);
    TableEnds(u, w.table, q, nonce);
    assert WorldAt(u, w, w.table, q, 0, nonce) == w;
    run := RunFrom(u, w, w.table, q, 0, nonce);
    LoopEnds(u, w.table, q, |q|, nonce);
  }
}
