/**
 One tombstone collection with nothing interleaved: exactly what it takes, that no read notices,
 and that it is a run of the step system.
 */
module Collection {
  import opened Prelude
  import opened Materialize
  import opened LineEngine
  import opened NoteStore
  import O = LineOps

  predicate OldTombstone(db: O.Db, l: O.LineId, cutoff: Time) {
    l in db.lines && db.lines[l].deletedAt.Some? && db.lines[l].deletedAt.value < cutoff
  }

  /** The rows that go are exactly the tombstones dated before the cutoff; every other row stays as it
      is. Each order keeps its version and loses exactly the ids of its own deleted rows. */
  lemma CollectionTakes(db: O.Db, cutoff: Time)
    ensures var db' := Collected(db, cutoff);
      && (forall l :: l in db'.lines <==> l in db.lines && !OldTombstone(db, l, cutoff))
      && (forall l | l in db'.lines :: db'.lines[l] == db.lines[l])
      && db'.orders.Keys == db.orders.Keys
      && forall n | n in db.orders ::
           && db'.orders[n].vv == db.orders[n].vv && db'.orders[n].updatedAt == db.orders[n].updatedAt
           && db'.orders[n].lastWriter == db.orders[n].lastWriter
           && forall id :: id in db'.orders[n].ids
                <==> id in db.orders[n].ids && !(OldTombstone(db, id, cutoff) && db.lines[id].note == n)
  {
    var dead := Expired(db.lines, cutoff);
    forall n, id | n in db.orders
      ensures id in Collected(db, cutoff).orders[n].ids
              <==> id in db.orders[n].ids && !(OldTombstone(db, id, cutoff) && db.lines[id].note == n)
    {
      WithoutMembers(db.orders[n].ids, OfNote(db.lines, dead, n));
    }
  }

  /** No read of any note notices. */
  lemma CollectionKeepsBodies(db: O.Db, cutoff: Time, n: O.NoteId)
    requires n in db.orders
    ensures var db' := Collected(db, cutoff);
      n in db'.orders && LiveTexts(db'.lines, n, db'.orders[n].ids) == LiveTexts(db.lines, n, db.orders[n].ids)
  {
    var db', dead := Collected(db, cutoff), Expired(db.lines, cutoff);
    CollectionTakes(db, cutoff);
    assert O.LiveLines(db'.lines, n) == O.LiveLines(db.lines, n);
    SameLiveTexts(db.lines, db'.lines, n, db'.orders[n].ids);
    DropHidden(db.lines, n, db.orders[n].ids, OfNote(db.lines, dead, n));
  }

  // ---- It is a run ----

  /** The orders with the notes in `done` compacted. */
  function Partly(db: O.Db, dead: set<O.LineId>, done: set<O.NoteId>): map<O.NoteId, O.Order> {
    map n | n in db.orders :: if n in done then Compacted(db.orders[n], OfNote(db.lines, dead, n)) else db.orders[n]
  }

  function Hit(lines: map<O.LineId, O.Line>, dead: set<O.LineId>): set<O.NoteId>
    requires dead <= lines.Keys
  {
    set id | id in dead :: lines[id].note
  }

  /** The job of a note that lost a row. */
  lemma JobOf(lines: map<O.LineId, O.Line>, dead: set<O.LineId>, n: O.NoteId)
    requires dead <= lines.Keys && n in Hit(lines, dead)
    ensures Compaction(n, OfNote(lines, dead, n)) in CompactionsOf(lines, dead)
  {
    var id :| id in dead && lines[id].note == n;
    var same := set j | j in dead && lines[j].note == lines[id].note;
    assert Compaction(lines[id].note, same) in CompactionsOf(lines, dead);
    assert same == OfNote(lines, dead, n);
  }

  lemma CompactOne(db: O.Db, dead: set<O.LineId>, done: set<O.NoteId>, n: O.NoteId, w: World)
    requires w.txns == map[] && w.db == O.Db(w.db.lines, Partly(db, dead, done)) && n !in done
    requires Compaction(n, OfNote(db.lines, dead, n)) in w.queued
    ensures var e := GcCompact(Compaction(n, OfNote(db.lines, dead, n)));
      && Enabled(w, e)
      && Step(w, e) == w.(queued := w.queued - {e.job}, db := O.Db(w.db.lines, Partly(db, dead, done + {n})))
  {
    var e := GcCompact(Compaction(n, OfNote(db.lines, dead, n)));
    assert Step(w, e).db.orders == Partly(db, dead, done + {n});
  }

  /** The notes still to do, one after the other. */
  lemma {:induction false} CompactAll(db: O.Db, dead: set<O.LineId>, done: set<O.NoteId>, todo: set<O.NoteId>, w: World)
    returns (run: seq<Event>)
    requires w.txns == map[] && w.db == O.Db(w.db.lines, Partly(db, dead, done)) && done !! todo
    requires forall n | n in todo :: Compaction(n, OfNote(db.lines, dead, n)) in w.queued
    ensures Legal(w, run) && After(w, run).db == O.Db(w.db.lines, Partly(db, dead, done + todo))
    ensures forall i | 0 <= i < |run| :: run[i].GcCompact?
    decreases todo
  {
    if todo == {} {
      run := [];
      assert done + todo == done;
    } else {
      var n :| n in todo;
      var e := GcCompact(Compaction(n, OfNote(db.lines, dead, n)));
      CompactOne(db, dead, done, n, w);
      forall m | m in todo - {n} ensures Compaction(m, OfNote(db.lines, dead, m)) in Step(w, e).queued {
        assert Compaction(m, OfNote(db.lines, dead, m)) != e.job;
      }
      var rest := CompactAll(db, dead, done + {n}, todo - {n}, Step(w, e));
      run := [e] + rest;
      assert run[1..] == rest;
      assert done + {n} + (todo - {n}) == done + todo;
    }
  }

  lemma PartlyAll(db: O.Db, cutoff: Time)
    ensures var dead := Expired(db.lines, cutoff);
      Partly(db, dead, Hit(db.lines, dead)) == Collected(db, cutoff).orders && Partly(db, dead, {}) == db.orders
  {
    var dead := Expired(db.lines, cutoff);
    forall n | n in db.orders && n !in Hit(db.lines, dead)
      ensures Compacted(db.orders[n], OfNote(db.lines, dead, n)) == db.orders[n]
    {
      assert OfNote(db.lines, dead, n) == {};
      WithoutNothing(db.orders[n].ids, {});
    }
  }

  /** A collection ends at the tables of a legal run: one deletion of exactly the old tombstones, then
      compactions. */
  lemma CollectionIsRun(w: World, cutoff: Time) returns (run: seq<Event>)
    requires w.txns == map[]
    ensures Legal(w, run) && After(w, run).db == Collected(w.db, cutoff)
    ensures run != [] && run[0] == GcDelete(Expired(w.db.lines, cutoff), cutoff)
    ensures forall i | 1 <= i < |run| :: run[i].GcCompact?
  {
    var db, dead := w.db, Expired(w.db.lines, cutoff);
    var e := GcDelete(dead, cutoff);
    var w' := Step(w, e);
    PartlyAll(db, cutoff);
    forall n | n in Hit(db.lines, dead) ensures Compaction(n, OfNote(db.lines, dead, n)) in w'.queued {
      JobOf(db.lines, dead, n);
    }
    var rest := CompactAll(db, dead, {}, Hit(db.lines, dead), w');
    run := [e] + rest;
    assert run[1..] == rest;
    assert {} + Hit(db.lines, dead) == Hit(db.lines, dead);
  }
}
