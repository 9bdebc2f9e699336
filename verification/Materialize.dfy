/** Reading a note: the body is never stored, it is joined from the live lines. */
module Materialize {
  import opened Prelude
  import opened Text
  import opened LineOps

  datatype BodyResult = Body(text: Bytes) | TooLarge(total: nat) | Missing

  /** Ids in the order that show no text: tombstones, and ids with no row in the note. */
  function Hidden(lines: map<LineId, Line>, n: NoteId, ids: seq<LineId>): set<LineId> {
    set id | id in ids && id !in LiveLines(lines, n)
  }

  /** The ids whose text a read of the note shows, in order. */
  function LiveIds(db: Db, n: NoteId): seq<LineId>
    requires n in db.orders
  {
    Without(db.orders[n].ids, Hidden(db.lines, n, db.orders[n].ids))
  }

  function LiveTexts(lines: map<LineId, Line>, n: NoteId, ids: seq<LineId>): seq<Bytes> {
    if ids == [] then []
    else
      (if ids[0] in LiveLines(lines, n) then [lines[ids[0]].content] else [])
      + LiveTexts(lines, n, ids[1..])
  }

  /** `cap` zero means no limit. */
  function MaterializeBody(db: Db, n: NoteId, cap: nat): BodyResult {
    if n !in db.orders then Missing
    else
      var live := LiveTexts(db.lines, n, db.orders[n].ids);
      if cap > 0 && PredictedSize(live) > cap then TooLarge(PredictedSize(live)) else Body(Join(live))
  }

  /** The size check made before joining refuses exactly the bodies longer than a
      non-zero cap, and reports their true length. */
  lemma RefusedExactlyWhenTooLong(db: Db, n: NoteId, cap: nat)
    requires n in db.orders
    ensures var joined := Join(LiveTexts(db.lines, n, db.orders[n].ids));
      MaterializeBody(db, n, cap) == if cap > 0 && |joined| > cap then TooLarge(|joined|) else Body(joined)
  {
    PredictedSizeIsExact(LiveTexts(db.lines, n, db.orders[n].ids));
  }

  lemma {:induction false} WithoutSame<T>(s: seq<T>, g: set<T>, h: set<T>)
    requires forall x | x in s :: x in g <==> x in h
    ensures Without(s, g) == Without(s, h)
  {
    if s != [] {
      WithoutSame(s[1..], g, h);
    }
  }

  /** The texts shown are those of the live ids, one for one. */
  lemma {:induction false} TextsOfLiveIds(lines: map<LineId, Line>, n: NoteId, ids: seq<LineId>)
    ensures var live := Without(ids, Hidden(lines, n, ids));
      && |LiveTexts(lines, n, ids)| == |live|
      && forall i | 0 <= i < |live| ::
            live[i] in LiveLines(lines, n) && LiveTexts(lines, n, ids)[i] == lines[live[i]].content
  {
    if ids != [] {
      TextsOfLiveIds(lines, n, ids[1..]);
      WithoutSame(ids[1..], Hidden(lines, n, ids), Hidden(lines, n, ids[1..]));
    }
  }

  lemma {:induction false} SameLiveTexts(lines: map<LineId, Line>, lines': map<LineId, Line>, n: NoteId,
                                         ids: seq<LineId>)
    requires LiveLines(lines, n) == LiveLines(lines', n)
    requires forall l | l in LiveLines(lines, n) :: lines[l].content == lines'[l].content
    ensures LiveTexts(lines, n, ids) == LiveTexts(lines', n, ids)
  {
    if ids != [] {
      SameLiveTexts(lines, lines', n, ids[1..]);
    }
  }

  /** Ids that show nothing can leave the order without changing the body. */
  lemma {:induction false} DropHidden(lines: map<LineId, Line>, n: NoteId, ids: seq<LineId>, gone: set<LineId>)
    requires forall id | id in gone :: id !in LiveLines(lines, n)
    ensures LiveTexts(lines, n, Without(ids, gone)) == LiveTexts(lines, n, ids)
  {
    if ids != [] {
      DropHidden(lines, n, ids[1..], gone);
      var rest := Without(ids[1..], gone);
      if ids[0] !in gone {
        assert ([ids[0]] + rest)[1..] == rest;
      } else {
        assert Without(ids, gone) == rest;
      }
    }
  }
}
