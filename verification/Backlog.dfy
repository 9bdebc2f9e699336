/** The loop that delivers a device its backlog, and that its rounds are steps of the relay. */
module Backlog {
  import opened Relay

  datatype Change = Change(seqno: Seqno, origin: Device)

  predicate Ordered(rows: seq<Change>) {
    forall i, j | 0 <= i < j < |rows| :: rows[i].seqno < rows[j].seqno
  }

  /** The rows past the cursor. */
  function Past(rows: seq<Change>, after: Seqno): seq<Change> {
    if rows == [] then []
    else if rows[0].seqno > after then rows
    else Past(rows[1..], after)
  }

  /** Others' rows, in journal order. */
  function Foreign(rows: seq<Change>, d: Device): seq<Change> {
    if rows == [] then []
    else (if rows[0].origin != d then [rows[0]] else []) + Foreign(rows[1..], d)
  }

  function Flatten(frames: seq<seq<Change>>): seq<Change> {
    if frames == [] then [] else Flatten(frames[..|frames| - 1]) + frames[|frames| - 1]
  }

  lemma {:induction false} ForeignConcat(a: seq<Change>, b: seq<Change>, d: Device)
    ensures Foreign(a + b, d) == Foreign(a, d) + Foreign(b, d)
  {
    if a == [] {
      assert a + b == b;
    } else {
      assert (a + b)[1..] == a[1..] + b;
      ForeignConcat(a[1..], b, d);
    }
  }

  lemma {:induction false} ForeignMeans(rows: seq<Change>, d: Device)
    ensures forall r :: r in Foreign(rows, d) <==> r in rows && r.origin != d
    ensures |Foreign(rows, d)| <= |rows|
  {
    if rows != [] {
      ForeignMeans(rows[1..], d);
      assert rows == [rows[0]] + rows[1..];
    }
  }

  lemma {:induction false} PastMeans(rows: seq<Change>, after: Seqno)
    requires Ordered(rows)
    ensures Ordered(Past(rows, after))
    ensures forall r :: r in Past(rows, after) <==> r in rows && r.seqno > after
  {
    if rows != [] && rows[0].seqno <= after {
      PastMeans(rows[1..], after);
      assert rows == [rows[0]] + rows[1..];
    } else if rows != [] {
      forall r | r in rows ensures r.seqno > after {
        var i :| 0 <= i < |rows| && rows[i] == r;
        assert i > 0 ==> rows[0].seqno < rows[i].seqno;
      }
    }
  }

  /** Advancing past a chunk leaves exactly the rest. */
  lemma {:induction false} PastChunk(rows: seq<Change>, after: Seqno, n: nat)
    requires Ordered(rows) && 0 < n <= |Past(rows, after)|
    ensures Past(rows, Past(rows, after)[n - 1].seqno) == Past(rows, after)[n..]
  {
    if rows[0].seqno <= after {
      PastChunk(rows[1..], after, n);
      PastMeans(rows[1..], after);
      assert Past(rows[1..], after)[n - 1] in Past(rows[1..], after);
    } else {
      PastFrom(rows, n - 1);
    }
  }

  lemma {:induction false} PastFrom(rows: seq<Change>, i: nat)
    requires Ordered(rows) && i < |rows|
    ensures Past(rows, rows[i].seqno) == rows[i + 1..]
  {
    if i == 0 {
      if |rows| > 1 {
        assert rows[1..][0] == rows[1];
      }
    } else {
      assert rows[0].seqno < rows[i].seqno;
      PastFrom(rows[1..], i - 1);
      assert rows[1..][i..] == rows[i + 1..];
    }
  }

  /** One frame holds the chunk's deliverable rows; an all-own chunk sends none. */
  method SendChunk(frames: seq<seq<Change>>, rows: seq<Change>, d: Device) returns (out: seq<seq<Change>>)
    requires |rows| <= CHUNK_SIZE && forall f | f in frames :: 0 < |f| <= CHUNK_SIZE
    ensures Flatten(out) == Flatten(frames) + Foreign(rows, d)
    ensures forall f | f in out :: 0 < |f| <= CHUNK_SIZE
  {
    var deliverable := Foreign(rows, d);
    ForeignMeans(rows, d);
    out := frames;
    if deliverable != [] {
      out := frames + [deliverable];
      assert out[..|out| - 1] == frames;
    }
  }

  function ChangesAfter(rows: seq<Change>, after: Seqno, limit: nat): seq<Change> {
    var rest := Past(rows, after);
    if |rest| <= limit then rest else rest[..limit]
  }

  /** After a chunk: what was sent plus what is left is still everything past the start. */
  lemma ChunkProgress(journal: seq<Change>, cursor: Seqno, rows: seq<Change>)
    requires Ordered(journal) && rows == ChangesAfter(journal, cursor, CHUNK_SIZE) && rows != []
    ensures var last := rows[|rows| - 1].seqno;
      cursor < last && AtRow(journal, last) && rows + Past(journal, last) == Past(journal, cursor)
            && |Past(journal, last)| < |Past(journal, cursor)|
  {
    var rest := Past(journal, cursor);
    PastMeans(journal, cursor);
    assert rows[|rows| - 1] in rest && rows[|rows| - 1] in journal;
    PastChunk(journal, cursor, |rows|);
  }

  class Store {
    var journal: seq<Change>
    var cursors: map<Device, Seqno>

    function Cursor(d: Device): Seqno
      reads this
    {
      if d in cursors then cursors[d] else 0
    }

    /** The stored cursor takes the greater of the two. */
    method AdvanceCursor(d: Device, to: Seqno)
      modifies this`cursors
      ensures cursors == old(cursors)[d := if old(Cursor(d)) < to then to else old(Cursor(d))]
    {
      if d !in cursors {
        cursors := cursors[d := to];
      } else if cursors[d] < to {
        cursors := cursors[d := to];
      }
    }

    /** One round of the loop: a non-empty chunk past the cursor is sent and passed. */
    method DeliverChunk(d: Device, cursor: Seqno, rows: seq<Change>, frames: seq<seq<Change>>)
      returns (lastSeq: Seqno, out: seq<seq<Change>>)
      requires Ordered(journal) && rows == ChangesAfter(journal, cursor, CHUNK_SIZE) && rows != []
      requires Cursor(d) <= cursor && forall f | f in frames :: 0 < |f| <= CHUNK_SIZE
      modifies this`cursors
      ensures cursor < lastSeq && AtRow(journal, lastSeq) && |Past(journal, lastSeq)| < |Past(journal, cursor)|
      ensures Flatten(out) + Foreign(Past(journal, lastSeq), d) == Flatten(frames) + Foreign(Past(journal, cursor), d)
      ensures forall f | f in out :: 0 < |f| <= CHUNK_SIZE
      ensures cursors == old(cursors)[d := lastSeq]
    {
      lastSeq := rows[|rows| - 1].seqno;
      ChunkProgress(journal, cursor, rows);
      ForeignConcat(rows, Past(journal, lastSeq), d);
      out := SendChunk(frames, rows, d);
      AdvanceCursor(d, lastSeq);
    }

    /** Sends, in chunks and in order, exactly the rows past the device's cursor that it did
        not write, and leaves its cursor at the end of the journal. */
    method DeliverBacklog(d: Device) returns (frames: seq<seq<Change>>)
      requires Ordered(journal)
      modifies this`cursors
      ensures Flatten(frames) == Foreign(Past(journal, old(Cursor(d))), d)
      ensures forall f | f in frames :: 0 < |f| <= CHUNK_SIZE
      ensures if Past(journal, old(Cursor(d))) == [] then cursors == old(cursors)
              else cursors == old(cursors)[d := journal[|journal| - 1].seqno]
    {
      var cursor := Cursor(d);
      ghost var start := cursor;
      frames := [];
      var rows := ChangesAfter(journal, cursor, CHUNK_SIZE);
      while rows != []
        invariant rows == ChangesAfter(journal, cursor, CHUNK_SIZE)
        invariant Flatten(frames) + Foreign(Past(journal, cursor), d) == Foreign(Past(journal, start), d)
        invariant forall f | f in frames :: 0 < |f| <= CHUNK_SIZE
        invariant if cursor == start then cursors == old(cursors)
                  else start < cursor && cursors == old(cursors)[d := cursor] && AtRow(journal, cursor)
        decreases |Past(journal, cursor)|
      {
        cursor, frames := DeliverChunk(d, cursor, rows, frames);
        rows := ChangesAfter(journal, cursor, CHUNK_SIZE);
      }
      if cursor != start {
        EndOfJournal(journal, cursor);
        RowPast(journal, start, cursor);
      }
    }
  }

  predicate AtRow(rows: seq<Change>, q: Seqno) {
    exists i :: 0 <= i < |rows| && rows[i].seqno == q
  }

  /** A cursor on a row with nothing past it is on the last row. */
  lemma EndOfJournal(rows: seq<Change>, q: Seqno)
    requires Ordered(rows) && AtRow(rows, q) && Past(rows, q) == []
    ensures q == rows[|rows| - 1].seqno
  {
    PastMeans(rows, q);
    assert rows[|rows| - 1] !in Past(rows, q);
    var i :| 0 <= i < |rows| && rows[i].seqno == q;
    assert rows[|rows| - 1].seqno <= q == rows[i].seqno;
  }

  lemma RowPast(rows: seq<Change>, a: Seqno, b: Seqno)
    requires Ordered(rows) && a < b && AtRow(rows, b)
    ensures Past(rows, a) != []
  {
    PastMeans(rows, a);
    var i :| 0 <= i < |rows| && rows[i].seqno == b;
    assert rows[i] in Past(rows, a);
  }

  // ---- The loop is a run of the step system ----

  /** The table the loop reads is the journal of the state. */
  predicate SameJournal(s: State, rows: seq<Change>) {
    && (forall r | r in rows :: r.seqno in s.journal && s.journal[r.seqno].origin == r.origin)
    && (forall q | q in s.journal :: AtRow(rows, q))
  }

  function Seqnos(rows: seq<Change>): seq<Seqno> {
    seq(|rows|, i requires 0 <= i < |rows| => rows[i].seqno)
  }

  function SeqnoSet(rows: seq<Change>): set<Seqno> {
    set r | r in rows :: r.seqno
  }

  lemma ChunkRow(rows: seq<Change>, after: Seqno, i: nat)
    requires Ordered(rows) && i < |ChangesAfter(rows, after, CHUNK_SIZE)|
    ensures ChangesAfter(rows, after, CHUNK_SIZE)[i] in rows && ChangesAfter(rows, after, CHUNK_SIZE)[i].seqno > after
    ensures ChangesAfter(rows, after, CHUNK_SIZE)[i] == Past(rows, after)[i]
  {
    PastMeans(rows, after);
    assert Past(rows, after)[i] in Past(rows, after);
  }

  lemma ChunkIncreases(rows: seq<Change>, after: Seqno)
    requires Ordered(rows)
    ensures Increasing(Seqnos(ChangesAfter(rows, after, CHUNK_SIZE)))
  {
    PastMeans(rows, after);
  }

  /** A row past the cursor that the chunk leaves out comes after a full chunk. */
  lemma RowBeyondChunk(rows: seq<Change>, after: Seqno, r: Change)
    requires Ordered(rows) && r in rows && r.seqno > after && r !in ChangesAfter(rows, after, CHUNK_SIZE)
    ensures |ChangesAfter(rows, after, CHUNK_SIZE)| == CHUNK_SIZE
    ensures forall i | 0 <= i < |ChangesAfter(rows, after, CHUNK_SIZE)| ::
          ChangesAfter(rows, after, CHUNK_SIZE)[i].seqno < r.seqno
  {
    var past, chunk := Past(rows, after), ChangesAfter(rows, after, CHUNK_SIZE);
    PastMeans(rows, after);
    var j :| 0 <= j < |past| && past[j] == r;
    assert forall i | 0 <= i < |chunk| :: chunk[i] in chunk && chunk[i] == past[i];
  }

  lemma LeftOutOfChunk(s: State, rows: seq<Change>, after: Seqno, q: Seqno)
    requires Ordered(rows) && SameJournal(s, rows) && q in s.journal && q > after
    requires q !in Seqnos(ChangesAfter(rows, after, CHUNK_SIZE))
    ensures |ChangesAfter(rows, after, CHUNK_SIZE)| == CHUNK_SIZE
    ensures forall r | r in Seqnos(ChangesAfter(rows, after, CHUNK_SIZE)) :: r < q
  {
    var chunk := ChangesAfter(rows, after, CHUNK_SIZE);
    assert AtRow(rows, q);
    var i :| 0 <= i < |rows| && rows[i].seqno == q;
    forall j | 0 <= j < |chunk| ensures chunk[j] != rows[i] {
      assert Seqnos(chunk)[j] in Seqnos(chunk);
    }
    RowBeyondChunk(rows, after, rows[i]);
  }

  /** What the loop fetches is what `changes_after` may return. */
  lemma FetchesAChunk(s: State, rows: seq<Change>, after: Seqno)
    requires Ordered(rows) && SameJournal(s, rows)
    ensures IsChunk(s.journal, after, CHUNK_SIZE, Seqnos(ChangesAfter(rows, after, CHUNK_SIZE)))
  {
    var qs := Seqnos(ChangesAfter(rows, after, CHUNK_SIZE));
    ChunkIncreases(rows, after);
    forall q | q in qs ensures q in s.journal && q > after {
      var i :| 0 <= i < |qs| && qs[i] == q;
      ChunkRow(rows, after, i);
    }
    forall q | q in s.journal && q > after && q !in qs ensures |qs| == CHUNK_SIZE && forall r | r in qs :: r < q {
      LeftOutOfChunk(s, rows, after, q);
    }
  }

  function Round(c: Conn, rows: seq<Change>): seq<Event> {
    [Fetch(c, Seqnos(rows)), Send(c), Advance(c)]
  }

  /** The state after a round that delivered the rows. */
  function HandedOver(s: State, c: Conn, rows: seq<Change>): State
    requires c in s.links && rows != []
  {
    var d := s.links[c].device;
    Advanced(s.(sent := Deliver(s, d, SeqnoSet(Foreign(rows, d)))), c, d, rows[|rows| - 1].seqno)
  }

  lemma SentOfRows(s: State, rows: seq<Change>, d: Device)
    requires LogOk(s) && forall r | r in rows :: r.seqno in s.journal && s.journal[r.seqno].origin == r.origin
    ensures Deliverable(s.log, Seqnos(rows), d) == SeqnoSet(Foreign(rows, d))
  {
    ForeignMeans(rows, d);
    forall q | q in Deliverable(s.log, Seqnos(rows), d) ensures q in SeqnoSet(Foreign(rows, d)) {
      var i :| 0 <= i < |rows| && rows[i].seqno == q;
      assert rows[i] in rows;
    }
    forall q | q in SeqnoSet(Foreign(rows, d)) ensures q in Deliverable(s.log, Seqnos(rows), d) {
      var r :| r in Foreign(rows, d) && r.seqno == q;
      var i :| 0 <= i < |rows| && rows[i] == r;
      assert Seqnos(rows)[i] == q;
    }
  }

  lemma ThreeSteps(s: State, a: Event, b: Event, c: Event)
    requires Enabled(s, a) && Enabled(Step(s, a), b) && Enabled(Step(Step(s, a), b), c)
    ensures Legal(s, [a, b, c]) && After(s, [a, b, c]) == Step(Step(Step(s, a), b), c)
  {
    var s1 := Step(s, a);
    var s2 := Step(s1, b);
    var s3 := Step(s2, c);
    assert [a, b, c][1..] == [b, c] && [b, c][1..] == [c] && [c][1..] == [];
    assert Legal(s3, []) && After(s3, []) == s3;
    assert Legal(s2, [c]) && After(s2, [c]) == s3;
    assert Legal(s1, [b, c]) && After(s1, [b, c]) == s3;
  }

  /** A connection that has fetched the rows sends those of other devices. */
  lemma SendStep(s: State, c: Conn, rows: seq<Change>)
    requires LogOk(s) && c in s.links && s.links[c].phase == Fetched(Seqnos(rows)) && rows != []
    requires forall r | r in rows :: r.seqno in s.journal && s.journal[r.seqno].origin == r.origin
    ensures Enabled(s, Send(c))
    ensures var l := s.links[c];
      Step(s, Send(c)) == s.(sent := Deliver(s, l.device, SeqnoSet(Foreign(rows, l.device))),
                             links := s.links[c := l.(phase := Delivered(rows[|rows| - 1].seqno))])
  {
    SentOfRows(s, rows, s.links[c].device);
  }

  lemma AdvanceStep(s: State, c: Conn, last: Seqno)
    requires c in s.links && s.links[c].phase == Delivered(last) && s.links[c].device in s.devices
    ensures Enabled(s, Advance(c)) && Step(s, Advance(c)) == Advanced(s, c, s.links[c].device, last)
  {
  }

  function Advanced(s: State, c: Conn, d: Device, last: Seqno): State {
    s.(cursors := s.cursors[d := if CursorOf(s, d) < last then last else CursorOf(s, d)],
       missed := if d in s.cursors then s.missed else s.missed[d := s.log.Keys - s.journal.Keys],
       links := s.links[c := Link(d, last, Idle)])
  }

  lemma HandedOverIs(s: State, c: Conn, rows: seq<Change>, s2: State, l: Link)
    requires c in s.links && rows != []
    requires var d := s.links[c].device;
      s2 == s.(sent := Deliver(s, d, SeqnoSet(Foreign(rows, d))), links := s.links[c := l])
    ensures Advanced(s2, c, s.links[c].device, rows[|rows| - 1].seqno) == HandedOver(s, c, rows)
  {
    LinkTwice(s.links, c, l, Link(s.links[c].device, rows[|rows| - 1].seqno, Idle));
  }

  lemma LinkTwice(links: map<Conn, Link>, c: Conn, a: Link, b: Link)
    ensures links[c := a][c := b] == links[c := b]
  {
  }

  lemma StepsOfRound(s: State, c: Conn, rows: seq<Change>)
    requires LogOk(s) && c in s.links && s.links[c].phase.Idle? && s.links[c].device in s.devices && rows != []
    requires IsChunk(s.journal, s.links[c].local, CHUNK_SIZE, Seqnos(rows))
    requires forall r | r in rows :: r.seqno in s.journal && s.journal[r.seqno].origin == r.origin
    ensures Legal(s, Round(c, rows)) && After(s, Round(c, rows)) == HandedOver(s, c, rows)
  {
    var qs, l, last := Seqnos(rows), s.links[c], rows[|rows| - 1].seqno;
    var s1 := s.(links := s.links[c := l.(phase := Fetched(qs))]);
    assert Step(s, Fetch(c, qs)) == s1;
    SendStep(s1, c, rows);
    var s2 := Step(s1, Send(c));
    assert s2.links == s.links[c := l.(phase := Delivered(last))];
    AdvanceStep(s2, c, last);
    HandedOverIs(s, c, rows, s2, l.(phase := Delivered(last)));
    ThreeSteps(s, Fetch(c, qs), Send(c), Advance(c));
  }

  /** One round of the loop is a fetch, a send and an advance. */
  lemma RoundIsRun(s: State, c: Conn, journal: seq<Change>)
    requires LogOk(s) && Ordered(journal) && SameJournal(s, journal)
    requires c in s.links && s.links[c].phase.Idle? && s.links[c].device in s.devices
    requires Past(journal, s.links[c].local) != []
    ensures var rows := ChangesAfter(journal, s.links[c].local, CHUNK_SIZE);
      rows != [] && Legal(s, Round(c, rows)) && After(s, Round(c, rows)) == HandedOver(s, c, rows)
  {
    FetchesAChunk(s, journal, s.links[c].local);
    ChunkInJournal(journal, s.links[c].local);
    StepsOfRound(s, c, ChangesAfter(journal, s.links[c].local, CHUNK_SIZE));
  }

  lemma ChunkInJournal(journal: seq<Change>, after: Seqno)
    requires Ordered(journal)
    ensures forall r | r in ChangesAfter(journal, after, CHUNK_SIZE) :: r in journal
  {
    PastMeans(journal, after);
  }

  lemma {:induction false} RunsJoin(s: State, es: seq<Event>, fs: seq<Event>)
    requires Legal(s, es) && Legal(After(s, es), fs)
    ensures Legal(s, es + fs) && After(s, es + fs) == After(After(s, es), fs)
    decreases |es|
  {
    if es == [] {
      assert es + fs == fs;
    } else {
      assert (es + fs)[1..] == es[1..] + fs;
      RunsJoin(Step(s, es[0]), es[1..], fs);
    }
  }

  lemma SeqnosJoin(a: seq<Change>, b: seq<Change>)
    ensures SeqnoSet(a + b) == SeqnoSet(a) + SeqnoSet(b)
  {
    forall q | q in SeqnoSet(a) + SeqnoSet(b) ensures q in SeqnoSet(a + b) {
      if q in SeqnoSet(a) {
        var r :| r in a && r.seqno == q;
        assert r in a + b;
      } else {
        var r :| r in b && r.seqno == q;
        assert r in a + b;
      }
    }
  }

  /** The state at the end of a backlog: everything past the cursor handed over. */
  ghost predicate Served(s: State, end: State, d: Device, journal: seq<Change>, cursor: Seqno) {
    var owed := Past(journal, cursor);
    && end.journal == s.journal
    && end.cursors == (if owed == [] then s.cursors else s.cursors[d := journal[|journal| - 1].seqno])
    && SentTo(end, d) == SentTo(s, d) + SeqnoSet(Foreign(owed, d))
  }

  lemma ServedNothing(s: State, d: Device, journal: seq<Change>, cursor: Seqno)
    requires Past(journal, cursor) == []
    ensures Served(s, s, d, journal, cursor)
  {
  }

  lemma HandedOverFacts(s: State, c: Conn, rows: seq<Change>)
    requires c in s.links && rows != [] && CursorOf(s, s.links[c].device) < rows[|rows| - 1].seqno
    ensures var d, s' := s.links[c].device, HandedOver(s, c, rows);
      && s'.journal == s.journal && s'.cursors == s.cursors[d := rows[|rows| - 1].seqno]
      && SentTo(s', d) == SentTo(s, d) + SeqnoSet(Foreign(rows, d))
  {
  }

  /** A round and the rest of the backlog are the backlog. */
  lemma ServedMore(s: State, s': State, end: State, d: Device, journal: seq<Change>, cursor: Seqno, rows: seq<Change>)
    requires Ordered(journal) && rows == ChangesAfter(journal, cursor, CHUNK_SIZE) && rows != []
    requires s'.journal == s.journal && s'.cursors == s.cursors[d := rows[|rows| - 1].seqno]
    requires SentTo(s', d) == SentTo(s, d) + SeqnoSet(Foreign(rows, d))
    requires Served(s', end, d, journal, rows[|rows| - 1].seqno)
    ensures Served(s, end, d, journal, cursor)
  {
    OwedSplits(journal, cursor, rows, d);
  }

  lemma OwedSplits(journal: seq<Change>, cursor: Seqno, rows: seq<Change>, d: Device)
    requires Ordered(journal) && rows == ChangesAfter(journal, cursor, CHUNK_SIZE) && rows != []
    ensures var last := rows[|rows| - 1].seqno;
      && Past(journal, cursor) != []
      && (Past(journal, last) == [] ==> journal != [] && last == journal[|journal| - 1].seqno)
      && SeqnoSet(Foreign(Past(journal, cursor), d))
         == SeqnoSet(Foreign(rows, d)) + SeqnoSet(Foreign(Past(journal, last), d))
  {
    var last := rows[|rows| - 1].seqno;
    ChunkProgress(journal, cursor, rows);
    ForeignConcat(rows, Past(journal, last), d);
    SeqnosJoin(Foreign(rows, d), Foreign(Past(journal, last), d));
    if Past(journal, last) == [] {
      EndOfJournal(journal, last);
    }
  }

  lemma HandedOverKeeps(s: State, c: Conn, journal: seq<Change>, rows: seq<Change>)
    requires LogOk(s) && SameJournal(s, journal) && c in s.links && rows != []
    requires s.links[c].local == CursorOf(s, s.links[c].device) && s.links[c].local < rows[|rows| - 1].seqno
    ensures var s' := HandedOver(s, c, rows);
      && LogOk(s') && SameJournal(s', journal) && c in s'.links && s'.links[c].phase.Idle?
      && s'.links[c].device == s.links[c].device && s'.devices == s.devices
      && s'.links[c].local == rows[|rows| - 1].seqno == CursorOf(s', s'.links[c].device)
  {
  }

  /** Where `DeliverBacklog` ends is where a run of the step system ends in which nobody else acts:
      the same cursors, and just the rows of the frames sent to the device. */
  lemma {:induction false} BacklogIsRun(s: State, c: Conn, journal: seq<Change>) returns (run: seq<Event>)
    requires LogOk(s) && Ordered(journal) && SameJournal(s, journal)
    requires c in s.links && s.links[c].phase.Idle? && s.links[c].device in s.devices
    requires s.links[c].local == CursorOf(s, s.links[c].device)
    ensures Legal(s, run)
    ensures Served(s, After(s, run), s.links[c].device, journal, CursorOf(s, s.links[c].device))
    decreases |Past(journal, s.links[c].local)|
  {
    var cursor := s.links[c].local;
    if Past(journal, cursor) == [] {
      run := [];
      ServedNothing(s, s.links[c].device, journal, cursor);
    } else {
      var rows := ChangesAfter(journal, cursor, CHUNK_SIZE);
      RoundIsRun(s, c, journal);
      ChunkProgress(journal, cursor, rows);
      HandedOverKeeps(s, c, journal, rows);
      var rest := BacklogIsRun(HandedOver(s, c, rows), c, journal);
      RunsJoin(s, Round(c, rows), rest);
      run := Round(c, rows) + rest;
      HandedOverFacts(s, c, rows);
      ServedMore(s, HandedOver(s, c, rows), After(s, run), s.links[c].device, journal, cursor, rows);
    }
  }
}
