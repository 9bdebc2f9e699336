/**
 One collaboration session of one note on one instance: who is subscribed, what is queued for
 whom, and the batches of applied ops that keep every subscriber's copy of the note current.
 */
module Session {
  import opened Prelude
  import opened VersionVectors
  import opened LineOps

  type Conn = nat

  const OUTBOUND_CAPACITY: nat := 256

  // ---- The note and its copies ----

  /** What a snapshot of the note holds: its order and all its lines, tombstones included. */
  function NotePart(db: Db, note: NoteId): Db {
    Db(LinesOf(db.lines, note), OrderOf(db.orders, note))
  }

  /** The ops of one message in one transaction; an op that fails abandons all of them. */
  function ApplyBatch(db: Db, note: NoteId, device: Writer, ops: seq<LineOp>): Option<(Db, seq<LineOp>)>
    decreases |ops|
  {
    if ops == [] then Some((db, []))
    else
      var (db', o) := ApplyOp(db, note, device, ops[0]);
      if o.Failed? then None
      else
        var rest := ApplyBatch(db', note, device, ops[1..]);
        if rest.None? then None
        else Some((rest.value.0, (if o.Applied? then [ops[0]] else []) + rest.value.1))
  }

  /** What is left of a batch, after some of it has been applied. */
  function Continue(applied: seq<LineOp>, rest: Option<(Db, seq<LineOp>)>): Option<(Db, seq<LineOp>)> {
    if rest.None? then None else Some((rest.value.0, applied + rest.value.1))
  }

  lemma ContinueFromStart(rest: Option<(Db, seq<LineOp>)>)
    ensures Continue([], rest) == rest
  {
    if rest.Some? {
      assert [] + rest.value.1 == rest.value.1;
    }
  }

  lemma ContinueJoins(a: seq<LineOp>, b: seq<LineOp>, rest: Option<(Db, seq<LineOp>)>)
    ensures Continue(a, Continue(b, rest)) == Continue(a + b, rest)
  {
    if rest.Some? {
      assert a + (b + rest.value.1) == (a + b) + rest.value.1;
    }
  }

  lemma {:induction false} ContinueOnce(applied: seq<LineOp>, db: Db, note: NoteId, device: Writer, ops: seq<LineOp>)
    requires ops != []
    ensures var (next, o) := ApplyOp(db, note, device, ops[0]);
      Continue(applied, ApplyBatch(db, note, device, ops))
      == if o.Failed? then None
         else Continue(if o.Applied? then applied + [ops[0]] else applied, ApplyBatch(next, note, device, ops[1..]))
  {
    var (next, o) := ApplyOp(db, note, device, ops[0]);
    var one, rest := if o.Applied? then [ops[0]] else [], ApplyBatch(next, note, device, ops[1..]);
    ContinueJoins(applied, one, rest);
    assert applied + [] == applied;
    assert !o.Failed? ==> ApplyBatch(db, note, device, ops) == Continue(one, rest);
  }

  /** The loop of the Op message: applied ops are collected, the transaction rolls back on an error. */
  method SubmitOps(db: Db, note: NoteId, device: Writer, ops: seq<LineOp>) returns (r: Option<(Db, seq<LineOp>)>)
    ensures r == ApplyBatch(db, note, device, ops)
  {
    var now, applied := db, [];
    assert ops[0..] == ops;
    ContinueFromStart(ApplyBatch(db, note, device, ops));
    for i := 0 to |ops|
      invariant ApplyBatch(db, note, device, ops) == Continue(applied, ApplyBatch(now, note, device, ops[i..]))
    {
      assert ops[i..][1..] == ops[i + 1..];
      ContinueOnce(applied, now, note, device, ops[i..]);
      var (next, o) := ApplyOp(now, note, device, ops[i]);
      match o {
        case Failed => return None;
        case Applied => applied := applied + [ops[i]];
        case _ =>
      }
      now := next;
    }
    assert applied + [] == applied;
    r := Some((now, applied));
  }

  /** A copy follows along by applying each op on behalf of the device that wrote it. */
  function Replay(copy: Db, note: NoteId, ops: seq<LineOp>): Db
    decreases |ops|
  {
    if ops == [] then copy else Replay(ApplyOp(copy, note, ops[0].lastWriter, ops[0]).0, note, ops[1..])
  }

  lemma {:induction false} ReplayConcat(copy: Db, note: NoteId, a: seq<LineOp>, b: seq<LineOp>)
    ensures Replay(copy, note, a + b) == Replay(Replay(copy, note, a), note, b)
    decreases |a|
  {
    if a == [] {
      assert a + b == b;
    } else {
      assert (a + b)[1..] == a[1..] + b;
      ReplayConcat(ApplyOp(copy, note, a[0].lastWriter, a[0]).0, note, a[1..], b);
    }
  }

  lemma SameLive(db: Db, note: NoteId)
    ensures LiveLines(NotePart(db, note).lines, note) == LiveLines(db.lines, note)
  {
  }

  lemma SameReads(db: Db, note: NoteId, device: Writer, op: LineOp)
    requires ApplyOp(db, note, device, op).1.Applied?
    ensures ReadsOf(NotePart(db, note), note, op) == ReadsOf(db, note, op)
  {
    SameLive(db, note);
  }

  lemma SameEffect(db: Db, note: NoteId, device: Writer, op: LineOp, r: Reads)
    requires Decide(r, note, device, op).Applied? && r == ReadsOf(db, note, op)
    ensures Effect(NotePart(db, note), note, device, op, r) == NotePart(Effect(db, note, device, op, r), note)
  {
    if op.Insert? {
      PartWithLine(db.lines, note, op.lineId, NewLine(note, op));
      PartWithOrder(db, note, NewOrder(r.order.value, op));
    } else if op.Move? {
      PartWithOrder(db, note, NewOrder(r.order.value, op));
    } else {
      PartWithLine(db.lines, note, op.lineId, EditedLine(db.lines[op.lineId], r.line.value.vv, op));
    }
  }

  function LinesOf(lines: map<LineId, Line>, note: NoteId): map<LineId, Line> {
    map l | l in lines && lines[l].note == note :: lines[l]
  }

  lemma PartWithLine(lines: map<LineId, Line>, note: NoteId, id: LineId, line: Line)
    requires line.note == note
    ensures LinesOf(lines[id := line], note) == LinesOf(lines, note)[id := line]
  {
  }

  lemma PartWithOrder(db: Db, note: NoteId, order: Order)
    ensures OrderOf(db.orders[note := order], note) == OrderOf(db.orders, note)[note := order]
  {
  }

  function OrderOf(orders: map<NoteId, Order>, note: NoteId): map<NoteId, Order> {
    map n | n in orders && n == note :: orders[n]
  }

  /** An applied op does to the note's part what it does to the whole. */
  lemma PartFollows(db: Db, note: NoteId, device: Writer, op: LineOp)
    requires ApplyOp(db, note, device, op).1.Applied?
    ensures op.lastWriter == device
    ensures ApplyOp(NotePart(db, note), note, device, op) == (NotePart(ApplyOp(db, note, device, op).0, note), Applied)
  {
    SameReads(db, note, device, op);
    SameEffect(db, note, device, op, ReadsOf(db, note, op));
  }

  /** An op on another note leaves this one alone. */
  lemma PartUntouched(db: Db, note: NoteId, other: NoteId, device: Writer, op: LineOp)
    requires other != note
    ensures NotePart(ApplyOp(db, other, device, op).0, note) == NotePart(db, note)
  {
  }

  /** Replaying only the ops that were applied brings a copy of the note to exactly where the
      whole message brought the note: the ignored and invalid ones are no loss. */
  lemma {:induction false} AppliedOpsSuffice(db: Db, note: NoteId, device: Writer, ops: seq<LineOp>)
    requires ApplyBatch(db, note, device, ops).Some?
    ensures var (db', applied) := ApplyBatch(db, note, device, ops).value;
      Replay(NotePart(db, note), note, applied) == NotePart(db', note)
    decreases |ops|
  {
    if ops != [] {
      var (mid, o) := ApplyOp(db, note, device, ops[0]);
      AppliedOpsSuffice(mid, note, device, ops[1..]);
      if o.Applied? {
        PartFollows(db, note, device, ops[0]);
        var applied := ApplyBatch(mid, note, device, ops[1..]).value.1;
        assert ([ops[0]] + applied)[1..] == applied;
      } else {
        assert mid == db;
        assert [] + ApplyBatch(mid, note, device, ops[1..]).value.1 == ApplyBatch(mid, note, device, ops[1..]).value.1;
      }
    }
  }

  // ---- Queues and subscribers ----

  datatype Message = Welcome(snapshot: Db) | Batch(serverSeq: nat, ops: seq<LineOp>) | Chatter

  /** What each open connection has queued; a closed one takes nothing. */
  type Queues = map<Conn, seq<Message>>

  predicate Room(queues: Queues, c: Conn) {
    c in queues && |queues[c]| < OUTBOUND_CAPACITY
  }

  /** The subscribers a broadcast cannot reach. */
  function Slow(subscribers: set<Conn>, queues: Queues, skip: Option<Conn>): set<Conn> {
    set c | c in subscribers && Some(c) != skip && !Room(queues, c)
  }

  function Reached(subscribers: set<Conn>, queues: Queues, skip: Option<Conn>): set<Conn> {
    set c | c in subscribers && Some(c) != skip && Room(queues, c)
  }

  function SendAll(queues: Queues, to: set<Conn>, m: Message): Queues {
    map c | c in queues :: if c in to then queues[c] + [m] else queues[c]
  }

  // ---- The session as a step system ----

  /** What a subscriber has had since its Welcome: where that stands in all it was sent, the
      session's number then, and the batches in order, its own among them. */
  datatype Feed = Feed(mark: nat, snapshot: Db, base: nat, batches: seq<Published>)

  datatype Published = Published(serverSeq: nat, ops: seq<LineOp>, own: bool)

  /** `log` is everything ever queued for a connection, in order. */
  datatype State = State(db: Db, seqNo: nat, subscribers: set<Conn>, queues: Queues, log: Queues, feeds: map<Conn,
                         Feed>)

  datatype Event =
    | Open(conn: Conn)
    | Drain(conn: Conn)
    | Close(conn: Conn)
    | Say(conn: Conn)
    | Join(conn: Conn)
    | Leave(conn: Conn)
    | Submit(conn: Conn, device: Writer, ops: seq<LineOp>)
    | Elsewhere(other: NoteId, device: Writer, op: LineOp)

  function Unregister(s: State, gone: set<Conn>): State {
    s.(subscribers := s.subscribers - gone, feeds := s.feeds - gone)
  }

  function Deliver(s: State, to: set<Conn>, m: Message): State {
    s.(queues := SendAll(s.queues, to, m), log := SendAll(s.log, to, m))
  }

  function TrySend(s: State, c: Conn, m: Message): State {
    if Room(s.queues, c) then Deliver(s, {c}, m) else s
  }

  function LogLength(s: State, c: Conn): nat {
    if c in s.log then |s.log[c]| else 0
  }

  /** The snapshot is read, the subscriber entered and the Welcome queued under the apply lock;
      a Welcome that finds no room is dropped. */
  function DoJoin(s: State, note: NoteId, c: Conn): State {
    if note !in s.db.orders then s
    else
      var snapshot := NotePart(s.db, note);
      var s' := TrySend(s.(subscribers := s.subscribers + {c}), c, Welcome(snapshot));
      if Room(s.queues, c) then s'.(feeds := s.feeds[c := Feed(LogLength(s, c), snapshot, s.seqNo, [])]) else s'
  }

  function Extend(feed: Feed, p: Published): Feed {
    feed.(batches := feed.batches + [p])
  }

  /** Everyone but the sender is sent the applied ops, and whoever has no room is dropped. */
  function Publish(s: State, c: Conn, ops: seq<LineOp>): State {
    var number := s.seqNo + 1;
    var slow := Slow(s.subscribers, s.queues, Some(c));
    var s' := Deliver(s, Reached(s.subscribers, s.queues, Some(c)), Batch(number, ops));
    s'.(seqNo := number, subscribers := s.subscribers - slow,
        feeds := map k | k in s.feeds && k !in slow :: Extend(s.feeds[k], Published(number, ops, k == c)))
  }

  function DoSubmit(s: State, note: NoteId, c: Conn, device: Writer, ops: seq<LineOp>): State {
    var r := ApplyBatch(s.db, note, device, ops);
    if r.None? then s
    else
      var s' := s.(db := r.value.0);
      if r.value.1 == [] then s' else Publish(s', c, r.value.1)
  }

  function Step(s: State, note: NoteId, e: Event): State {
    match e
    case Open(c) => if c in s.log then s else s.(queues := s.queues[c := []], log := s.log[c := []])
    case Drain(c) => if c in s.queues && s.queues[c] != [] then s.(queues := s.queues[c := s.queues[c][1..]]) else s
    case Close(c) => Unregister(s, {c}).(queues := s.queues - {c})
    case Say(c) => TrySend(s, c, Chatter)
    case Join(c) => DoJoin(s, note, c)
    case Leave(c) => Unregister(s, {c})
    case Submit(c, device, ops) => DoSubmit(s, note, c, device, ops)
    case Elsewhere(other, device, op) =>
      if other == note then s else s.(db := ApplyOp(s.db, other, device, op).0)
  }

  function Run(s: State, note: NoteId, es: seq<Event>): State
    decreases |es|
  {
    if es == [] then s else Run(Step(s, note, es[0]), note, es[1..])
  }

  // ---- Every subscriber is current ----

  function AllOps(batches: seq<Published>): seq<LineOp>
    decreases |batches|
  {
    if batches == [] then [] else AllOps(batches[..|batches| - 1]) + batches[|batches| - 1].ops
  }

  /** The feed replays to the note as it stands, and its numbers run without a gap from the
      Welcome to now. */
  predicate Current(db: Db, seqNo: nat, note: NoteId, feed: Feed) {
    && Replay(feed.snapshot, note, AllOps(feed.batches)) == NotePart(db, note)
    && feed.base + |feed.batches| == seqNo
    && forall i | 0 <= i < |feed.batches| :: feed.batches[i].serverSeq == feed.base + i + 1
  }

  /** The batches among some messages. */
  function Heard(messages: seq<Message>): seq<Published>
    decreases |messages|
  {
    if messages == [] then []
    else
      var m := messages[|messages| - 1];
      Heard(messages[..|messages| - 1]) + if m.Batch? then [Published(m.serverSeq, m.ops, false)] else []
  }

  function FromOthers(batches: seq<Published>): seq<Published>
    decreases |batches|
  {
    if batches == [] then []
    else
      var p := batches[|batches| - 1];
      FromOthers(batches[..|batches| - 1]) + if p.own then [] else [p]
  }

  /** Whatever of the feed is not the subscriber's own was queued for it, after its Welcome and in
      that order, and no other batch was. */
  predicate Told(log: seq<Message>, feed: Feed) {
    && feed.mark < |log| && log[feed.mark] == Welcome(feed.snapshot)
    && Heard(log[feed.mark + 1..]) == FromOthers(feed.batches)
  }

  predicate Inv(s: State, note: NoteId) {
    && s.feeds.Keys <= s.subscribers && s.feeds.Keys <= s.log.Keys && s.queues.Keys <= s.log.Keys
    && forall c | c in s.feeds :: Current(s.db, s.seqNo, note, s.feeds[c]) && Told(s.log[c], s.feeds[c])
  }

  lemma {:induction false} ExtendKeepsCurrent(db: Db, seqNo: nat, note: NoteId, feed: Feed, db': Db,
                                              ops: seq<LineOp>, own: bool)
    requires Current(db, seqNo, note, feed) && Replay(NotePart(db, note), note, ops) == NotePart(db', note)
    ensures Current(db', seqNo + 1, note, Extend(feed, Published(seqNo + 1, ops, own)))
  {
    var more := Extend(feed, Published(seqNo + 1, ops, own));
    assert more.batches[..|feed.batches|] == feed.batches;
    ReplayConcat(feed.snapshot, note, AllOps(feed.batches), ops);
  }

  lemma HeardMore(messages: seq<Message>, m: Message)
    ensures Heard(messages + [m])
            == Heard(messages) + if m.Batch? then [Published(m.serverSeq, m.ops, false)] else []
  {
    assert (messages + [m])[..|messages|] == messages;
  }

  lemma FromOthersMore(batches: seq<Published>, p: Published)
    ensures FromOthers(batches + [p]) == FromOthers(batches) + if p.own then [] else [p]
  {
    assert (batches + [p])[..|batches|] == batches;
  }

  /** One more message, and the batch it carries if it carries one. */
  lemma {:induction false} ToldMore(log: seq<Message>, feed: Feed, m: Message)
    requires Told(log, feed)
    ensures !m.Batch? ==> Told(log + [m], feed)
    ensures m.Batch? ==> Told(log + [m], Extend(feed, Published(m.serverSeq, m.ops, false)))
  {
    var tail := log[feed.mark + 1..];
    assert (log + [m])[feed.mark + 1..] == tail + [m];
    HeardMore(tail, m);
    if m.Batch? {
      FromOthersMore(feed.batches, Published(m.serverSeq, m.ops, false));
    } else {
      assert Heard(tail) + [] == Heard(tail);
    }
  }

  lemma {:induction false} ToldOwn(log: seq<Message>, feed: Feed, p: Published)
    requires Told(log, feed) && p.own
    ensures Told(log, Extend(feed, p))
  {
    FromOthersMore(feed.batches, p);
  }

  /** A subscriber that survives a broadcast had the message queued, unless it is the sender. */
  lemma {:induction false} PublishShape(s: State, c: Conn, ops: seq<LineOp>, k: Conn)
    requires s.feeds.Keys <= s.subscribers && s.feeds.Keys <= s.log.Keys && k in Publish(s, c, ops).feeds
    ensures var s', n := Publish(s, c, ops), s.seqNo + 1;
      && k in s.feeds && k in s'.log && s'.db == s.db && s'.seqNo == n
      && s'.feeds[k] == Extend(s.feeds[k], Published(n, ops, k == c))
      && s'.log[k] == if k == c then s.log[k] else s.log[k] + [Batch(n, ops)]
  {
  }

  lemma {:induction false} PublishKeepsTold(s: State, c: Conn, ops: seq<LineOp>, k: Conn)
    requires s.feeds.Keys <= s.subscribers && s.feeds.Keys <= s.log.Keys && k in Publish(s, c, ops).feeds
    requires k in s.feeds && Told(s.log[k], s.feeds[k])
    ensures var s' := Publish(s, c, ops); k in s'.log && Told(s'.log[k], s'.feeds[k])
  {
    PublishShape(s, c, ops, k);
    if k == c {
      ToldOwn(s.log[k], s.feeds[k], Published(s.seqNo + 1, ops, true));
    } else {
      ToldMore(s.log[k], s.feeds[k], Batch(s.seqNo + 1, ops));
    }
  }

  lemma {:induction false} PublishKeepsCurrent(s: State, note: NoteId, db: Db, c: Conn, ops: seq<LineOp>, k: Conn)
    requires s.feeds.Keys <= s.subscribers && s.feeds.Keys <= s.log.Keys && k in Publish(s, c, ops).feeds
    requires k in s.feeds && Current(db, s.seqNo, note, s.feeds[k])
    requires Replay(NotePart(db, note), note, ops) == NotePart(s.db, note)
    ensures var s' := Publish(s, c, ops); Current(s'.db, s'.seqNo, note, s'.feeds[k])
  {
    PublishShape(s, c, ops, k);
    ExtendKeepsCurrent(db, s.seqNo, note, s.feeds[k], s.db, ops, k == c);
  }

  lemma {:induction false} SubmitKeeps(s: State, note: NoteId, c: Conn, device: Writer, ops: seq<LineOp>)
    requires Inv(s, note)
    ensures Inv(DoSubmit(s, note, c, device, ops), note)
  {
    var r := ApplyBatch(s.db, note, device, ops);
    if r.Some? {
      AppliedOpsSuffice(s.db, note, device, ops);
      if r.value.1 == [] {
        assert NotePart(r.value.0, note) == NotePart(s.db, note);
      } else {
        var s' := Publish(s.(db := r.value.0), c, r.value.1);
        forall k | k in s'.feeds ensures k in s'.log && Current(s'.db, s'.seqNo, note, s'.feeds[k])
              && Told(s'.log[k], s'.feeds[k]) {
          PublishShape(s.(db := r.value.0), c, r.value.1, k);
          PublishKeepsTold(s.(db := r.value.0), c, r.value.1, k);
          PublishKeepsCurrent(s.(db := r.value.0), note, s.db, c, r.value.1, k);
        }
      }
    }
  }

  lemma {:induction false} JoinKeeps(s: State, note: NoteId, c: Conn)
    requires Inv(s, note)
    ensures Inv(DoJoin(s, note, c), note)
  {
    var s' := DoJoin(s, note, c);
    forall k | k in s'.feeds ensures Current(s'.db, s'.seqNo, note, s'.feeds[k]) && Told(s'.log[k], s'.feeds[k]) {
      if k == c && s' != s && Room(s.queues, c) {
        assert s'.log[c] == s.log[c] + [Welcome(NotePart(s.db, note))];
        assert s'.log[c][|s.log[c]| + 1..] == [];
      }
    }
  }

  lemma {:induction false} StepKeeps(s: State, note: NoteId, e: Event)
    requires Inv(s, note)
    ensures Inv(Step(s, note, e), note)
  {
    match e {
      case Submit(c, device, ops) => SubmitKeeps(s, note, c, device, ops);
      case Join(c) => JoinKeeps(s, note, c);
      case Say(c) =>
        if c in s.feeds {
          ToldMore(s.log[c], s.feeds[c], Chatter);
        }
      case Elsewhere(other, device, op) =>
        if other != note {
          PartUntouched(s.db, note, other, device, op);
        }
      case _ =>
    }
  }

  lemma {:induction false} RunKeeps(s: State, note: NoteId, es: seq<Event>)
    requires Inv(s, note)
    ensures Inv(Run(s, note, es), note)
    decreases |es|
  {
    if es != [] {
      StepKeeps(s, note, es[0]);
      RunKeeps(Step(s, note, es[0]), note, es[1..]);
    }
  }

  /** A session as the registry creates it. */
  predicate Start(s: State) {
    s.seqNo == 0 && s.subscribers == {} && s.feeds == map[] && s.queues.Keys <= s.log.Keys
  }

  /** Over every run, a subscriber that is still registered and whose Welcome was queued has in its
      log and its own batches all it takes to be at the stored note. */
  lemma {:induction false} SubscribersAreCurrent(s: State, note: NoteId, es: seq<Event>, c: Conn)
    requires Start(s) && c in Run(s, note, es).feeds
    ensures var end := Run(s, note, es);
      var feed := end.feeds[c];
      && c in end.subscribers && c in end.log && Told(end.log[c], feed)
      && Replay(feed.snapshot, note, AllOps(feed.batches)) == NotePart(end.db, note)
      && feed.base + |feed.batches| == end.seqNo
      && forall i | 0 <= i < |feed.batches| :: feed.batches[i].serverSeq == feed.base + i + 1
  {
    RunKeeps(s, note, es);
  }

  /** Registered at the start and after every step. */
  predicate StaysRegistered(s: State, note: NoteId, es: seq<Event>, c: Conn)
    decreases |es|
  {
    c in s.subscribers && (es == [] || StaysRegistered(Step(s, note, es[0]), note, es[1..], c))
  }

  /** A feed is given up only together with the registration. */
  lemma FeedStays(s: State, note: NoteId, e: Event, c: Conn)
    requires c in s.feeds && c in Step(s, note, e).subscribers
    ensures c in Step(s, note, e).feeds
  {
  }

  /** A subscriber whose Welcome was queued has a feed for as long as it stays registered. */
  lemma {:induction false} WelcomedHasFeed(s: State, note: NoteId, c: Conn, es: seq<Event>)
    requires note in s.db.orders && Room(s.queues, c) && StaysRegistered(Step(s, note, Join(c)), note, es, c)
    ensures c in Run(s, note, [Join(c)] + es).feeds
  {
    assert ([Join(c)] + es)[1..] == es;
    FeedLasts(Step(s, note, Join(c)), note, es, c);
  }

  lemma {:induction false} FeedLasts(s: State, note: NoteId, es: seq<Event>, c: Conn)
    requires c in s.feeds && StaysRegistered(s, note, es, c)
    ensures c in Run(s, note, es).feeds
    decreases |es|
  {
    if es != [] {
      FeedStays(s, note, es[0], c);
      FeedLasts(Step(s, note, es[0]), note, es[1..], c);
    }
  }

  // ---- The session object ----

  /** What offering the message to one more subscriber adds to those slow and those reached. */
  lemma OfferOneMore(queues: Queues, seen: set<Conn>, c: Conn, skip: Option<Conn>, m: Message)
    requires c !in seen
    ensures var now := SendAll(queues, Reached(seen, queues, skip), m);
      && Room(now, c) == Room(queues, c)
      && Slow(seen + {c}, queues, skip)
         == Slow(seen, queues, skip) + (if Some(c) != skip && !Room(queues, c) then {c} else {})
      && SendAll(queues, Reached(seen + {c}, queues, skip), m)
         == if Some(c) != skip && Room(queues, c) then now[c := now[c] + [m]] else now
  {
    var more: set<Conn> := if Some(c) != skip && Room(queues, c) then {c} else {};
    assert Reached(seen + {c}, queues, skip) == Reached(seen, queues, skip) + more;
  }

  lemma SendNobody(queues: Queues, m: Message)
    ensures SendAll(queues, {}, m) == queues
  {
  }

  class CollabSession {
    var seqNo: nat
    var subscribers: set<Conn>
    var queues: Queues

    constructor ()
      ensures seqNo == 0 && subscribers == {}
    {
      seqNo, subscribers, queues := 0, {}, map[];
    }

    /** A subscriber whose queue takes the message, or the slow list one longer. */
    method Offer(c: Conn, m: Message) returns (taken: bool)
      modifies this`queues
      ensures taken == Room(old(queues), c)
      ensures queues == if taken then old(queues)[c := old(queues)[c] + [m]] else old(queues)
    {
      taken := c in queues && |queues[c]| < OUTBOUND_CAPACITY;
      if taken {
        queues := queues[c := queues[c] + [m]];
      }
    }

    /** First everyone is offered the message, then the slow are dropped. */
    method Broadcast(m: Message, skip: Option<Conn>)
      modifies this`queues, this`subscribers
      ensures subscribers == old(subscribers) - Slow(old(subscribers), old(queues), skip)
      ensures queues == SendAll(old(queues), Reached(old(subscribers), old(queues), skip), m)
    {
      ghost var before := queues;
      var todo, slow := subscribers, {};
      SendNobody(queues, m);
      while todo != {}
        invariant todo <= subscribers && subscribers == old(subscribers)
        invariant slow == Slow(subscribers - todo, before, skip)
        invariant queues == SendAll(before, Reached(subscribers - todo, before, skip), m)
        decreases todo
      {
        var c :| c in todo;
        ghost var seen := subscribers - todo;
        OfferOneMore(before, seen, c, skip, m);
        todo := todo - {c};
        assert subscribers - todo == seen + {c};
        if Some(c) != skip {
          var taken := Offer(c, m);
          if !taken {
            slow := slow + {c};
          }
        }
      }
      subscribers := subscribers - slow;
    }

    /** The number of a batch is taken and the batch sent out under the apply lock. */
    method PublishBatch(c: Conn, ops: seq<LineOp>, ghost db: Db, ghost log: Queues, ghost feeds: map<Conn, Feed>)
      returns (serverSeq: nat)
      modifies this
      ensures serverSeq == seqNo == old(seqNo) + 1
      ensures var s' := Publish(State(db, old(seqNo), old(subscribers), old(queues), log, feeds), c, ops);
        seqNo == s'.seqNo && subscribers == s'.subscribers && queues == s'.queues
    {
      seqNo := seqNo + 1;
      serverSeq := seqNo;
      Broadcast(Batch(serverSeq, ops), Some(c));
    }
  }
}
