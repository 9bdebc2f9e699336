/**
 The change journal and its projection queue. Appending a change writes its journal row
 and its job together; workers claim a job, apply the change in a transaction of its own
 and finish the job in the claiming transaction. A crash may fall between the two, jobs
 retry, dead-letter and are reconciled, so changes are applied late, out of order and
 more than once.
 */
module Projection {
  import opened Prelude
  import opened LastWriter
  import opened EntityTables

  datatype Entity = Notebook(id: Id) | Tag(id: Id)

  /** Notebooks carry an alias, tags a system flag. */
  datatype Payload = NotebookData(title: string, alias: Option<string>) | TagData(tagTitle: string, system: bool)

  datatype Change =
    | EntityChange(entity: Entity, edit: Edit<Action<Payload>>)
    | LinkChange(note: Id, tag: Id, link: Edit<bool>)
    | NoteChange
    | ResourceChange

  datatype Entities = Entities(rows: map<Entity, Row<Payload>>, links: map<LinkKey, Link>)

  const Nothing := Entities(map[], map[])

  function Blank(e: Entity): Payload {
    if e.Notebook? then NotebookData("", None) else TagData("", false)
  }

  /** `apply_change`; notes are projected elsewhere and resources are not part of this model. */
  function ApplyChange(t: Entities, user: User, c: Change): Entities {
    match c
    case EntityChange(k, e) => t.(rows := ApplyEdit(t.rows, user, k, e, Blank(k)))
    case LinkChange(n, g, e) => t.(links := ApplyLink(t.links, LinkKey(user, n, g), e))
    case NoteChange => t
    case ResourceChange => t
  }

  function ApplyAll(h: seq<(User, Change)>): Entities {
    if h == [] then Nothing
    else ApplyChange(ApplyAll(h[..|h| - 1]), h[|h| - 1].0, h[|h| - 1].1)
  }

  // ---- The queue ----

  datatype Key = Key(user: User, batch: nat, index: nat)
  datatype JobState = Pending | Retry | DeadLetter
  datatype Job = Job(state: JobState, attempts: nat, availableAt: Time)

  /** A payload that does not parse is `None`. */
  datatype Entry = Entry(seqno: nat, payload: Option<Change>, receivedAt: Time)

  datatype Queue = Queue(journal: map<Key, Entry>, nextSeq: nat, jobs: map<Key, Job>)

  const SECOND: int := 1_000_000
  const MAX_ATTEMPTS: nat := 5

  /** How applying a claimed change ended. */
  datatype Verdict = Fine | Serialization | Transient | Permanent

  /** One payload of a batch: ignored if its key is already in the journal. */
  function AppendOne(q: Queue, k: Key, payload: Option<Change>, now: Time): Queue {
    if k in q.journal then q
    else Queue(q.journal[k := Entry(q.nextSeq, payload, now)], q.nextSeq + 1,
               if k in q.jobs then q.jobs else q.jobs[k := Job(Pending, 0, now)])
  }

  function AppendUpTo(q: Queue, user: User, batch: nat, payloads: seq<Option<Change>>, n: nat, now: Time): Queue
    requires n <= |payloads|
  {
    if n == 0 then q
    else AppendOne(AppendUpTo(q, user, batch, payloads, n - 1, now), Key(user, batch, n - 1), payloads[n - 1], now)
  }

  /** The parsed changes a batch adds to the journal. */
  function NewChanges(q: Queue, user: User, batch: nat, payloads: seq<Option<Change>>, n: nat): set<(User, Change)>
    requires n <= |payloads|
  {
    if n == 0 then {}
    else NewChanges(q, user, batch, payloads, n - 1)
         + if Key(user, batch, n - 1) !in q.journal
               && payloads[n - 1].Some? then {(user, payloads[n - 1].value)} else {}
  }

  function Pow2(n: nat): nat {
    if n == 0 then 1 else 2 * Pow2(n - 1)
  }

  function Min(a: nat, b: nat): nat {
    if a < b then a else b
  }

  /** Seconds until the next try, from the attempts counted before this failure. */
  function Backoff(attempts: nat): nat {
    Min(16, Pow2(Min(attempts, 4)))
  }

  /** The job row after a finish, or none when it is deleted. */
  function Finished(j: Job, v: Verdict, now: Time): Option<Job> {
    match v
    case Fine => None
    case Serialization => Some(Job(Retry, j.attempts, now + SECOND))
    case _ =>
      Some(Job(if v.Permanent? || j.attempts + 1 >= MAX_ATTEMPTS then DeadLetter else Retry,
               j.attempts + 1, now + Backoff(j.attempts) * SECOND))
  }

  function SetJob(jobs: map<Key, Job>, k: Key, j: Option<Job>): map<Key, Job> {
    if j.Some? then jobs[k := j.value] else jobs - {k}
  }

  function Reset(q: Queue, keys: set<Key>, now: Time): map<Key, Job> {
    map k | k in q.jobs.Keys + keys ::
      if k !in q.jobs || (k in keys && q.jobs[k].state.DeadLetter?) then Job(Pending, 0, now) else q.jobs[k]
  }

  // ---- The whole system ----

  /** A claim holds its job's row lock; `verdict` is set once the change was tried.
      `appended` and `applied` are histories. */
  datatype Sys = Sys(q: Queue, claims: map<Key, Option<Verdict>>, entities: Entities,
                     appended: set<(User, Change)>, applied: seq<(User, Change)>)

  datatype Event =
    | Append(user: User, batch: nat, payloads: seq<Option<Change>>, now: Time)
    | Claim(key: Key, now: Time)
    | Apply(key: Key, committed: bool, verdict: Verdict)
    | Finish(key: Key, now: Time)
    | Crash(key: Key)
    | Hurry(user: User, batch: nat, now: Time)
    | Reconcile(keys: set<Key>, now: Time)
    | Prune(keys: set<Key>)

  const Fresh := Sys(Queue(map[], 1, map[]), map[], Nothing, {}, [])

  predicate Open(j: Job) {
    !j.state.DeadLetter?
  }

  predicate Enabled(s: Sys, e: Event) {
    match e
    case Append(_, _, _, _) => true
    case Claim(k, now) =>
      k in s.q.jobs && k in s.q.journal && k !in s.claims && Open(s.q.jobs[k]) && s.q.jobs[k].availableAt <= now
    case Apply(k, committed, v) =>
      && k in s.claims && s.claims[k].None? && k in s.q.journal
      && (s.q.journal[k].payload.None? ==> !committed && v.Permanent?)
      && (v.Fine? ==> committed)
    case Finish(k, _) => k in s.claims && s.claims[k].Some? && k in s.q.jobs
    case Crash(k) => k in s.claims
    case Hurry(_, _, _) => true
    case Reconcile(keys, _) =>
      forall k | k in keys :: k in s.q.journal && s.q.journal[k].payload != Some(NoteChange)
    case Prune(keys) => keys !! s.q.jobs.Keys
  }

  function Hurried(s: Sys, user: User, batch: nat, now: Time): map<Key, Job> {
    map k | k in s.q.jobs ::
      if k.user == user && k.batch == batch && k !in s.claims && Open(s.q.jobs[k])
      then s.q.jobs[k].(availableAt := now) else s.q.jobs[k]
  }

  function Step(s: Sys, e: Event): Sys
    requires Enabled(s, e)
  {
    match e
    case Append(u, b, ps, now) =>
      s.(q := AppendUpTo(s.q, u, b, ps, |ps|, now), appended := s.appended + NewChanges(s.q, u, b, ps, |ps|))
    case Claim(k, _) => s.(claims := s.claims[k := None])
    case Apply(k, committed, v) =>
      var s' := s.(claims := s.claims[k := Some(v)]);
      if committed then
        var c := s.q.journal[k].payload.value;
        s'.(entities := ApplyChange(s.entities, k.user, c), applied := s.applied + [(k.user, c)])
      else s'
    case Finish(k, now) =>
      s.(q := s.q.(jobs := SetJob(s.q.jobs, k, Finished(s.q.jobs[k], s.claims[k].value, now))),
            claims := s.claims - {k})
    case Crash(k) => s.(claims := s.claims - {k})
    case Hurry(u, b, now) => s.(q := s.q.(jobs := Hurried(s, u, b, now)))
    case Reconcile(keys, now) => s.(q := s.q.(jobs := Reset(s.q, keys, now)))
    case Prune(keys) => s.(q := s.q.(journal := s.q.journal - keys))
  }

  predicate Legal(s: Sys, es: seq<Event>)
    decreases |es|
  {
    es == [] || (Enabled(s, es[0]) && Legal(Step(s, es[0]), es[1..]))
  }

  function After(s: Sys, es: seq<Event>): Sys
    requires Legal(s, es)
    decreases |es|
  {
    if es == [] then s else After(Step(s, es[0]), es[1..])
  }

  // ---- Nothing appended is forgotten ----

  /** The change waits in some job. */
  predicate Waiting(q: Queue, x: (User, Change)) {
    exists k | k in q.jobs :: k in q.journal && k.user == x.0 && q.journal[k].payload == Some(x.1)
  }

  predicate QueueOk(q: Queue) {
    && q.jobs.Keys <= q.journal.Keys
    && forall k | k in q.jobs :: Open(q.jobs[k]) ==> q.jobs[k].attempts < MAX_ATTEMPTS
  }

  predicate ClaimsOk(s: Sys) {
    forall k | k in s.claims ::
      && k in s.q.jobs && Open(s.q.jobs[k])
      && (s.claims[k] == Some(Fine) ==>
            k in s.q.journal && s.q.journal[k].payload.Some? && (k.user, s.q.journal[k].payload.value) in s.applied)
  }

  predicate Journaled(s: Sys) {
    && (forall k | k in s.q.journal ::
          s.q.journal[k].payload.Some? ==> (k.user, s.q.journal[k].payload.value) in s.appended)
    && (forall x | x in s.applied :: x in s.appended)
  }

  predicate Inv(s: Sys) {
    && QueueOk(s.q) && ClaimsOk(s) && Journaled(s)
    && (forall x | x in s.appended :: x in s.applied || Waiting(s.q, x))
    && s.entities == ApplyAll(s.applied)
  }

  /** `q'` extends `q` by journal rows of the batch, each with its job. */
  predicate Extends(q: Queue, q': Queue, user: User, batch: nat, payloads: seq<Option<Change>>, n: nat)
    requires n <= |payloads|
  {
    && (forall k | k in q.journal :: k in q'.journal && q'.journal[k] == q.journal[k])
    && (forall k | k in q.jobs :: k in q'.jobs && q'.jobs[k] == q.jobs[k])
    && (forall k | k in q'.journal && k !in q.journal ::
          k.user == user && k.batch == batch && k.index < n && k in q'.jobs
                && q'.journal[k].payload == payloads[k.index])
    && (forall i: nat | i < n :: Key(user, batch, i) in q'.journal)
  }

  /** The queue has grown soundly by the first n payloads of the batch. */
  predicate Grown(q: Queue, q': Queue, user: User, batch: nat, payloads: seq<Option<Change>>, n: nat)
    requires n <= |payloads|
  {
    QueueOk(q') && Extends(q, q', user, batch, payloads, n)
  }

  lemma GrownByNone(q: Queue, user: User, batch: nat, payloads: seq<Option<Change>>)
    requires QueueOk(q)
    ensures Grown(q, q, user, batch, payloads, 0)
  {
  }

  /** One more payload extends what the earlier ones left. */
  lemma GrownByOne(q: Queue, q1: Queue, user: User, batch: nat, payloads: seq<Option<Change>>, n: nat, now: Time)
    requires n < |payloads| && Grown(q, q1, user, batch, payloads, n)
    ensures Grown(q, AppendOne(q1, Key(user, batch, n), payloads[n], now), user, batch, payloads, n + 1)
  {
  }

  lemma AppendStep(q: Queue, user: User, batch: nat, payloads: seq<Option<Change>>, n: nat, now: Time)
    requires n < |payloads|
    ensures AppendUpTo(q, user, batch, payloads, n + 1, now)
            == AppendOne(AppendUpTo(q, user, batch, payloads, n, now), Key(user, batch, n), payloads[n], now)
  {
  }

  lemma {:induction false} AppendGrows(q: Queue, user: User, batch: nat, payloads: seq<Option<Change>>, n: nat,
                                       now: Time)
    requires n <= |payloads| && QueueOk(q)
    ensures Grown(q, AppendUpTo(q, user, batch, payloads, n, now), user, batch, payloads, n)
  {
    if n == 0 {
      GrownByNone(q, user, batch, payloads);
      assert AppendUpTo(q, user, batch, payloads, n, now) == q;
    } else {
      var m := n - 1;
      AppendGrows(q, user, batch, payloads, m, now);
      GrownByOne(q, AppendUpTo(q, user, batch, payloads, m, now), user, batch, payloads, m, now);
      AppendStep(q, user, batch, payloads, m, now);
      assert n == m + 1;
    }
  }

  lemma {:induction false} NewChangesMeans(q: Queue, user: User, batch: nat, payloads: seq<Option<Change>>, n: nat)
    requires n <= |payloads|
    ensures forall x :: x in NewChanges(q, user, batch, payloads, n) <==>
      exists i: nat :: i < n && Key(user, batch, i) !in q.journal && payloads[i].Some? && x == (user, payloads[i].value)
  {
    if n > 0 {
      NewChangesMeans(q, user, batch, payloads, n - 1);
    }
  }

  lemma AppendKeeps(s: Sys, e: Event)
    requires Inv(s) && e.Append?
    ensures Inv(Step(s, e))
  {
    var s' := Step(s, e);
    AppendGrows(s.q, e.user, e.batch, e.payloads, |e.payloads|, e.now);
    NewChangesMeans(s.q, e.user, e.batch, e.payloads, |e.payloads|);
    forall x | x in s'.appended ensures x in s'.applied || Waiting(s'.q, x) {
      if x in s.appended {
        if x !in s.applied {
          var k :| k in s.q.jobs && k in s.q.journal && k.user == x.0 && s.q.journal[k].payload == Some(x.1);
          assert k in s'.q.jobs;
        }
      } else {
        var i: nat :| i < |e.payloads| && Key(e.user, e.batch, i) !in s.q.journal && e.payloads[i].Some?
                      && x == (e.user, e.payloads[i].value);
        assert Key(e.user, e.batch, i) in s'.q.jobs;
      }
    }
    forall k | k in s'.q.journal && s'.q.journal[k].payload.Some?
      ensures (k.user, s'.q.journal[k].payload.value) in s'.appended
    {
      if k !in s.q.journal {
        assert k == Key(e.user, e.batch, k.index);
      }
    }
  }

  lemma ApplyKeeps(s: Sys, e: Event)
    requires Inv(s) && e.Apply? && Enabled(s, e)
    ensures Inv(Step(s, e))
  {
    var s' := Step(s, e);
    if e.committed {
      assert s'.applied[..|s'.applied| - 1] == s.applied;
    }
  }

  /** Only a success deletes a job, and a success was applied. */
  lemma FinishKeeps(s: Sys, e: Event)
    requires Inv(s) && e.Finish? && Enabled(s, e)
    ensures Inv(Step(s, e))
  {
    var s' := Step(s, e);
    forall x | x in s'.appended ensures x in s'.applied || Waiting(s'.q, x) {
      if x !in s.applied {
        var k :| k in s.q.jobs && k in s.q.journal && k.user == x.0 && s.q.journal[k].payload == Some(x.1);
        assert k == e.key ==> !s.claims[k].value.Fine?;
        assert k in s'.q.jobs;
      }
    }
  }

  /** Rescheduling, reconciling and pruning keep every job and its journal row. */
  lemma UpkeepKeeps(s: Sys, e: Event)
    requires Inv(s) && Enabled(s, e) && (e.Hurry? || e.Reconcile? || e.Prune? || e.Claim? || e.Crash?)
    ensures Inv(Step(s, e))
  {
    var s' := Step(s, e);
    forall x | x in s'.appended ensures x in s'.applied || Waiting(s'.q, x) {
      if x !in s.applied {
        var k :| k in s.q.jobs && k in s.q.journal && k.user == x.0 && s.q.journal[k].payload == Some(x.1);
        assert k in s'.q.jobs && k in s'.q.journal;
      }
    }
  }

  lemma {:induction false} RunKeeps(s: Sys, es: seq<Event>)
    requires Inv(s) && Legal(s, es)
    ensures Inv(After(s, es))
    decreases |es|
  {
    if es != [] {
      match es[0] {
        case Append(_, _, _, _) => AppendKeeps(s, es[0]);
        case Apply(_, _, _) => ApplyKeeps(s, es[0]);
        case Finish(_, _) => FinishKeeps(s, es[0]);
        case _ => UpkeepKeeps(s, es[0]);
      }
      RunKeeps(Step(s, es[0]), es[1..]);
    }
  }

  // ---- Once the queue is empty, the tables hold the winners ----

  predicate Edits(x: (User, Change), k: Entity) {
    x.1.EntityChange? && x.1.entity == k
  }

  /** One user's edits of an entity. */
  function EditsOf(h: seq<(User, Change)>, user: User, k: Entity): seq<Edit<Action<Payload>>> {
    if h == [] then []
    else
      var x := h[|h| - 1];
      EditsOf(h[..|h| - 1], user, k) + if Edits(x, k) && x.0 == user then [x.1.edit] else []
  }

  function LinksOf(h: seq<(User, Change)>, k: LinkKey): seq<Edit<bool>> {
    if h == [] then []
    else
      var (u, c) := h[|h| - 1];
      LinksOf(h[..|h| - 1], k) + if c.LinkChange? && LinkKey(u, c.note, c.tag) == k then [c.link] else []
  }

  /** Every edit of the entity is this user's. */
  predicate OwnedBy(appended: set<(User, Change)>, user: User, k: Entity) {
    forall x | x in appended && Edits(x, k) :: x.0 == user
  }

  function EditsBy(appended: set<(User, Change)>, user: User, k: Entity): set<Edit<Action<Payload>>> {
    set x | x in appended && Edits(x, k) && x.0 == user :: x.1.edit
  }

  function LinkEdits(appended: set<(User, Change)>, k: LinkKey): set<Edit<bool>> {
    set x | x in appended && x.1.LinkChange? && LinkKey(x.0, x.1.note, x.1.tag) == k :: x.1.link
  }

  lemma {:induction false} EditsOfMembers(h: seq<(User, Change)>, user: User, k: Entity)
    ensures Elems(EditsOf(h, user, k)) == EditsBy(Elems(h), user, k)
  {
    if h != [] {
      var init, x := h[..|h| - 1], h[|h| - 1];
      EditsOfMembers(init, user, k);
      assert h == init + [x];
      ElemsConcat(init, [x]);
      var here: set<Edit<Action<Payload>>> := if Edits(x, k) && x.0 == user then {x.1.edit} else {};
      ElemsConcat(EditsOf(init, user, k), if here == {} then [] else [x.1.edit]);
      assert EditsBy(Elems(h), user, k) == EditsBy(Elems(init), user, k) + here by {
        assert forall y | y in Elems(init) + {x} :: y in Elems(init) || y == x;
      }
    }
  }

  lemma {:induction false} LinksOfMembers(h: seq<(User, Change)>, k: LinkKey)
    ensures Elems(LinksOf(h, k)) == LinkEdits(Elems(h), k)
  {
    if h != [] {
      var init, x := h[..|h| - 1], h[|h| - 1];
      LinksOfMembers(init, k);
      assert h == init + [x];
      ElemsConcat(init, [x]);
      var here: set<Edit<bool>> := if x.1.LinkChange? && LinkKey(x.0, x.1.note, x.1.tag) == k then {x.1.link} else {};
      ElemsConcat(LinksOf(init, k), if here == {} then [] else [x.1.link]);
      assert LinkEdits(Elems(h), k) == LinkEdits(Elems(init), k) + here by {
        assert forall y | y in Elems(init) + {x} :: y in Elems(init) || y == x;
      }
    }
  }

  predicate AgreeAt(a: map<Entity, Row<Payload>>, b: map<Entity, Row<Payload>>, k: Entity) {
    (k in a <==> k in b) && (k in a ==> a[k] == b[k])
  }

  /** An edit looks at its own entity's row only. */
  lemma EditIsLocal(a: map<Entity, Row<Payload>>, b: map<Entity, Row<Payload>>, k: Entity, user: User,
                    e: Edit<Action<Payload>>, blank: Payload)
    requires AgreeAt(a, b, k)
    ensures AgreeAt(ApplyEdit(a, user, k, e, blank), ApplyEdit(b, user, k, e, blank), k)
  {
  }

  lemma OtherChange(t: Entities, user: User, c: Change, k: Entity)
    requires !Edits((user, c), k)
    ensures AgreeAt(ApplyChange(t, user, c).rows, t.rows, k)
  {
  }

  /** Another user's edit leaves a row alone. */
  lemma ForeignEdit(t: Entities, user: User, c: Change, k: Entity)
    requires Edits((user, c), k) && k in t.rows && t.rows[k].owner != user
    ensures AgreeAt(ApplyChange(t, user, c).rows, t.rows, k)
  {
  }

  lemma {:induction false} NoEditsOf(h: seq<(User, Change)>, user: User, k: Entity)
    requires forall x | x in h :: !Edits(x, k)
    ensures EditsOf(h, user, k) == []
  {
    if h != [] {
      NoEditsOf(h[..|h| - 1], user, k);
    }
  }

  /** The row is what its owner's edits alone would have made. */
  predicate RowIsReplay(h: seq<(User, Change)>, k: Entity) {
    var rows := ApplyAll(h).rows;
    if k in rows then AgreeAt(rows, Replay(map[], rows[k].owner, k, EditsOf(h, rows[k].owner, k), Blank(k)), k)
    else forall x | x in h :: !Edits(x, k)
  }

  lemma ReplayOne(user: User, k: Entity, e: Edit<Action<Payload>>)
    ensures Replay(map[], user, k, [e], Blank(k)) == ApplyEdit(map[], user, k, e, Blank(k))
  {
    assert [e][..0] == [];
  }

  lemma {:induction false} FirstEdit(init: seq<(User, Change)>, x: (User, Change), k: Entity)
    requires (forall y | y in init :: !Edits(y, k)) && k !in ApplyAll(init).rows && Edits(x, k)
    ensures RowIsReplay(init + [x], k)
  {
    var h := init + [x];
    assert h[..|h| - 1] == init;
    NoEditsOf(init, x.0, k);
    assert EditsOf(h, x.0, k) == [] + [x.1.edit] == [x.1.edit];
    ReplayOne(x.0, k, x.1.edit);
    EditIsLocal(ApplyAll(init).rows, map[], k, x.0, x.1.edit, Blank(k));
  }

  lemma {:induction false} LaterChange(init: seq<(User, Change)>, x: (User, Change), k: Entity)
    requires RowIsReplay(init, k) && k in ApplyAll(init).rows
    ensures RowIsReplay(init + [x], k)
  {
    var h := init + [x];
    assert h[..|h| - 1] == init;
    var owner := ApplyAll(init).rows[k].owner;
    var before := EditsOf(init, owner, k);
    if Edits(x, k) && x.0 == owner {
      assert EditsOf(h, owner, k) == before + [x.1.edit];
      assert (before + [x.1.edit])[..|before|] == before;
      EditIsLocal(ApplyAll(init).rows, Replay(map[], owner, k, before, Blank(k)), k, owner, x.1.edit, Blank(k));
    } else {
      assert EditsOf(h, owner, k) == before;
      if Edits(x, k) {
        ForeignEdit(ApplyAll(init), x.0, x.1, k);
      } else {
        OtherChange(ApplyAll(init), x.0, x.1, k);
      }
    }
  }

  /** Seen from one entity, the history is the edits of whoever came first. */
  lemma {:induction false} EntityReplay(h: seq<(User, Change)>, k: Entity)
    ensures RowIsReplay(h, k)
  {
    if h != [] {
      var init, x := h[..|h| - 1], h[|h| - 1];
      assert h == init + [x];
      EntityReplay(init, k);
      if k in ApplyAll(init).rows {
        LaterChange(init, x, k);
      } else if Edits(x, k) {
        FirstEdit(init, x, k);
      } else {
        OtherChange(ApplyAll(init), x.0, x.1, k);
      }
    }
  }

  lemma {:induction false} LinkReplay(h: seq<(User, Change)>, k: LinkKey)
    ensures var t := ReplayLinks(map[], k, LinksOf(h, k));
      (k in ApplyAll(h).links <==> k in t) && (k in t ==> ApplyAll(h).links[k] == t[k])
  {
    if h != [] {
      var init, x := h[..|h| - 1], h[|h| - 1];
      LinkReplay(init, k);
      if x.1.LinkChange? && LinkKey(x.0, x.1.note, x.1.tag) == k {
        assert LinksOf(h, k)[..|LinksOf(h, k)| - 1] == LinksOf(init, k);
      } else {
        assert LinksOf(h, k) == LinksOf(init, k);
      }
    }
  }

  lemma DrainedMeansApplied(es: seq<Event>)
    requires Legal(Fresh, es) && After(Fresh, es).q.jobs == map[]
    ensures var s := After(Fresh, es);
      Elems(s.applied) == s.appended && s.entities == ApplyAll(s.applied)
  {
    RunKeeps(Fresh, es);
  }

  ghost predicate Shows(rows: map<Entity, Row<Payload>>, appended: set<(User, Change)>, k: Entity) {
    k in rows ==>
      var edits := EditsBy(appended, rows[k].owner, k);
      edits != {} && forall m | Champion(edits, m) :: RowShows(rows[k], rows[k].owner, m)
  }

  /** After any run that leaves no job, an entity has a row exactly when it was ever edited. The row
      belongs to one of the users who edited it and shows the edit that beats all others that user
      ever appended for it. */
  lemma DrainedEntityIsChampion(es: seq<Event>, k: Entity)
    requires Legal(Fresh, es) && After(Fresh, es).q.jobs == map[]
    ensures var s := After(Fresh, es);
      (k in s.entities.rows <==> exists x | x in s.appended :: Edits(x, k)) && Shows(s.entities.rows, s.appended, k)
  {
    var s := After(Fresh, es);
    DrainedMeansApplied(es);
    EntityReplay(s.applied, k);
    if k in s.entities.rows {
      var owner := s.entities.rows[k].owner;
      var edits, h := EditsBy(s.appended, owner, k), EditsOf(s.applied, owner, k);
      EditsOfMembers(s.applied, owner, k);
      assert h != [] && h[0] in Elems(h);
      RowShowsStanding(map[], owner, k, h, Blank(k));
      forall m | Champion(edits, m) ensures RowShows(s.entities.rows[k], owner, m) {
        ChampionStands(h, m);
      }
    }
  }

  lemma DrainedLinkIsChampion(es: seq<Event>, k: LinkKey)
    requires Legal(Fresh, es) && After(Fresh, es).q.jobs == map[]
    ensures var s := After(Fresh, es);
      var edits := LinkEdits(s.appended, k);
      && (k in s.entities.links <==> edits != {})
      && (forall m | Champion(edits, m) :: k in s.entities.links && s.entities.links[k] == LinkOf(m))
  {
    var s := After(Fresh, es);
    DrainedMeansApplied(es);
    var edits := LinkEdits(s.appended, k);
    var h := LinksOf(s.applied, k);
    LinksOfMembers(s.applied, k);
    LinkReplay(s.applied, k);
    if h != [] {
      assert h[0] in Elems(h);
      LinkIsStanding(map[], k, h);
      forall m | Champion(edits, m) ensures s.entities.links[k] == LinkOf(m) {
        ChampionStands(h, m);
      }
    }
  }

  /** With causal clocks that edit exists; and for an entity that is one user's alone, the outcome is
      settled by what was appended. */
  lemma DrainedCausalEntity(es: seq<Event>, k: Entity) returns (m: Edit<Action<Payload>>)
    requires Legal(Fresh, es) && After(Fresh, es).q.jobs == map[] && k in After(Fresh, es).entities.rows
    requires Causal(EditsBy(After(Fresh, es).appended, After(Fresh, es).entities.rows[k].owner, k))
    ensures var s := After(Fresh, es);
      var owner := s.entities.rows[k].owner;
      && Champion(EditsBy(s.appended, owner, k), m) && RowShows(s.entities.rows[k], owner, m)
      && forall user | OwnedBy(s.appended, user, k) :: owner == user
  {
    var s := After(Fresh, es);
    DrainedEntityIsChampion(es, k);
    m := CausalHasChampion(EditsBy(s.appended, s.entities.rows[k].owner, k));
  }
}
