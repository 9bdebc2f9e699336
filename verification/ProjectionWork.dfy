/**
 How much work the projection queue can do: bounded attempts, doubling delays and a fuel
 that every counted finish burns; and the code that appends, finishes and drains.
 */
module ProjectionWork {
  import opened Prelude
  import opened EntityTables
  import opened Projection

  /** Open jobs have at most four counted attempts, in every reachable state. */
  lemma AttemptsStayBelowLimit(es: seq<Event>, k: Key)
    requires Legal(Fresh, es) && k in After(Fresh, es).q.jobs && Open(After(Fresh, es).q.jobs[k])
    ensures After(Fresh, es).q.jobs[k].attempts <= 4
  {
    RunKeeps(Fresh, es);
  }

  /** The k-th counted failure waits 2^(k-1) seconds, and never more than sixteen. */
  lemma BackoffDoubles(k: nat, j: Job, v: Verdict, now: Time)
    requires 1 <= k && j.attempts == k - 1 && (v.Transient? || v.Permanent?)
    ensures Finished(j, v, now).Some? && Finished(j, v, now).value.attempts == k
    ensures k <= MAX_ATTEMPTS ==> Finished(j, v, now).value.availableAt == now + Pow2(k - 1) * SECOND
    ensures Finished(j, v, now).value.availableAt <= now + 16 * SECOND
  {
    assert Pow2(0) == 1 && Pow2(1) == 2 && Pow2(2) == 4 && Pow2(3) == 8 && Pow2(4) == 16;
  }

  // ---- Fuel ----

  /** Tries an open job has left. */
  function Share(j: Job): nat {
    if Open(j) && j.attempts < MAX_ATTEMPTS then MAX_ATTEMPTS - j.attempts else 0
  }

  ghost function Fuel(jobs: map<Key, Job>): nat
    decreases |jobs|
  {
    if jobs == map[] then 0
    else
      var k :| k in jobs;
      Share(jobs[k]) + Fuel(jobs - {k})
  }

  lemma {:induction false} FuelSplit(jobs: map<Key, Job>, k: Key)
    requires k in jobs
    ensures Fuel(jobs) == Share(jobs[k]) + Fuel(jobs - {k})
    decreases |jobs|
  {
    var p :| p in jobs && Fuel(jobs) == Share(jobs[p]) + Fuel(jobs - {p});
    if p != k {
      FuelSplit(jobs - {p}, k);
      FuelSplit(jobs - {k}, p);
      assert jobs - {p} - {k} == jobs - {k} - {p};
    }
  }

  lemma {:induction false} FuelSame(jobs: map<Key, Job>, jobs': map<Key, Job>)
    requires jobs.Keys == jobs'.Keys && forall k | k in jobs :: Share(jobs[k]) == Share(jobs'[k])
    ensures Fuel(jobs) == Fuel(jobs')
    decreases |jobs|
  {
    if jobs == map[] {
      assert jobs' == map[];
    } else {
      var k :| k in jobs;
      FuelSplit(jobs, k);
      FuelSplit(jobs', k);
      FuelSame(jobs - {k}, jobs' - {k});
    }
  }

  /** Claimed jobs each hold at least one unit. */
  lemma {:induction false} FuelCovers(jobs: map<Key, Job>, ks: set<Key>)
    requires ks <= jobs.Keys && forall k | k in ks :: Share(jobs[k]) >= 1
    ensures |ks| <= Fuel(jobs)
    decreases |ks|
  {
    if ks != {} {
      var k :| k in ks;
      FuelSplit(jobs, k);
      FuelCovers(jobs - {k}, ks - {k});
    }
  }

  /** Five units per open job is all there ever is. */
  lemma {:induction false} FuelAtMost(jobs: map<Key, Job>)
    ensures Fuel(jobs) <= MAX_ATTEMPTS * |set k | k in jobs && Open(jobs[k])|
    decreases |jobs|
  {
    if jobs != map[] {
      var k :| k in jobs;
      FuelSplit(jobs, k);
      FuelAtMost(jobs - {k});
      OpenSplit(jobs, k);
    }
  }

  lemma OpenSplit(jobs: map<Key, Job>, k: Key)
    requires k in jobs
    ensures |set j | j in jobs && Open(jobs[j])|
            == |set j | j in jobs - {k} && Open((jobs - {k})[j])| + if Open(jobs[k]) then 1 else 0
  {
    var all := set j | j in jobs && Open(jobs[j]);
    var rest := set j | j in jobs - {k} && Open((jobs - {k})[j]);
    assert k !in rest && all == if Open(jobs[k]) then rest + {k} else rest;
  }

  /** A finish that counts burns fuel; a serialization failure leaves it. */
  lemma FinishBurnsFuel(jobs: map<Key, Job>, k: Key, v: Verdict, now: Time)
    requires k in jobs && Open(jobs[k]) && jobs[k].attempts < MAX_ATTEMPTS
    ensures var jobs' := SetJob(jobs, k, Finished(jobs[k], v, now));
      if v.Serialization? then Fuel(jobs') == Fuel(jobs) else Fuel(jobs') < Fuel(jobs)
  {
    var jobs' := SetJob(jobs, k, Finished(jobs[k], v, now));
    FuelSplit(jobs, k);
    if !v.Fine? {
      FuelSplit(jobs', k);
      assert jobs' - {k} == jobs - {k};
    }
  }

  /** Steps of a drain in which every finish commits and no serialization failure occurs. */
  predicate Drains(e: Event) {
    e.Claim? || (e.Apply? && !e.verdict.Serialization?) || e.Finish? || e.Hurry? || e.Prune?
  }

  predicate NoSerialization(s: Sys) {
    forall k | k in s.claims :: s.claims[k] != Some(Serialization)
  }

  function CountClaims(es: seq<Event>): nat {
    if es == [] then 0 else (if es[0].Claim? then 1 else 0) + CountClaims(es[1..])
  }

  ghost function Spare(s: Sys): int {
    Fuel(s.q.jobs) - |s.claims|
  }

  lemma SpareIsNat(s: Sys)
    requires Projection.Inv(s)
    ensures Spare(s) >= 0
  {
    FuelCovers(s.q.jobs, s.claims.Keys);
    assert |s.claims.Keys| == |s.claims|;
  }

  lemma ClaimCount(c: map<Key, Option<Verdict>>, k: Key, v: Option<Verdict>)
    ensures |c[k := v]| == |c| + if k in c then 0 else 1
    ensures |c - {k}| == |c| - if k in c then 1 else 0
  {
    assert c[k := v].Keys == c.Keys + {k};
    assert (c - {k}).Keys == c.Keys - {k};
  }

  lemma FinishSpends(s: Sys, k: Key, now: Time)
    requires Projection.Inv(s) && NoSerialization(s) && Enabled(s, Finish(k, now))
    ensures Spare(Step(s, Finish(k, now))) <= Spare(s)
  {
    FinishBurnsFuel(s.q.jobs, k, s.claims[k].value, now);
    ClaimCount(s.claims, k, None);
  }

  lemma StaysUnserialized(s: Sys, e: Event)
    requires NoSerialization(s) && Enabled(s, e) && Drains(e)
    ensures NoSerialization(Step(s, e))
  {
  }

  lemma ClaimSpends(s: Sys, e: Event)
    requires Enabled(s, e) && (e.Claim? || e.Apply?)
    ensures Spare(Step(s, e)) == Spare(s) - if e.Claim? then 1 else 0
  {
    ClaimCount(s.claims, e.key, if e.Claim? then None else Some(e.verdict));
  }

  lemma StepSpends(s: Sys, e: Event)
    requires Projection.Inv(s) && NoSerialization(s) && Enabled(s, e) && Drains(e)
    ensures Spare(Step(s, e)) <= Spare(s) - if e.Claim? then 1 else 0
  {
    if e.Claim? || e.Apply? {
      ClaimSpends(s, e);
    } else if e.Finish? {
      FinishSpends(s, e.key, e.now);
    } else if e.Hurry? {
      FuelSame(s.q.jobs, Step(s, e).q.jobs);
    }
  }

  /** From any reachable state with n open jobs, draining makes at most 5n claims. */
  lemma {:induction false} DrainIsBounded(s: Sys, es: seq<Event>)
    requires Projection.Inv(s) && NoSerialization(s) && Legal(s, es)
    requires forall i | 0 <= i < |es| :: Drains(es[i])
    ensures CountClaims(es) <= Spare(s) <= MAX_ATTEMPTS * |set k | k in s.q.jobs && Open(s.q.jobs[k])|
    decreases |es|
  {
    FuelAtMost(s.q.jobs);
    SpareIsNat(s);
    if es != [] {
      StepSpends(s, es[0]);
      StaysUnserialized(s, es[0]);
      assert Projection.Inv(Step(s, es[0])) by {
        assert Legal(s, [es[0]]) by {
          assert [es[0]][1..] == [];
        }
        RunKeeps(s, [es[0]]);
        assert After(s, [es[0]]) == Step(s, es[0]) by {
          assert [es[0]][1..] == [];
        }
      }
      DrainIsBounded(Step(s, es[0]), es[1..]);
    }
  }

  // ---- The code that runs ----

  class Work {
    var journal: map<Key, Entry>
    var nextSeq: nat
    var jobs: map<Key, Job>
    var entities: Entities

    function Contents(): Queue
      reads this
    {
      Queue(journal, nextSeq, jobs)
    }

    /** One transaction: every payload not yet in the journal gets its row and its job. */
    method AppendChanges(user: User, batch: nat, payloads: seq<Option<Change>>, now: Time)
      returns (inserted: seq<(nat, Option<Change>)>)
      modifies this`journal, this`nextSeq, this`jobs
      ensures Contents() == AppendUpTo(old(Contents()), user, batch, payloads, |payloads|, now)
      ensures |inserted| == nextSeq - old(nextSeq)
      ensures forall i | 0 <= i < |inserted| :: inserted[i].0 == old(nextSeq) + i
      ensures forall i | 0 <= i < |inserted| :: Reported(Contents(), user, batch, |payloads|, inserted[i], now)
    {
      inserted := [];
      for i := 0 to |payloads|
        invariant Contents() == AppendUpTo(old(Contents()), user, batch, payloads, i, now)
        invariant |inserted| == nextSeq - old(nextSeq)
        invariant forall j | 0 <= j < |inserted| :: inserted[j].0 == old(nextSeq) + j
        invariant forall j | 0 <= j < |inserted| :: Reported(Contents(), user, batch, i, inserted[j], now)
      {
        var k := Key(user, batch, i);
        if k !in journal {
          var s := nextSeq;
          journal := journal[k := Entry(s, payloads[i], now)];
          nextSeq := s + 1;
          if k !in jobs {
            jobs := jobs[k := Job(Pending, 0, now)];
          }
          inserted := inserted + [(s, payloads[i])];
        }
      }
    }

    method FinishJob(k: Key, v: Verdict, now: Time)
      requires k in jobs
      modifies this`jobs
      ensures jobs == SetJob(old(jobs), k, Finished(old(jobs)[k], v, now))
    {
      var j := jobs[k];
      match v
      case Fine => jobs := jobs - {k};
      case Serialization => jobs := jobs[k := Job(Retry, j.attempts, now + SECOND)];
      case _ =>
        var dead := v.Permanent? || j.attempts + 1 >= MAX_ATTEMPTS;
        jobs := jobs[k := Job(if dead then DeadLetter else Retry, j.attempts + 1, now + Backoff(j.attempts) * SECOND)];
    }

    predicate Ready(k: Key, user: User, batch: nat, now: Time)
      reads this
    {
      k in jobs && k in journal && k.user == user && k.batch == batch && Open(jobs[k]) && jobs[k].availableAt <= now
    }

    /** The whole batch is due now. */
    method Reschedule(user: User, batch: nat, now: Time)
      modifies this`jobs
      ensures jobs == Hurried(Idle(old(Contents()), entities), user, batch, now)
    {
      jobs := map k | k in jobs ::
        if k.user == user && k.batch == batch && Open(jobs[k]) then jobs[k].(availableAt := now) else jobs[k];
    }

    /** A claimed change is applied and its job finished. A payload that does not parse is a permanent
        failure; otherwise `ended` says whether the applier committed and what it reported. */
    method DoJob(k: Key, ended: (bool, Verdict), now: Time, ghost s: Sys) returns (ghost run: seq<Event>)
      requires QueueOk(Contents()) && k in jobs && k in journal && Open(jobs[k]) && jobs[k].availableAt <= now
      requires Mirrors(s, Contents(), entities) && !ended.1.Serialization?
      modifies this`jobs, this`entities
      ensures QueueOk(Contents()) && Fuel(jobs) < Fuel(old(jobs)) && jobs.Keys <= old(jobs.Keys)
      ensures journal[k].payload.Some? && ended.1.Fine? ==> k !in jobs
      ensures forall o | o in jobs && o != k :: o in old(jobs) && jobs[o] == old(jobs)[o]
      ensures Legal(s, run) && Mirrors(After(s, run), Contents(), entities)
    {
      var verdict := if journal[k].payload.None? then Permanent else ended.1;
      var committed := journal[k].payload.Some? && (ended.0 || verdict.Fine?);
      FinishBurnsFuel(jobs, k, verdict, now);
      JobIsRun(s, k, committed, verdict, now);
      run := JobRun(k, committed, verdict, now);
      if committed {
        entities := ApplyChange(entities, k.user, journal[k].payload.value);
      }
      FinishJob(k, verdict, now);
    }

    /** One more job after a run. */
    method DoNext(k: Key, ended: (bool, Verdict), now: Time, ghost s: Sys, ghost done: seq<Event>)
      returns (ghost run: seq<Event>)
      requires QueueOk(Contents()) && k in jobs && k in journal && Open(jobs[k]) && jobs[k].availableAt <= now
      requires Legal(s, done) && Mirrors(After(s, done), Contents(), entities) && !ended.1.Serialization?
      modifies this`jobs, this`entities
      ensures QueueOk(Contents()) && Fuel(jobs) < Fuel(old(jobs)) && jobs.Keys <= old(jobs.Keys)
      ensures journal[k].payload.Some? && ended.1.Fine? ==> k !in jobs
      ensures forall o | o in jobs && o != k :: o in old(jobs) && jobs[o] == old(jobs)[o]
      ensures Legal(s, run) && Mirrors(After(s, run), Contents(), entities)
    {
      ghost var more := DoJob(k, ended, now, After(s, done));
      RunsJoin(s, done, more);
      run := done + more;
    }

    /** Runs until no job of the batch is ready. `ended` and `clock` stand for what the appliers do and
        for the database time of each round. */
    method DrainReady(user: User, batch: nat, ended: (Key, nat) -> (bool, Verdict), clock: nat -> Time,
                      ghost s: Sys, ghost done: seq<Event>)
      returns (claims: nat, ghost run: seq<Event>)
      requires QueueOk(Contents()) && Legal(s, done) && Mirrors(After(s, done), Contents(), entities)
      requires forall k: Key, i: nat :: !ended(k, i).1.Serialization?
      modifies this`jobs, this`entities
      ensures QueueOk(Contents()) && claims <= Fuel(old(jobs)) - Fuel(jobs) && jobs.Keys <= old(jobs.Keys)
      ensures forall k :: !Ready(k, user, batch, clock(claims))
      ensures Legal(s, run) && Mirrors(After(s, run), Contents(), entities)
      ensures Untroubled(old(Contents()), user, batch, ended, clock) ==>
        forall k | k in jobs && OfBatch(k, user, batch) :: jobs[k] == old(jobs)[k]
    {
      ghost var smooth := Untroubled(Contents(), user, batch, ended, clock);
      claims, run := 0, done;
      while exists k | k in jobs :: Ready(k, user, batch, clock(claims))
        invariant QueueOk(Contents()) && claims + Fuel(jobs) <= Fuel(old(jobs)) && jobs.Keys <= old(jobs.Keys)
        invariant Legal(s, run) && Mirrors(After(s, run), Contents(), entities)
        invariant smooth ==> forall k | k in jobs && OfBatch(k, user, batch) :: jobs[k] == old(jobs)[k]
        decreases Fuel(jobs)
      {
        var k :| k in jobs && Ready(k, user, batch, clock(claims));
        run := DoNext(k, ended(k, claims), clock(claims), s, run);
        claims := claims + 1;
      }
    }

    /** The batch is made due and worked off. Without a failure no job of it is left, open or dead. */
    method DrainBatch(user: User, batch: nat, ended: (Key, nat) -> (bool, Verdict), clock: nat -> Time, ghost s: Sys)
      returns (claims: nat, ghost run: seq<Event>)
      requires QueueOk(Contents()) && Mirrors(s, Contents(), entities)
      requires forall k: Key, i: nat :: !ended(k, i).1.Serialization?
      modifies this`jobs, this`entities
      ensures QueueOk(Contents()) && claims <= Fuel(old(jobs)) - Fuel(jobs) && jobs.Keys <= old(jobs.Keys)
      ensures forall k :: !Ready(k, user, batch, clock(claims))
      ensures Legal(s, run) && Mirrors(After(s, run), Contents(), entities)
      ensures Untroubled(old(Contents()), user, batch, ended, clock) ==>
        forall k | k in jobs :: !OfBatch(k, user, batch)
    {
      HurryIsRun(s, user, batch, clock(0));
      StillUntroubled(Contents(), entities, user, batch, ended, clock);
      Reschedule(user, batch, clock(0));
      ghost var due := Contents();
      claims, run := DrainReady(user, batch, ended, clock, s, [Hurry(user, batch, clock(0))]);
      forall k | k in jobs && Untroubled(due, user, batch, ended, clock) ensures !OfBatch(k, user, batch) {
        assert !Ready(k, user, batch, clock(claims));
      }
    }
  }

  /** The number and payload are those of a row of the batch received now. */
  predicate Reported(q: Queue, user: User, batch: nat, n: nat, r: (nat, Option<Change>), now: Time) {
    exists i | 0 <= i < n :: Key(user, batch, i) in q.journal && q.journal[Key(user, batch, i)] == Entry(r.0, r.1, now)
  }

  predicate OfBatch(k: Key, user: User, batch: nat) {
    k.user == user && k.batch == batch
  }

  /** Every payload of the batch parses, every applier succeeds, none of its jobs is dead and the clock
      never runs behind its start. */
  ghost predicate Untroubled(q: Queue, user: User, batch: nat, ended: (Key, nat) -> (bool, Verdict),
                             clock: nat -> Time) {
    && (forall k: Key, i: nat :: ended(k, i).1.Fine?) && (forall i: nat :: clock(0) <= clock(i))
    && (forall k | k in q.journal && OfBatch(k, user, batch) :: q.journal[k].payload.Some?)
    && (forall k | k in q.jobs && OfBatch(k, user, batch) :: Open(q.jobs[k]))
  }

  /** Making the batch due brings no trouble. */
  lemma StillUntroubled(q: Queue, entities: Entities, user: User, batch: nat, ended: (Key, nat) -> (bool, Verdict),
                        clock: nat -> Time)
    ensures var q' := q.(jobs := Hurried(Idle(q, entities), user, batch, clock(0)));
      && (Untroubled(q, user, batch, ended, clock) ==> Untroubled(q', user, batch, ended, clock))
      && forall k | k in q'.jobs && OfBatch(k, user, batch) && Open(q'.jobs[k]) :: q'.jobs[k].availableAt == clock(0)
  {
  }

  // ---- The loop is a run of the step system ----

  /** No worker holds a claim. */
  function Idle(q: Queue, entities: Entities): Sys {
    Sys(q, map[], entities, {}, [])
  }

  /** The system holds these tables, and nobody else is at work. */
  predicate Mirrors(s: Sys, q: Queue, entities: Entities) {
    s.q == q && s.entities == entities && s.claims == map[]
  }

  function JobRun(k: Key, committed: bool, v: Verdict, now: Time): seq<Event> {
    [Claim(k, now), Apply(k, committed, v), Finish(k, now)]
  }

  lemma {:induction false} RunsJoin(s: Sys, es: seq<Event>, fs: seq<Event>)
    requires Legal(s, es) && Legal(After(s, es), fs)
    ensures Legal(s, es + fs) && After(s, es + fs) == After(After(s, es), fs)
    decreases |es|
  {
    if es == [] {
      assert es + fs == fs;
    } else {
      assert (es + fs)[1..] == es[1..] + fs;
      RunsJoin(Step(s, es[0]), es[1..], fs);
    }
  }

  lemma ThreeSteps(s: Sys, a: Event, b: Event, c: Event)
    requires Enabled(s, a) && Enabled(Step(s, a), b) && Enabled(Step(Step(s, a), b), c)
    ensures Legal(s, [a, b, c]) && After(s, [a, b, c]) == Step(Step(Step(s, a), b), c)
  {
    var s1 := Step(s, a);
    var s2 := Step(s1, b);
    var s3 := Step(s2, c);
    assert [a, b, c][1..] == [b, c] && [b, c][1..] == [c] && [c][1..] == [];
    assert Legal(s3, []) && After(s3, []) == s3;
    assert Legal(s2, [c]) && After(s2, [c]) == s3;
    assert Legal(s1, [b, c]) && After(s1, [b, c]) == s3;
  }

  lemma HurryIsRun(s: Sys, user: User, batch: nat, now: Time)
    requires s.claims == map[] && QueueOk(s.q)
    ensures var jobs := Hurried(Idle(s.q, s.entities), user, batch, now);
      && Legal(s, [Hurry(user, batch, now)])
      && Mirrors(After(s, [Hurry(user, batch, now)]), s.q.(jobs := jobs), s.entities)
      && QueueOk(s.q.(jobs := jobs)) && Fuel(jobs) == Fuel(s.q.jobs) && jobs.Keys == s.q.jobs.Keys
  {
    var e := Hurry(user, batch, now);
    assert [e][1..] == [];
    FuelSame(s.q.jobs, Hurried(s, user, batch, now));
  }

  /** Claiming, applying and finishing one job. */
  lemma JobIsRun(s: Sys, k: Key, committed: bool, v: Verdict, now: Time)
    requires s.claims == map[] && k in s.q.jobs && k in s.q.journal && Open(s.q.jobs[k])
          && s.q.jobs[k].availableAt <= now
    requires (s.q.journal[k].payload.None? ==> !committed && v.Permanent?) && (v.Fine? ==> committed)
    ensures Legal(s, JobRun(k, committed, v, now))
    ensures Mirrors(After(s, JobRun(k, committed, v, now)),
                    s.q.(jobs := SetJob(s.q.jobs, k, Finished(s.q.jobs[k], v, now))),
                    if committed then ApplyChange(s.entities, k.user, s.q.journal[k].payload.value) else s.entities)
  {
    ThreeSteps(s, Claim(k, now), Apply(k, committed, v), Finish(k, now));
    var s2 := Step(Step(s, Claim(k, now)), Apply(k, committed, v));
    assert s2.claims - {k} == map[];
  }
}
