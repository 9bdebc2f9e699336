/** What each step of the projection queue does to the jobs and the journal, row by row. */
module QueueLaws {
  import opened Prelude
  import opened EntityTables
  import opened Projection

  // ---- Finishing ----

  /** A finished job is gone exactly when its change was applied. It is a dead letter exactly after a
      permanent failure or the fifth counted one, and waits to be retried otherwise; only a
      serialisation failure is not counted. Nothing else changes. */
  lemma FinishLaw(s: Sys, k: Key, now: Time)
    requires Enabled(s, Finish(k, now))
    ensures var s', v, was := Step(s, Finish(k, now)), s.claims[k].value, s.q.jobs[k];
      && (k in s'.q.jobs <==> !v.Fine?)
      && (k in s'.q.jobs ==>
            var j := s'.q.jobs[k];
            && (j.state.DeadLetter? <==> v.Permanent? || (v.Transient? && was.attempts + 1 >= 5))
            && (j.state.Retry? <==> v.Serialization? || (v.Transient? && was.attempts + 1 < 5))
            && j.attempts == was.attempts + (if v.Serialization? then 0 else 1)
            && (v.Serialization? ==> j.availableAt == now + 1_000_000))
      && (forall o | o != k :: (o in s'.q.jobs <==> o in s.q.jobs) && (o in s.q.jobs ==> s'.q.jobs[o] == s.q.jobs[o]))
      && (forall o :: o in s'.claims <==> o in s.claims && o != k)
      && s'.q.journal == s.q.journal && s'.q.nextSeq == s.q.nextSeq
      && s'.entities == s.entities && s'.appended == s.appended && s'.applied == s.applied
  {
  }

  // ---- Claiming, applying, crashing ----

  /** Only a pending or retrying job that is due and that nobody holds can be claimed. */
  lemma ClaimLaw(s: Sys, k: Key, now: Time)
    ensures Enabled(s, Claim(k, now)) <==>
      && k in s.q.journal && k in s.q.jobs && k !in s.claims
      && (s.q.jobs[k].state == Pending || s.q.jobs[k].state == Retry) && s.q.jobs[k].availableAt <= now
    ensures Enabled(s, Claim(k, now)) ==> Step(s, Claim(k, now)) == s.(claims := s.claims[k := None])
  {
  }

  /** Applying changes the tables exactly when it commits, and leaves the queue to the finish. A crash
      gives the claim up and nothing else. */
  lemma ApplyLaw(s: Sys, k: Key, committed: bool, v: Verdict)
    requires Enabled(s, Apply(k, committed, v))
    ensures var s' := Step(s, Apply(k, committed, v));
      && s'.q == s.q && s'.appended == s.appended && k in s'.claims && s'.claims[k] == Some(v)
      && (!committed ==> s'.entities == s.entities && s'.applied == s.applied)
      && (committed ==>
            && s.q.journal[k].payload.Some? && s'.applied == s.applied + [(k.user, s.q.journal[k].payload.value)]
            && s'.entities == ApplyChange(s.entities, k.user, s.q.journal[k].payload.value))
    ensures Enabled(s, Crash(k)) && Step(s, Crash(k)) == s.(claims := s.claims - {k})
  {
  }

  // ---- Appending ----

  /** The journal row and the job of a payload that is new. */
  predicate Fresh(q: Queue, q': Queue, k: Key, payload: Option<Change>, now: Time) {
    && k in q'.journal && q'.journal[k].payload == payload && q'.journal[k].receivedAt == now
    && q.nextSeq <= q'.journal[k].seqno < q'.nextSeq
    && k in q'.jobs && (k !in q.jobs ==> q'.jobs[k] == Job(Pending, 0, now))
  }

  predicate SameAt(q: Queue, q': Queue, k: Key) {
    && (k in q'.journal <==> k in q.journal) && (k in q.journal ==> q'.journal[k] == q.journal[k])
    && (k in q'.jobs <==> k in q.jobs) && (k in q.jobs ==> q'.jobs[k] == q.jobs[k])
  }

  /** Payload by payload: a key the journal has is left alone, a new one gets its row and a pending job
      that is due at once; later payloads get later numbers. */
  ghost predicate Appended(q: Queue, q': Queue, user: User, batch: nat, payloads: seq<Option<Change>>, n: nat,
                           now: Time)
    requires n <= |payloads|
  {
    && q.nextSeq <= q'.nextSeq
    && (forall k: Key | k in q.journal || k.user != user || k.batch != batch || k.index >= n :: SameAt(q, q', k))
    && (forall i: nat | i < n && Key(user, batch, i) !in q.journal ::
          Fresh(q, q', Key(user, batch, i), payloads[i], now))
    && (forall i: nat, j: nat | i < j < n && Key(user, batch, i) !in q.journal && Key(user, batch, j) !in q.journal ::
          q'.journal[Key(user, batch, i)].seqno < q'.journal[Key(user, batch, j)].seqno)
  }

  lemma AppendOneLaw(q: Queue, q1: Queue, user: User, batch: nat, payloads: seq<Option<Change>>, n: nat, now: Time)
    requires n < |payloads| && QueueOk(q) && Appended(q, q1, user, batch, payloads, n, now)
    ensures Appended(q, AppendOne(q1, Key(user, batch, n), payloads[n], now), user, batch, payloads, n + 1, now)
  {
    var k := Key(user, batch, n);
    var q2 := AppendOne(q1, k, payloads[n], now);
    assert SameAt(q, q1, k);
    forall o: Key | o in q.journal || o.user != user || o.batch != batch || o.index >= n + 1 ensures SameAt(q, q2, o) {
      assert SameAt(q, q1, o);
    }
    forall i: nat | i < n + 1 && Key(user, batch, i) !in q.journal
      ensures Fresh(q, q2, Key(user, batch, i), payloads[i], now)
    {
      if i < n {
        assert Fresh(q, q1, Key(user, batch, i), payloads[i], now);
      }
    }
  }

  lemma AppendedByNone(q: Queue, user: User, batch: nat, payloads: seq<Option<Change>>, now: Time)
    ensures Appended(q, q, user, batch, payloads, 0, now)
  {
  }

  lemma {:induction false} AppendLaw(q: Queue, user: User, batch: nat, payloads: seq<Option<Change>>, n: nat, now: Time)
    requires n <= |payloads| && QueueOk(q)
    ensures Appended(q, AppendUpTo(q, user, batch, payloads, n, now), user, batch, payloads, n, now)
  {
    if n == 0 {
      AppendedByNone(q, user, batch, payloads, now);
      assert AppendUpTo(q, user, batch, payloads, n, now) == q;
    } else {
      var m := n - 1;
      AppendLaw(q, user, batch, payloads, m, now);
      AppendOneLaw(q, AppendUpTo(q, user, batch, payloads, m, now), user, batch, payloads, m, now);
      AppendStep(q, user, batch, payloads, m, now);
      assert n == m + 1;
    }
  }

  // ---- Upkeep ----

  /** Hurrying makes the batch's open, unclaimed jobs due now and leaves every other job as it is. */
  lemma HurryLaw(s: Sys, user: User, batch: nat, now: Time, k: Key)
    ensures var s' := Step(s, Hurry(user, batch, now));
      && (k in s'.q.jobs <==> k in s.q.jobs) && s'.q.journal == s.q.journal && s'.claims == s.claims
      && (k in s.q.jobs ==>
            var was, j := s.q.jobs[k], s'.q.jobs[k];
            && j.state == was.state && j.attempts == was.attempts
            && j.availableAt == (if k.user == user && k.batch == batch && k !in s.claims && !was.state.DeadLetter?
                                  then now else was.availableAt))
  {
  }

  /** Reconciling gives every chosen row without a job, or with a dead one, a job as new; jobs that are
      open, and jobs not chosen, stay as they are. */
  lemma ReconcileLaw(s: Sys, keys: set<Key>, now: Time, k: Key)
    requires Enabled(s, Reconcile(keys, now))
    ensures var s' := Step(s, Reconcile(keys, now));
      && s'.q.journal == s.q.journal && s'.claims == s.claims
      && (k in s'.q.jobs <==> k in s.q.jobs || k in keys)
      && (k in keys && (k !in s.q.jobs || s.q.jobs[k].state == DeadLetter) ==> s'.q.jobs[k] == Job(Pending, 0, now))
      && (k in s.q.jobs && (k !in keys || s.q.jobs[k].state != DeadLetter) ==> s'.q.jobs[k] == s.q.jobs[k])
    ensures forall o | o in keys :: o in s.q.journal && s.q.journal[o].payload != Some(NoteChange)
  {
  }

  /** Pruning takes exactly the chosen rows, none of which has a job, and no job. */
  lemma PruneLaw(s: Sys, keys: set<Key>)
    ensures Enabled(s, Prune(keys)) <==> forall k | k in keys :: k !in s.q.jobs
    ensures Enabled(s, Prune(keys)) ==>
      var s' := Step(s, Prune(keys));
      && s'.q.jobs == s.q.jobs && s'.entities == s.entities && s'.appended == s.appended
      && forall k :: (k in s'.q.journal <==> k in s.q.journal && k !in keys)
           && (k in s'.q.journal ==> s'.q.journal[k] == s.q.journal[k])
  {
  }

  // ---- Runs without failures ----

  /** Nothing in the run goes wrong. */
  predicate Smooth(es: seq<Event>) {
    forall i | 0 <= i < |es| && es[i].Apply? :: es[i].verdict.Fine?
  }

  predicate FineClaims(s: Sys) {
    forall k | k in s.claims && s.claims[k].Some? :: s.claims[k].value.Fine?
  }

  /** Jobs die of failures only. */
  lemma {:induction false} NoFailureNoDeadLetter(s: Sys, es: seq<Event>, k: Key)
    requires Legal(s, es) && Smooth(es) && FineClaims(s)
    requires k in After(s, es).q.jobs && After(s, es).q.jobs[k].state == DeadLetter
    ensures k in s.q.jobs && s.q.jobs[k].state == DeadLetter
    decreases |es|
  {
    if es != [] {
      assert forall i | 0 <= i < |es[1..]| :: es[1..][i] == es[i + 1];
      NoFailureNoDeadLetter(Step(s, es[0]), es[1..], k);
      StepKillsNone(s, es[0], k);
    }
  }

  lemma StepKillsNone(s: Sys, e: Event, k: Key)
    requires Enabled(s, e) && FineClaims(s) && k in Step(s, e).q.jobs && Step(s, e).q.jobs[k].state == DeadLetter
    ensures k in s.q.jobs && s.q.jobs[k].state == DeadLetter
  {
    if e.Append? {
      AppendedJobs(s.q, e.user, e.batch, e.payloads, |e.payloads|, e.now, k);
    }
  }

  lemma {:induction false} AppendedJobs(q: Queue, user: User, batch: nat, payloads: seq<Option<Change>>, n: nat,
                                        now: Time, k: Key)
    requires n <= |payloads| && k in AppendUpTo(q, user, batch, payloads, n, now).jobs
    ensures var j := AppendUpTo(q, user, batch, payloads, n, now).jobs[k];
      j.state == Pending || (k in q.jobs && j == q.jobs[k])
  {
    if n > 0 {
      AppendStep(q, user, batch, payloads, n - 1, now);
      if k in AppendUpTo(q, user, batch, payloads, n - 1, now).jobs {
        AppendedJobs(q, user, batch, payloads, n - 1, now, k);
      }
    }
  }

  // ---- What a change touches ----

  /** A notebook or tag change edits its own row, a link change its own link, and a note or resource
      change nothing here. A deletion planted ahead of its notebook or tag is blank. */
  lemma ChangeLaw(t: Entities, user: User, c: Change)
    ensures var t' := ApplyChange(t, user, c);
      && (c.EntityChange? ==>
            && t'.links == t.links
            && t'.rows == ApplyEdit(t.rows, user, c.entity, c.edit,
                                    if c.entity.Notebook? then NotebookData("", None) else TagData("", false)))
      && (c.LinkChange? ==>
            t'.rows == t.rows && t'.links == ApplyLink(t.links, LinkKey(user, c.note, c.tag), c.link))
      && (c.NoteChange? || c.ResourceChange? ==> t' == t)
  {
  }

  /** What can happen when. Appending and hurrying are always possible, and a crash wherever a claim is. */
  lemma SchedulingLaw(s: Sys, k: Key, committed: bool, v: Verdict, now: Time)
    ensures Enabled(s, Apply(k, committed, v)) <==>
      && k in s.claims && s.claims[k].None? && k in s.q.journal
      && (s.q.journal[k].payload.None? ==> !committed && v == Permanent) && (v == Fine ==> committed)
    ensures Enabled(s, Finish(k, now)) <==> k in s.claims && s.claims[k].Some? && k in s.q.jobs
    ensures Enabled(s, Crash(k)) <==> k in s.claims
    ensures forall user, batch :: Enabled(s, Hurry(user, batch, now))
    ensures forall user, batch, payloads :: Enabled(s, Append(user, batch, payloads, now))
    ensures forall keys :: Enabled(s, Reconcile(keys, now)) <==>
      forall o | o in keys :: o in s.q.journal && s.q.journal[o].payload != Some(NoteChange)
  {
  }
}
