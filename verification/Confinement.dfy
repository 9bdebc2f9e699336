/**
 No escalation: what a group of users can bring about on a note by sharing, transferring and
 everything else they may do, and the one way in which the bound breaks.
 */
module Confinement {
  import opened Prelude
  import opened Permissions
  import opened MoveGuard
  import opened Sharing

  /** What a notebook row would pass on, dead or alive. */
  function Latent(db: Db, nb: Option<NotebookId>, u: User): Bits {
    if nb.None? || nb.value !in db.notebooks then 0
    else if db.notebooks[nb.value].owner == u then INHERITED
    else if (nb.value, u) in db.notebookShares then FromBits(db.notebookShares[(nb.value, u)]) & INHERITED
    else 0
  }

  /** The most a user could get at on a note as the tables stand, were every row alive. */
  function Reach(db: Db, n: NoteId, u: User): Bits {
    if n !in db.notes then 0
    else if db.notes[n].owner == u then ALL
    else FromBits(NoteShare(db, n, u) | Latent(db, db.notes[n].notebook, u))
  }

  function Both(a: Bits, b: Bits): Bits {
    FromBits(a | b)
  }

  /** Notebook ids come from the client, and a note keeps the id of a notebook that went with its
      owner's account: the step creates a notebook under the id the note still carries. */
  predicate Adopts(db: Db, e: Event, n: NoteId) {
    && e.SetNotebook? && e.actor in db.users && e.notebook !in db.notebooks
    && n in db.notes && db.notes[n].notebook == Some(e.notebook)
  }

  /** Adopting the note's notebook would take the actor past the bound. */
  predicate Oversteps(db: Db, e: Event, n: NoteId, bound: Bits) {
    Adopts(db, e, n) && !Subset(INHERITED, bound)
  }

  // Facts about the bits alone.

  lemma UnionBound(d: Bits, i: Bits, b: Bits)
    requires Closed(b) && Subset(d & ALL, b) && Subset(i & ALL, b)
    ensures Subset(FromBits(d | i), b)
  {
  }

  lemma PartsOfUnion(d: Bits, i: Bits)
    ensures Closed(FromBits(d | i)) && Subset(d & ALL, FromBits(d | i)) && Subset(i & ALL, FromBits(d | i))
  {
  }

  lemma Transitive(a: Bits, b: Bits, c: Bits)
    requires Subset(a, b) && Subset(b, c)
    ensures Subset(a, c)
  {
  }

  lemma MaskedGrant(requested: Bits, caps: Bits)
    requires Subset(FromBits(requested), caps)
    ensures Subset(FromBits(FromBits(requested)) & INHERITED, FromBits(caps) & INHERITED)
  {
  }

  lemma KeepsKnown(b: Bits, c: Bits)
    requires Subset(b, c)
    ensures Subset(b & ALL, c) && FromBits(ALL) & INHERITED == INHERITED && FromBits(0) & INHERITED == 0
  {
  }

  lemma AllBounds(a: Bits, b: Bits)
    requires Closed(a)
    ensures Subset(a, Both(b, ALL)) && Subset(a, Both(a, b))
  {
  }

  lemma JointBound(a: Bits, b: Bits, c: Bits)
    requires Closed(c) && Subset(a, c) && Subset(b, c)
    ensures Subset(Both(a, b), c)
  {
  }

  /** The union covers both, and what is below one of them. */
  lemma BothCovers(a: Bits, b: Bits)
    requires Closed(a) && Closed(b)
    ensures Closed(Both(a, b)) && Subset(a, Both(a, b)) && Subset(b, Both(a, b))
  {
  }

  lemma Absorb(mine': Bits, mine: Bits, bound: Bits)
    requires Subset(mine', Both(mine, bound))
    ensures Subset(Both(mine', bound), Both(mine, bound))
  {
  }

  lemma OnlyAllCoversAll(b: Bits)
    ensures Closed(b) && Subset(ALL, b) ==> b == ALL
  {
  }

  lemma WithoutHighBits(b: Bits, c: Bits)
    requires Subset(b, c)
    ensures Subset(b & ALL, c & ALL) && Subset(0 & ALL, c)
  {
  }

  /** Nobody's actual access exceeds their reach. */
  lemma EffectiveWithinReach(db: Db, n: NoteId, u: User)
    requires n in db.notes
    ensures Subset(Effective(db, n, db.notes[n], u), Reach(db, n, u))
  {
    var note := db.notes[n];
    if note.owner == u {
      Reflexive(ALL);
    } else {
      EffectiveFormula(db, n, note, u);
      var d, i, l := NoteShare(db, n, u), InheritedBits(db, note.notebook, u), Latent(db, note.notebook, u);
      KeepsKnown(0, 0);
      Reflexive(l);
      AddingKeeps(d, l);
      assert i == 0 || i == l;
    }
  }

  lemma ReachIsClosed(db: Db, n: NoteId, u: User)
    ensures Closed(Reach(db, n, u)) && Reach(db, n, u) & ALL == Reach(db, n, u)
  {
  }

  /** A user's parts lie within their reach. */
  lemma PartsWithinReach(db: Db, n: NoteId, u: User)
    requires n in db.notes
    ensures Subset(NoteShare(db, n, u) & ALL, Reach(db, n, u))
    ensures Subset(Latent(db, db.notes[n].notebook, u) & ALL, Reach(db, n, u))
  {
    if db.notes[n].owner == u {
      WithinAll(NoteShare(db, n, u));
      WithinAll(Latent(db, db.notes[n].notebook, u));
    } else {
      PartsOfUnion(NoteShare(db, n, u), Latent(db, db.notes[n].notebook, u));
    }
  }

  lemma WithinAll(b: Bits)
    ensures Subset(b & ALL, ALL)
  {
  }

  /** Bounding the parts bounds the reach. */
  lemma ReachBound(db: Db, n: NoteId, u: User, b: Bits)
    requires Closed(b)
    requires n in db.notes ==> db.notes[n].owner != u || b == ALL
    requires n in db.notes ==> Subset(NoteShare(db, n, u) & ALL, b)
    requires n in db.notes ==> Subset(Latent(db, db.notes[n].notebook, u) & ALL, b)
    ensures Subset(Reach(db, n, u), b)
  {
    if n in db.notes {
      if b == ALL {
        ReachIsClosed(db, n, u);
        WithinAll(Reach(db, n, u));
      } else {
        UnionBound(NoteShare(db, n, u), Latent(db, db.notes[n].notebook, u), b);
      }
    }
  }

  // What one step does to the owner, to the direct share and to what the notebook passes on,
  // when the actor does not own the note.

  lemma OwnerStep(db: Db, e: Event, n: NoteId)
    requires n in db.notes && db.notes[n].owner != e.actor && n in Step(db, e).notes
    ensures Step(db, e).notes[n].owner == db.notes[n].owner
    ensures Step(db, e).notes[n].notebook == db.notes[n].notebook || Step(db, e).notes[n].notebook == None
  {
  }

  lemma DirectStep(db: Db, e: Event, n: NoteId, u: User)
    requires n in db.notes && db.notes[n].owner != e.actor
    ensures var d := NoteShare(Step(db, e), n, u);
      d == NoteShare(db, n, u) || d == 0 || Subset(d, Reach(db, n, e.actor))
  {
    if e.Share? && Handle(db, e).Done? && e.note == n && e.target == u {
      EffectiveWithinReach(db, n, e.actor);
      Transitive(FromBits(e.word), Effective(db, n, db.notes[n], e.actor), Reach(db, n, e.actor));
    }
  }

  lemma BookShareStep(db: Db, e: Event, nb: NotebookId)
    requires e.ShareBook? && Handle(db, e).Done? && e.notebook == nb
    ensures Subset(Latent(Step(db, e), Some(nb), e.target), Latent(db, Some(nb), e.actor))
  {
    var access := NotebookAccess(db, nb, e.actor);
    MaskedGrant(e.word, access.value.caps);
    KeepsKnown(0, 0);
    if !access.value.isOwner {
      FromBitsIsLeastClosure(FromBits(db.notebookShares[(nb, e.actor)]), 0);
    }
  }

  /** The row of the note's notebook changes hands by a gift, and appears by adoption only. */
  lemma BookRowStep(db: Db, e: Event, n: NoteId, nb: NotebookId)
    requires n in db.notes && db.notes[n].notebook == Some(nb) && nb in Step(db, e).notebooks
    ensures nb !in db.notebooks ==> Adopts(db, e, n)
    ensures nb in db.notebooks && Step(db, e).notebooks[nb].owner != db.notebooks[nb].owner
            ==> e.GiveBook? && Handle(db, e).Done? && e.notebook == nb && db.notebooks[nb].owner == e.actor
  {
  }

  /** Apart from a grant or a gift to the user, a step leaves the user's latent bits or clears them. */
  lemma LatentKept(db: Db, e: Event, nb: NotebookId, u: User)
    requires nb in Step(db, e).notebooks ==> nb in db.notebooks
    requires nb in Step(db, e).notebooks ==> Step(db, e).notebooks[nb].owner == db.notebooks[nb].owner
    requires !(e.ShareBook? && e.notebook == nb && e.target == u)
    ensures var l := Latent(Step(db, e), Some(nb), u); l == Latent(db, Some(nb), u) || l == 0
  {
  }

  /** A gift gives nobody bits the giver did not have. */
  lemma LatentGiven(db: Db, e: Event, nb: NotebookId, u: User)
    requires e.GiveBook? && Handle(db, e).Done? && e.notebook == nb
    ensures var l := Latent(Step(db, e), Some(nb), u);
      l == Latent(db, Some(nb), u) || l == 0 || Subset(l, Latent(db, Some(nb), e.actor))
  {
    assert Latent(db, Some(nb), e.actor) == INHERITED;
    if Latent(Step(db, e), Some(nb), u) == INHERITED {
      Reflexive(INHERITED);
    } else if (nb, u) in db.notebookShares {
      MaskedWithin(db.notebookShares[(nb, u)]);
    }
  }

  lemma MaskedWithin(b: Bits)
    ensures Subset(FromBits(b) & INHERITED, INHERITED)
  {
  }

  lemma LatentIsMasked(db: Db, nb: Option<NotebookId>, u: User)
    ensures Subset(Latent(db, nb, u), INHERITED)
  {
    if nb.Some? && (nb.value, u) in db.notebookShares {
      MaskedWithin(db.notebookShares[(nb.value, u)]);
    }
  }

  lemma LatentStep(db: Db, e: Event, n: NoteId, nb: NotebookId, u: User)
    requires n in db.notes && db.notes[n].notebook == Some(nb) && !Adopts(db, e, n)
    ensures var l := Latent(Step(db, e), Some(nb), u);
      l == Latent(db, Some(nb), u) || l == 0 || Subset(l, Latent(db, Some(nb), e.actor))
  {
    Reflexive(Latent(db, Some(nb), e.actor));
    if Handle(db, e).Done? && nb in Step(db, e).notebooks {
      BookRowStep(db, e, n, nb);
      if e.ShareBook? && e.notebook == nb && e.target == u {
        BookShareStep(db, e, nb);
      } else if e.GiveBook? && e.notebook == nb {
        LatentGiven(db, e, nb, u);
      } else {
        LatentKept(db, e, nb, u);
      }
    }
  }

  // ---- One step ----

  lemma DirectBound(db: Db, e: Event, n: NoteId, u: User, b: Bits)
    requires n in db.notes && db.notes[n].owner != e.actor
    requires Subset(Reach(db, n, u), b) && Subset(Reach(db, n, e.actor), b)
    ensures Subset(NoteShare(Step(db, e), n, u) & ALL, b)
  {
    var d := NoteShare(Step(db, e), n, u);
    DirectStep(db, e, n, u);
    if d == NoteShare(db, n, u) {
      PartsWithinReach(db, n, u);
      Transitive(d & ALL, Reach(db, n, u), b);
    } else if d == 0 {
      Reflexive(b);
      WithoutHighBits(b, b);
    } else {
      KeepsKnown(d, Reach(db, n, e.actor));
      Transitive(d & ALL, Reach(db, n, e.actor), b);
    }
  }

  /** Below a user's latent bits is below what covers the user's reach. */
  lemma LatentWithin(db: Db, n: NoteId, w: User, l: Bits, b: Bits)
    requires n in db.notes && Subset(l, Latent(db, db.notes[n].notebook, w)) && Subset(Reach(db, n, w), b)
    ensures Subset(l & ALL, b)
  {
    var m := Latent(db, db.notes[n].notebook, w);
    PartsWithinReach(db, n, w);
    WithoutHighBits(l, m);
    Transitive(l & ALL, m & ALL, Reach(db, n, w));
    Transitive(l & ALL, Reach(db, n, w), b);
  }

  lemma LatentBound(db: Db, e: Event, n: NoteId, u: User, b: Bits)
    requires n in db.notes && db.notes[n].owner != e.actor && n in Step(db, e).notes
    requires Subset(Reach(db, n, u), b) && Subset(Reach(db, n, e.actor), b) && !Oversteps(db, e, n, b)
    ensures Subset(Latent(Step(db, e), Step(db, e).notes[n].notebook, u) & ALL, b)
  {
    var nb := Step(db, e).notes[n].notebook;
    var l := Latent(Step(db, e), nb, u);
    OwnerStep(db, e, n);
    Reflexive(b);
    WithoutHighBits(b, b);
    if nb.Some? && l != 0 {
      if Adopts(db, e, n) {
        LatentIsMasked(Step(db, e), nb, u);
        Transitive(l, INHERITED, b);
        KeepsKnown(l, b);
      } else {
        LatentStep(db, e, n, nb.value, u);
        Reflexive(l);
        LatentWithin(db, n, if l == Latent(db, nb, u) then u else e.actor, l, b);
      }
    }
  }

  /** A step of an actor who is within a bound leaves everybody with at most what they reached before
      together with the bound, short of an adoption. */
  lemma StepWithinBound(db: Db, e: Event, n: NoteId, u: User, bound: Bits)
    requires n in db.notes && Closed(bound) && Subset(Reach(db, n, e.actor), bound) && !Oversteps(db, e, n, bound)
    ensures Subset(Reach(Step(db, e), n, u), Both(Reach(db, n, u), bound))
  {
    var db', b := Step(db, e), Both(Reach(db, n, u), bound);
    ReachIsClosed(db, n, u);
    BothCovers(Reach(db, n, u), bound);
    Transitive(Reach(db, n, e.actor), bound, b);
    ReachIsClosed(db', n, u);
    if db.notes[n].owner == e.actor || db.notes[n].owner == u {
      OnlyAllCoversAll(b);
      WithinAll(Reach(db', n, u));
    } else if n in db'.notes {
      OwnerStep(db, e, n);
      DirectBound(db, e, n, u, b);
      if Adopts(db, e, n) {
        Transitive(INHERITED, bound, b);
      }
      LatentBound(db, e, n, u, b);
      ReachBound(db', n, u, b);
    } else {
      WithoutHighBits(b, b);
    }
  }

  /** An adoption hands its actor what a notebook passes on. */
  lemma AdoptionReaches(db: Db, e: Event, n: NoteId)
    requires Adopts(db, e, n)
    ensures Subset(INHERITED, Reach(Step(db, e), n, e.actor))
  {
    var db' := Step(db, e);
    if db.notes[n].owner == e.actor {
      WithinAll(INHERITED);
    } else {
      assert Latent(db', db'.notes[n].notebook, e.actor) == INHERITED;
      PartsOfUnion(NoteShare(db', n, e.actor), INHERITED);
    }
  }

  /** The exact condition, for one step: nobody comes out with more than they had together with the
      bound the actor was within, unless the actor adopts the note's notebook and the bound is below
      what a notebook passes on. */
  lemma StepConfinedIff(db: Db, e: Event, n: NoteId, bound: Bits)
    requires n in db.notes && Closed(bound) && Subset(Reach(db, n, e.actor), bound)
    ensures (forall u :: Subset(Reach(Step(db, e), n, u), Both(Reach(db, n, u), bound)))
            <==> !Oversteps(db, e, n, bound)
  {
    if Oversteps(db, e, n, bound) {
      var u := e.actor;
      AdoptionReaches(db, e, n);
      Reflexive(bound);
      JointBound(Reach(db, n, u), bound, bound);
      if Subset(Reach(Step(db, e), n, u), Both(Reach(db, n, u), bound)) {
        Transitive(INHERITED, Reach(Step(db, e), n, u), Both(Reach(db, n, u), bound));
        Transitive(INHERITED, Both(Reach(db, n, u), bound), bound);
      }
    } else {
      forall u ensures Subset(Reach(Step(db, e), n, u), Both(Reach(db, n, u), bound)) {
        StepWithinBound(db, e, n, u, bound);
      }
    }
  }

  /** What two users reach between them. */
  function Jointly(db: Db, n: NoteId, u: User, v: User): Bits {
    Both(Reach(db, n, u), Reach(db, n, v))
  }

  /** In particular what anyone reaches after a step, they and the actor reached between them before
      it, exactly unless the actor adopts the note's notebook without reaching that much already. */
  lemma StepAmplifiesNothingIff(db: Db, e: Event, n: NoteId)
    requires n in db.notes
    ensures (forall u :: Subset(Reach(Step(db, e), n, u), Jointly(db, n, u, e.actor)))
            <==> !(Adopts(db, e, n) && !Subset(INHERITED, Reach(db, n, e.actor)))
  {
    ReachIsClosed(db, n, e.actor);
    Reflexive(Reach(db, n, e.actor));
    StepConfinedIff(db, e, n, Reach(db, n, e.actor));
    assert forall u :: Jointly(db, n, u, e.actor) == Both(Reach(db, n, u), Reach(db, n, e.actor));
  }

  // ---- Over a whole run ----

  predicate ActedBy(es: seq<Event>, group: set<User>) {
    forall i | 0 <= i < |es| :: es[i].actor in group
  }

  predicate NeverOversteps(db: Db, es: seq<Event>, n: NoteId, bound: Bits)
    decreases |es|
  {
    es == [] || (!Oversteps(db, es[0], n, bound) && NeverOversteps(Step(db, es[0]), es[1..], n, bound))
  }

  predicate Within(db: Db, n: NoteId, group: set<User>, bound: Bits) {
    forall v | v in group :: Subset(Reach(db, n, v), bound)
  }

  /** At the start and after every step of the run. */
  predicate WithinThroughout(db: Db, es: seq<Event>, n: NoteId, group: set<User>, bound: Bits)
    decreases |es|
  {
    Within(db, n, group, bound) && (es == [] || WithinThroughout(Step(db, es[0]), es[1..], n, group, bound))
  }

  /** A step of the group keeps it within its bound. */
  lemma GroupStep(db: Db, e: Event, n: NoteId, group: set<User>, bound: Bits)
    requires n in db.notes && Closed(bound) && Within(db, n, group, bound) && e.actor in group
    requires !Oversteps(db, e, n, bound)
    ensures Within(Step(db, e), n, group, bound)
  {
    forall v | v in group ensures Subset(Reach(Step(db, e), n, v), bound) {
      StepWithinBound(db, e, n, v, bound);
      Reflexive(bound);
      JointBound(Reach(db, n, v), bound, bound);
      Transitive(Reach(Step(db, e), n, v), Both(Reach(db, n, v), bound), bound);
    }
  }

  /** A note goes only with its owner's account. */
  lemma NoteStays(db: Db, e: Event, n: NoteId, bound: Bits)
    requires n in db.notes && Closed(bound) && Subset(Reach(db, n, e.actor), bound) && bound != ALL
    ensures n in Step(db, e).notes
  {
    OnlyAllCoversAll(bound);
  }

  /** However a group of users act, short of an adoption nobody ends up with more on a note than they
      reached at the start together with what the group could reach at the start. */
  lemma {:induction false} NoGroupAmplifies(db: Db, es: seq<Event>, n: NoteId, group: set<User>, bound: Bits, u: User)
    requires n in db.notes && ActedBy(es, group) && NeverOversteps(db, es, n, bound)
    requires Closed(bound) && Within(db, n, group, bound)
    ensures Subset(Reach(Run(db, es), n, u), Both(Reach(db, n, u), bound))
    decreases |es|
  {
    ReachIsClosed(Run(db, es), n, u);
    if es == [] || bound == ALL {
      AllBounds(Reach(Run(db, es), n, u), if es == [] then bound else Reach(db, n, u));
    } else {
      var mid := Step(db, es[0]);
      assert es[0].actor in group;
      GroupStep(db, es[0], n, group, bound);
      StepWithinBound(db, es[0], n, u, bound);
      Absorb(Reach(mid, n, u), Reach(db, n, u), bound);
      NoteStays(db, es[0], n, bound);
      NoGroupAmplifies(mid, es[1..], n, group, bound, u);
      Transitive(Reach(Run(db, es), n, u), Both(Reach(mid, n, u), bound), Both(Reach(db, n, u), bound));
    }
  }

  lemma {:induction false} AllIsNeverExceeded(db: Db, es: seq<Event>, n: NoteId, group: set<User>)
    ensures WithinThroughout(db, es, n, group, ALL) && NeverOversteps(db, es, n, ALL)
    decreases |es|
  {
    forall v | v in group ensures Subset(Reach(db, n, v), ALL) {
      ReachIsClosed(db, n, v);
      WithinAll(Reach(db, n, v));
    }
    WithinAll(INHERITED);
    if es != [] {
      AllIsNeverExceeded(Step(db, es[0]), es[1..], n, group);
    }
  }

  /** The exact condition, for a run: a group that starts within a bound is within it at every state
      exactly when none of its steps adopts the note's notebook past the bound. */
  lemma {:induction false} GroupConfinedIff(db: Db, es: seq<Event>, n: NoteId, group: set<User>, bound: Bits)
    requires n in db.notes && ActedBy(es, group) && Closed(bound) && Within(db, n, group, bound)
    ensures WithinThroughout(db, es, n, group, bound) <==> NeverOversteps(db, es, n, bound)
    decreases |es|
  {
    if bound == ALL {
      AllIsNeverExceeded(db, es, n, group);
    } else if es != [] {
      var e, mid := es[0], Step(db, es[0]);
      assert e.actor in group;
      if Oversteps(db, e, n, bound) {
        AdoptionReaches(db, e, n);
        if Subset(Reach(mid, n, e.actor), bound) {
          Transitive(INHERITED, Reach(mid, n, e.actor), bound);
        }
        assert !Within(mid, n, group, bound);
      } else {
        GroupStep(db, e, n, group, bound);
        NoteStays(db, e, n, bound);
        GroupConfinedIff(mid, es[1..], n, group, bound);
      }
    }
  }

  /** So a group that cannot write to a note, nor could through a dead notebook, never comes to by its
      own acts, adoption aside. */
  lemma GroupStaysWithinBound(db: Db, es: seq<Event>, n: NoteId, group: set<User>, bound: Bits, u: User)
    requires n in db.notes && ActedBy(es, group) && u in group && NeverOversteps(db, es, n, bound)
    requires Closed(bound) && Within(db, n, group, bound) && n in Run(db, es).notes
    ensures Subset(Effective(Run(db, es), n, Run(db, es).notes[n], u), bound)
  {
    var end := Run(db, es);
    NoGroupAmplifies(db, es, n, group, bound, u);
    Reflexive(bound);
    JointBound(Reach(db, n, u), bound, bound);
    EffectiveWithinReach(end, n, u);
    Transitive(Reach(end, n, u), Both(Reach(db, n, u), bound), bound);
    Transitive(Effective(end, n, end.notes[n], u), Reach(end, n, u), bound);
  }

  // ---- The adoption that the condition excludes can happen ----

  const Nobody := Db({}, map[], map[], map[], map[])

  /** User 1 shares notebook 7 with user 2, who puts note 0 into it; then user 1 leaves. */
  const Departure := [Register(1), Register(2), Register(3)]
    + [SetNotebook(1, 7, true), AddNote(2, 0), ShareBook(1, 7, 2, WRITE)]
    + [Relocate(2, 0, Some(7), Strict), Leave(1)]

  const Shared := Db({1, 2, 3}, map[0 := Note(2, None, true)], map[7 := Notebook(1, true)], map[],
                     map[(7, 2) := READ | WRITE])
  const Filed := Shared.(notes := map[0 := Note(2, Some(7), true)])

  /** The note still carries the id of a notebook that is gone. */
  const Orphaned := Db({2, 3}, map[0 := Note(2, Some(7), true)], map[], map[], map[])

  lemma RunThree(db: Db, a: Event, b: Event, c: Event)
    ensures Run(db, [a, b, c]) == Step(Step(Step(db, a), b), c)
  {
    assert [a, b, c][1..] == [b, c] && [b, c][1..] == [c] && [c][1..] == [];
    assert Run(Step(db, a), [b, c]) == Run(Step(Step(db, a), b), [c]);
  }

  lemma BookIsShared()
    ensures Run(Nobody, [Register(1), Register(2), Register(3)]) == Nobody.(users := {1, 2, 3})
    ensures Run(Nobody.(users := {1, 2, 3}), [SetNotebook(1, 7, true), AddNote(2, 0), ShareBook(1, 7, 2, WRITE)])
          == Shared
  {
    var d := Nobody.(users := {1, 2, 3});
    RunThree(Nobody, Register(1), Register(2), Register(3));
    assert Step(Step(Nobody, Register(1)), Register(2)) == Nobody.(users := {1, 2});
    RunThree(d, SetNotebook(1, 7, true), AddNote(2, 0), ShareBook(1, 7, 2, WRITE));
    var d' := Step(Step(d, SetNotebook(1, 7, true)), AddNote(2, 0));
    assert d' == d.(notebooks := map[7 := Notebook(1, true)], notes := map[0 := Note(2, None, true)]);
    assert FromBits(WRITE) == READ | WRITE && Subset(READ | WRITE, ALL) && Can(ALL, SHARE_WRITE);
    assert Step(d', ShareBook(1, 7, 2, WRITE)) == Shared;
  }

  lemma NoteIsFiled()
    ensures Step(Shared, Relocate(2, 0, Some(7), Strict)) == Filed
  {
    assert FromBits(READ | WRITE) == READ | WRITE && Can(READ | WRITE, WRITE) && Can(ALL, WRITE);
    assert (7, 2) in Shared.notebookShares;
    assert Losers(Shared, 0, None, Some(7), 2) == {};
    assert (set n | n in Shared.notes && Shared.notes[n].live && Shared.notes[n].notebook == Some(7)) == {};
    assert Move(Shared, 0, Some(7), 2, Strict).Moved?;
  }

  lemma OwnerHasLeft()
    ensures Step(Filed, Leave(1)) == Orphaned
  {
  }

  lemma {:induction false} RunSplits(db: Db, es: seq<Event>, fs: seq<Event>)
    ensures Run(db, es + fs) == Run(Run(db, es), fs)
    decreases |es|
  {
    if es == [] {
      assert es + fs == fs;
    } else {
      assert (es + fs)[1..] == es[1..] + fs;
      RunSplits(Step(db, es[0]), es[1..], fs);
    }
  }

  /** A user who reaches nothing of a note creates a notebook under the id it carries and may read
      and write it. */
  lemma AdoptionBreaksTheBound()
    ensures Run(Nobody, Departure) == Orphaned && Sound(Orphaned)
    ensures Reach(Orphaned, 0, 3) == 0 && Adopts(Orphaned, SetNotebook(3, 7, true), 0)
    ensures var db := Run(Nobody, Departure + [SetNotebook(3, 7, true)]);
      0 in db.notes && Effective(db, 0, db.notes[0], 3) == READ | WRITE
  {
    BookIsShared();
    NoteIsFiled();
    OwnerHasLeft();
    var first := [Register(1), Register(2), Register(3)];
    var second := [SetNotebook(1, 7, true), AddNote(2, 0), ShareBook(1, 7, 2, WRITE)];
    var third := [Relocate(2, 0, Some(7), Strict), Leave(1)];
    RunSplits(Nobody, first, second);
    RunSplits(Nobody, first + second, third);
    assert third[1..] == [Leave(1)] && [Leave(1)][1..] == [];
    assert Run(Shared, third) == Run(Filed, [Leave(1)]);
    var adopt := SetNotebook(3, 7, true);
    RunSplits(Nobody, Departure, [adopt]);
    assert Run(Orphaned, [adopt]) == Step(Orphaned, adopt);
    var db := Step(Orphaned, adopt);
    assert Reach(Orphaned, 0, 3) == FromBits(0 | 0) == 0;
    EffectiveFormula(db, 0, db.notes[0], 3);
    assert InheritedBits(db, Some(7), 3) == READ | WRITE;
  }
}
