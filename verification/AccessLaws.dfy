/**
 Who may do what to a note or notebook and what comes of it, told from the tables: the resolver,
 moving, sharing, transferring, creating and deleting.
 */
module AccessLaws {
  import opened Prelude
  import opened Permissions
  import opened MoveGuard
  import opened Sharing

  // ---- The resolver ----

  predicate LiveBook(db: Db, nb: NotebookId) {
    nb in db.notebooks && db.notebooks[nb].live
  }

  /** What a live notebook passes on: read and write to its owner, of a share what of these it has;
      a deleted one passes on nothing. */
  function PassedOn(db: Db, nb: NotebookId, u: User): Bits {
    if !LiveBook(db, nb) then 0
    else if db.notebooks[nb].owner == u then 3
    else if (nb, u) in db.notebookShares then FromBits(db.notebookShares[(nb, u)]) & 3
    else 0
  }

  lemma AllPassesOnThree()
    ensures FromBits(31) & 3 == 3 && FromBits(0) & 3 == 0 && FromBits(0) == 0
  {
  }

  lemma InheritedIsPassedOn(db: Db, nb: NotebookId, u: User)
    ensures InheritedBits(db, Some(nb), u) == PassedOn(db, nb, u)
  {
    AllPassesOnThree();
  }

  /** The owner can do everything. Anybody else has the closure of their direct share and of what the
      notebook passes on, and no access when that is nothing. */
  lemma ResolverLaw(db: Db, n: NoteId, note: Note, u: User)
    ensures var direct: Bits := if (n, u) in db.noteShares then db.noteShares[(n, u)] else 0;
      var caps := FromBits(direct | if note.notebook.Some? then PassedOn(db, note.notebook.value, u) else 0);
      NoteAccess(db, n, note, u)
      == if note.owner == u then Some(Access(31, true)) else if caps == 0 then None else Some(Access(caps, false))
  {
    if note.owner != u {
      if note.notebook.Some? {
        InheritedIsPassedOn(db, note.notebook.value, u);
      }
      EffectiveFormula(db, n, note, u);
    }
  }

  lemma BookResolverLaw(db: Db, nb: NotebookId, u: User)
    ensures NotebookAccess(db, nb, u)
      == if !LiveBook(db, nb) then None
         else if db.notebooks[nb].owner == u then Some(Access(31, true))
         else if (nb, u) in db.notebookShares then Some(Access(FromBits(db.notebookShares[(nb, u)]), false))
         else None
  {
  }

  // ---- Moving a note ----

  predicate MayWrite(db: Db, n: NoteId, u: User)
    requires n in db.notes
  {
    Effective(db, n, db.notes[n], u) & 2 == 2
  }

  predicate OwnsSource(db: Db, note: Note, u: User) {
    note.notebook.Some? && LiveBook(db, note.notebook.value) && db.notebooks[note.notebook.value].owner == u
  }

  /** The note's owner may move it; who owns the notebook it is in may throw it out, where that is allowed. */
  predicate MayMove(db: Db, note: Note, dest: Option<NotebookId>, actor: User, scheme: Scheme) {
    note.owner == actor || (OwnsSource(db, note, actor) && dest == None && scheme == EjectionAllowed)
  }

  /** Nobody stands in the way: no other user's access shrinks, and a note's owner who holds a share of
      the notebook counts as losing although they do not. */
  ghost predicate NobodyInTheWay(db: Db, n: NoteId, dest: Option<NotebookId>, actor: User)
    requires n in db.notes && db.notes[n].notebook.Some?
  {
    && (forall u | u != actor :: !Shrinks(db, n, dest, u))
    && (db.notes[n].owner != actor ==> (db.notes[n].notebook.value, db.notes[n].owner) !in db.notebookShares)
  }

  predicate BookWritable(db: Db, nb: NotebookId, u: User) {
    && LiveBook(db, nb)
    && (db.notebooks[nb].owner == u
        || ((nb, u) in db.notebookShares && FromBits(db.notebookShares[(nb, u)]) & 2 == 2))
  }

  predicate BookFull(db: Db, nb: NotebookId) {
    |set n | n in db.notes && db.notes[n].live && db.notes[n].notebook == Some(nb)| >= 16777216
  }

  predicate DestinationOpen(db: Db, dest: Option<NotebookId>, u: User) {
    dest.Some? ==> BookWritable(db, dest.value, u) && !BookFull(db, dest.value)
  }

  lemma LosersIffInTheWay(db: Db, n: NoteId, dest: Option<NotebookId>, actor: User, scheme: Scheme)
    requires Sound(db) && n in db.notes && OwnsSource(db, db.notes[n], actor)
    requires MayMove(db, db.notes[n], dest, actor, scheme)
    ensures Losers(db, n, db.notes[n].notebook, dest, actor) == {} <==> NobodyInTheWay(db, n, dest, actor)
  {
    var note, losers := db.notes[n], Losers(db, n, db.notes[n].notebook, dest, actor);
    OwnerNeverShrinks(db, n, dest);
    forall u | u != actor && u != note.owner ensures u in losers <==> Shrinks(db, n, dest, u) {
      GuardAgreesWithResolver(db, n, dest, actor, u);
    }
    if note.owner != actor {
      OwnerIsListedIff(db, n, note.notebook.value, actor);
    }
    assert actor !in losers;
    if NobodyInTheWay(db, n, dest, actor) {
      assert forall u :: u !in losers;
    }
  }

  lemma WritableMeans(db: Db, nb: NotebookId, u: User)
    ensures BookWritable(db, nb, u)
            <==> NotebookAccess(db, nb, u).Some? && Can(NotebookAccess(db, nb, u).value.caps, WRITE)
    ensures LiveBook(db, nb) <==> NotebookOwner(db, nb).Some?
  {
    AllWrites();
  }

  lemma AllWrites()
    ensures Can(ALL, WRITE) && ALL == 31 && WRITE == 2
  {
  }

  /** A real move is done exactly when the actor may write the note, may move it, stands in nobody's way
      where they own the source, and may write to a destination that is alive and not full. Each refusal
      has its own condition. */
  lemma MoveLaw(db: Db, n: NoteId, dest: Option<NotebookId>, actor: User, scheme: Scheme)
    requires Sound(db) && n in db.notes && db.notes[n].live && dest != db.notes[n].notebook
    ensures var note, r := db.notes[n], Move(db, n, dest, actor, scheme);
      var entitled := MayWrite(db, n, actor) && MayMove(db, note, dest, actor, scheme);
      var free := OwnsSource(db, note, actor) ==> NobodyInTheWay(db, n, dest, actor);
      && (r.Blocked? <==> entitled && !free)
      && (r.Missing? <==> entitled && free && dest.Some? && !LiveBook(db, dest.value))
      && (r.Full? <==>
            entitled && free && dest.Some? && BookWritable(db, dest.value, actor) && BookFull(db, dest.value))
      && (r.Moved? <==> entitled && free && DestinationOpen(db, dest, actor))
  {
    var note := db.notes[n];
    if MayMove(db, note, dest, actor, scheme) && OwnsSource(db, note, actor) {
      LosersIffInTheWay(db, n, dest, actor, scheme);
    }
    MoveCases(db, n, dest, actor, scheme);
  }

  /** The same in terms of the guard's list. */
  lemma MoveCases(db: Db, n: NoteId, dest: Option<NotebookId>, actor: User, scheme: Scheme)
    requires n in db.notes && db.notes[n].live && dest != db.notes[n].notebook
    ensures var note, r := db.notes[n], Move(db, n, dest, actor, scheme);
      var entitled := MayWrite(db, n, actor) && MayMove(db, note, dest, actor, scheme);
      var free := OwnsSource(db, note, actor) ==> Losers(db, n, note.notebook, dest, actor) == {};
      && (r.Blocked? <==> entitled && !free)
      && (r.Missing? <==> entitled && free && dest.Some? && !LiveBook(db, dest.value))
      && (r.Full? <==>
            entitled && free && dest.Some? && BookWritable(db, dest.value, actor) && BookFull(db, dest.value))
      && (r.Moved? <==> entitled && free && DestinationOpen(db, dest, actor))
  {
    if dest.Some? {
      WritableMeans(db, dest.value, actor);
    }
  }

  /** A move changes nothing but the note's notebook. */
  lemma MoveEffect(db: Db, n: NoteId, dest: Option<NotebookId>, actor: User, scheme: Scheme)
    requires Move(db, n, dest, actor, scheme).Moved?
    ensures n in db.notes
    ensures Move(db, n, dest, actor, scheme).db
            == db.(notes := db.notes[n := Note(db.notes[n].owner, dest, db.notes[n].live)])
  {
  }

  /** Putting a note where it is takes the right to write it and changes nothing; a note that is not
      there cannot be moved. */
  lemma IdleMoveLaw(db: Db, n: NoteId, dest: Option<NotebookId>, actor: User, scheme: Scheme)
    ensures n !in db.notes || !db.notes[n].live ==> Move(db, n, dest, actor, scheme) == Missing
    ensures n in db.notes && db.notes[n].live && dest == db.notes[n].notebook ==>
      Move(db, n, dest, actor, scheme) == if MayWrite(db, n, actor) then Moved(db, {}) else Forbidden
  {
    if n in db.notes && dest == db.notes[n].notebook {
      assert Relocated(db, n, dest) == db;
    }
  }

  /** A notebook's owner who throws a note out is the only one to tell its owner. */
  lemma EjectionNotice(db: Db, n: NoteId, actor: User, scheme: Scheme)
    requires n in db.notes && OwnsSource(db, db.notes[n], actor) && Move(db, n, None, actor, scheme).Moved?
    ensures Move(db, n, None, actor, scheme).notices == if db.notes[n].owner == actor then {} else {db.notes[n].owner}
  {
  }

  /** Whoever owns neither the note nor the notebook it is in never changes where it is. */
  lemma StrangersMoveNothing(db: Db, e: Event, n: NoteId)
    requires n in db.notes && n in Step(db, e).notes
    requires e.actor != db.notes[n].owner && !OwnsSource(db, db.notes[n], e.actor)
    ensures Step(db, e).notes[n].notebook == db.notes[n].notebook
  {
  }

  // ---- Sharing and transferring notes ----

  predicate Alive(db: Db, n: NoteId) {
    n in db.notes && db.notes[n].live
  }

  /** Whoever may share with write rights, on the note. */
  predicate MayShare(db: Db, n: NoteId, u: User)
    requires n in db.notes
  {
    Effective(db, n, db.notes[n], u) & 8 == 8
  }

  lemma MayShareMeans(db: Db, n: NoteId, u: User)
    requires n in db.notes
    ensures var a := NoteAccess(db, n, db.notes[n], u);
      MayShare(db, n, u) <==> a.Some? && Can(a.value.caps, SHARE_WRITE)
  {
  }

  ghost predicate SameShares(a: map<(nat, User), Bits>, b: map<(nat, User), Bits>, k: (nat, User)) {
    forall o | o != k :: (o in a <==> o in b) && (o in a ==> a[o] == b[o])
  }

  /** A share is granted exactly by somebody who may share with write rights, for a set of capabilities
      that is not empty and not more than they have, to an existing user who does not own the note. */
  lemma ShareLaw(db: Db, actor: User, n: NoteId, target: User, word: Bits)
    ensures var r := ShareNote(db, actor, n, target, word);
      && (r.Done? <==>
            && Alive(db, n) && MayShare(db, n, actor) && target in db.users && target != db.notes[n].owner
            && FromBits(word) != 0 && Subset(FromBits(word), Effective(db, n, db.notes[n], actor)))
      && (r == Refused(NotFound) <==>
            || !Alive(db, n)
            || (&& MayShare(db, n, actor) && FromBits(word) != 0 && target !in db.users
                && Subset(FromBits(word), Effective(db, n, db.notes[n], actor))))
      && (r == Refused(BadRequest) <==>
            && Alive(db, n) && MayShare(db, n, actor)
            && (FromBits(word) == 0
                || (&& target in db.users && target == db.notes[n].owner
                    && Subset(FromBits(word), Effective(db, n, db.notes[n], actor)))))
      && (r.Done? ==>
            && r.db == db.(noteShares := r.db.noteShares) && SameShares(r.db.noteShares, db.noteShares, (n, target))
            && (n, target) in r.db.noteShares && r.db.noteShares[(n, target)] == FromBits(word))
  {
    if n in db.notes {
      MayShareMeans(db, n, actor);
    }
  }

  /** A share is withdrawn by somebody who may share with write rights, or by its holder. */
  lemma UnshareLaw(db: Db, actor: User, n: NoteId, target: User)
    ensures var r := UnshareNote(db, actor, n, target);
      && (r.Done? <==>
            && Alive(db, n) && NoteAccess(db, n, db.notes[n], actor).Some?
            && (MayShare(db, n, actor) || target == actor))
      && (r == Refused(NotFound) <==> !Alive(db, n))
      && (r.Done? ==>
            && r.db == db.(noteShares := r.db.noteShares) && SameShares(r.db.noteShares, db.noteShares, (n, target))
            && (n, target) !in r.db.noteShares)
  {
    if n in db.notes {
      MayShareMeans(db, n, actor);
    }
  }

  /** A note is given away exactly by its owner, to an existing user, whose share of it goes. */
  lemma TransferLaw(db: Db, actor: User, n: NoteId, target: User)
    ensures var r := TransferNote(db, actor, n, target);
      && (r.Done? <==> Alive(db, n) && db.notes[n].owner == actor && target in db.users)
      && (r == Refused(NotFound) <==> !Alive(db, n) || (db.notes[n].owner == actor && target !in db.users))
      && (r.Done? ==>
            && r.db == db.(notes := db.notes[n := db.notes[n].(owner := target)], noteShares := r.db.noteShares)
            && SameShares(r.db.noteShares, db.noteShares, (n, target)) && (n, target) !in r.db.noteShares)
  {
  }

  // ---- Sharing and transferring notebooks ----

  predicate MayShareBook(db: Db, nb: NotebookId, u: User) {
    && LiveBook(db, nb)
    && (db.notebooks[nb].owner == u
        || ((nb, u) in db.notebookShares && FromBits(db.notebookShares[(nb, u)]) & 8 == 8))
  }

  function BookCaps(db: Db, nb: NotebookId, u: User): Bits {
    if !LiveBook(db, nb) then 0
    else if db.notebooks[nb].owner == u then 31
    else if (nb, u) in db.notebookShares then FromBits(db.notebookShares[(nb, u)])
    else 0
  }

  predicate SeesBook(db: Db, nb: NotebookId, u: User) {
    LiveBook(db, nb) && (db.notebooks[nb].owner == u || (nb, u) in db.notebookShares)
  }

  lemma BookMeans(db: Db, nb: NotebookId, u: User)
    ensures SeesBook(db, nb, u) <==> NotebookAccess(db, nb, u).Some?
    ensures SeesBook(db, nb, u) ==> NotebookAccess(db, nb, u).value.caps == BookCaps(db, nb, u)
    ensures MayShareBook(db, nb, u) <==> SeesBook(db, nb, u) && Can(BookCaps(db, nb, u), SHARE_WRITE)
    ensures SeesBook(db, nb, u) ==> (NotebookAccess(db, nb, u).value.isOwner <==> db.notebooks[nb].owner == u)
  {
    AllShares();
  }

  lemma AllShares()
    ensures Can(ALL, SHARE_WRITE) && ALL == 31 && SHARE_WRITE == 8
  {
  }

  lemma ShareBookLaw(db: Db, actor: User, nb: NotebookId, target: User, word: Bits)
    ensures var r := ShareNotebook(db, actor, nb, target, word);
      && (r.Done? <==>
            && MayShareBook(db, nb, actor) && target in db.users && target != db.notebooks[nb].owner
            && FromBits(word) != 0 && Subset(FromBits(word), BookCaps(db, nb, actor)))
      && (r == Refused(NotFound) <==>
            || !LiveBook(db, nb)
            || (&& MayShareBook(db, nb, actor) && FromBits(word) != 0 && target !in db.users
                && Subset(FromBits(word), BookCaps(db, nb, actor))))
      && (r == Refused(BadRequest) <==>
            && MayShareBook(db, nb, actor)
            && (FromBits(word) == 0
                || (&& target in db.users && target == db.notebooks[nb].owner
                    && Subset(FromBits(word), BookCaps(db, nb, actor)))))
      && (r.Done? ==>
            && r.db == db.(notebookShares := r.db.notebookShares)
            && SameShares(r.db.notebookShares, db.notebookShares, (nb, target))
            && (nb, target) in r.db.notebookShares && r.db.notebookShares[(nb, target)] == FromBits(word))
  {
    BookMeans(db, nb, actor);
  }

  lemma UnshareBookLaw(db: Db, actor: User, nb: NotebookId, target: User)
    ensures var r := UnshareNotebook(db, actor, nb, target);
      && (r.Done? <==> SeesBook(db, nb, actor) && (MayShareBook(db, nb, actor) || target == actor))
      && (r == Refused(NotFound) <==> !LiveBook(db, nb))
      && (r.Done? ==>
            && r.db == db.(notebookShares := r.db.notebookShares)
            && SameShares(r.db.notebookShares, db.notebookShares, (nb, target)) && (nb, target) !in r.db.notebookShares)
  {
    BookMeans(db, nb, actor);
  }

  lemma TransferBookLaw(db: Db, actor: User, nb: NotebookId, target: User)
    ensures var r := TransferNotebook(db, actor, nb, target);
      && (r.Done? <==> LiveBook(db, nb) && db.notebooks[nb].owner == actor && target in db.users)
      && (r == Refused(NotFound) <==> !LiveBook(db, nb) || (db.notebooks[nb].owner == actor && target !in db.users))
      && (r.Done? ==>
            && r.db == db.(notebooks := db.notebooks[nb := Notebook(target, true)],
                           notebookShares := r.db.notebookShares)
            && SameShares(r.db.notebookShares, db.notebookShares, (nb, target)) && (nb, target) !in r.db.notebookShares)
  {
    BookMeans(db, nb, actor);
  }

  /** After a notebook share its holder has exactly what was asked for on the notebook, and read and
      write of it on each of its notes. */
  lemma BookShareTakesEffect(db: Db, actor: User, nb: NotebookId, target: User, word: Bits)
    requires ShareNotebook(db, actor, nb, target, word).Done?
    ensures var db' := ShareNotebook(db, actor, nb, target, word).db;
      && NotebookAccess(db', nb, target) == Some(Access(FromBits(word), false))
      && PassedOn(db', nb, target) == FromBits(word) & 3
  {
    FromBitsIsLeastClosure(FromBits(word), 0);
  }

  // ---- Coming and going ----

  lemma CreateLaw(db: Db, actor: User, n: NoteId)
    ensures var r := CreateNote(db, actor, n);
      && (r.Done? <==> n !in db.notes && actor in db.users)
      && (r.Done? ==> r.db == db.(notes := db.notes[n := Note(actor, None, true)]))
  {
  }

  lemma DeleteLaw(db: Db, actor: User, n: NoteId)
    ensures var r := DeleteNote(db, actor, n);
      && (r.Done? <==> Alive(db, n) && db.notes[n].owner == actor)
      && (r.Done? ==> r.db == db.(notes := db.notes[n := Note(actor, db.notes[n].notebook, false)]))
  {
  }

  /** A notebook row is written by its owner or by whoever comes first, and left alone otherwise. */
  lemma NotebookLaw(db: Db, actor: User, nb: NotebookId, live: bool)
    ensures var r := PutNotebook(db, actor, nb, live);
      && (r.Done? <==> actor in db.users)
      && (r.Done? ==>
            r.db == if nb in db.notebooks && db.notebooks[nb].owner != actor then db
                    else db.(notebooks := db.notebooks[nb := Notebook(actor, live)]))
  {
  }

  /** A refused request changes nothing, and a new account starts with nothing. */
  lemma RefusalLaw(db: Db, e: Event)
    ensures Handle(db, e).Refused? ==> Step(db, e) == db
    ensures e.Register? ==> Step(db, e) == db.(users := db.users + {e.actor})
  {
    if e.Register? && e.actor in db.users {
      assert db.users + {e.actor} == db.users;
    }
  }

  /** The move handler does what a move does and tells a missing note or notebook from the rest. */
  lemma RelocateLaw(db: Db, actor: User, n: NoteId, dest: Option<NotebookId>, scheme: Scheme)
    ensures var r, m := MoveNote(db, actor, n, dest, scheme), Move(db, n, dest, actor, scheme);
      && (r.Done? <==> m.Moved?) && (r.Done? ==> r.db == m.db) && (r == Refused(NotFound) <==> m.Missing?)
  {
  }
}
