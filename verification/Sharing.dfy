/**
 Sharing, transferring and deleting, as serialisable transactions over the permission
 tables: what every run of them keeps, and what no run of them can bring about.
 */
module Sharing {
  import opened Prelude
  import opened Permissions
  import opened MoveGuard

  datatype Error = NotFound | Denied | BadRequest

  datatype Reply = Done(db: Db) | Refused(error: Error)

  // ---- Handlers ----

  predicate LiveNote(db: Db, n: NoteId) {
    n in db.notes && db.notes[n].live
  }

  function DropNoteShare(db: Db, n: NoteId, u: User): Db {
    db.(noteShares := db.noteShares - {(n, u)})
  }

  function DropNotebookShare(db: Db, nb: NotebookId, u: User): Db {
    db.(notebookShares := db.notebookShares - {(nb, u)})
  }

  /** `create_share` */
  function ShareNote(db: Db, actor: User, n: NoteId, target: User, word: Bits): Reply {
    if !LiveNote(db, n) then Refused(NotFound)
    else
      var access := NoteAccess(db, n, db.notes[n], actor);
      var requested := FromBits(word);
      if access.None? || !Can(access.value.caps, SHARE_WRITE) then Refused(Denied)
      else if requested == 0 then Refused(BadRequest)
      else if !Subset(requested, access.value.caps) then Refused(Denied)
      else if target !in db.users then Refused(NotFound)
      else if target == db.notes[n].owner then Refused(BadRequest)
      else Done(db.(noteShares := db.noteShares[(n, target) := requested]))
  }

  /** `delete_share`: anybody with access may drop their own share. */
  function UnshareNote(db: Db, actor: User, n: NoteId, target: User): Reply {
    if !LiveNote(db, n) then Refused(NotFound)
    else
      var access := NoteAccess(db, n, db.notes[n], actor);
      if access.None? || (!Can(access.value.caps, SHARE_WRITE) && target != actor) then Refused(Denied)
      else Done(DropNoteShare(db, n, target))
  }

  /** `transfer_ownership`: the previous owner keeps nothing. */
  function TransferNote(db: Db, actor: User, n: NoteId, target: User): Reply {
    if !LiveNote(db, n) then Refused(NotFound)
    else
      var access := NoteAccess(db, n, db.notes[n], actor);
      if access.None? || !access.value.isOwner then Refused(Denied)
      else if target !in db.users then Refused(NotFound)
      else
        var dropped := DropNoteShare(db, n, target);
        Done(dropped.(notes := dropped.notes[n := dropped.notes[n].(owner := target)]))
  }

  function NoAccess(db: Db, nb: NotebookId): Error {
    if NotebookOwner(db, nb).None? then NotFound else Denied
  }

  /** `create_notebook_share` */
  function ShareNotebook(db: Db, actor: User, nb: NotebookId, target: User, word: Bits): Reply {
    var access := NotebookAccess(db, nb, actor);
    var requested := FromBits(word);
    if access.None? then Refused(NoAccess(db, nb))
    else if !Can(access.value.caps, SHARE_WRITE) then Refused(Denied)
    else if requested == 0 then Refused(BadRequest)
    else if !Subset(requested, access.value.caps) then Refused(Denied)
    else if target !in db.users then Refused(NotFound)
    else if NotebookOwner(db, nb) == Some(target) then Refused(BadRequest)
    else Done(db.(notebookShares := db.notebookShares[(nb, target) := requested]))
  }

  /** `delete_notebook_share` */
  function UnshareNotebook(db: Db, actor: User, nb: NotebookId, target: User): Reply {
    var access := NotebookAccess(db, nb, actor);
    if access.None? then Refused(NoAccess(db, nb))
    else if !Can(access.value.caps, SHARE_WRITE) && target != actor then Refused(Denied)
    else Done(DropNotebookShare(db, nb, target))
  }

  /** `transfer_notebook` */
  function TransferNotebook(db: Db, actor: User, nb: NotebookId, target: User): Reply {
    var access := NotebookAccess(db, nb, actor);
    if access.None? then Refused(NoAccess(db, nb))
    else if !access.value.isOwner then Refused(Denied)
    else if target !in db.users then Refused(NotFound)
    else
      var given := db.(notebooks := db.notebooks[nb := db.notebooks[nb].(owner := target)]);
      Done(DropNotebookShare(given, nb, target))
  }

  function CreateNote(db: Db, actor: User, n: NoteId): Reply {
    if n in db.notes then Refused(BadRequest)
    else if actor !in db.users then Refused(NotFound)
    else Done(db.(notes := db.notes[n := Note(actor, None, true)]))
  }

  function DeleteNote(db: Db, actor: User, n: NoteId): Reply {
    if !LiveNote(db, n) then Refused(NotFound)
    else if db.notes[n].owner != actor then Refused(Denied)
    else Done(db.(notes := db.notes[n := db.notes[n].(live := false)]))
  }

  /** A notebook arrives, dies or comes back through its owner's journal. */
  function PutNotebook(db: Db, actor: User, nb: NotebookId, live: bool): Reply {
    if actor !in db.users then Refused(NotFound)
    else if nb in db.notebooks && db.notebooks[nb].owner != actor then Done(db)
    else Done(db.(notebooks := db.notebooks[nb := Notebook(actor, live)]))
  }

  function MoveNote(db: Db, actor: User, n: NoteId, dest: Option<NotebookId>, scheme: Scheme): Reply {
    var r := Move(db, n, dest, actor, scheme);
    if r.Moved? then Done(r.db) else if r.Missing? then Refused(NotFound) else Refused(Denied)
  }

  predicate OwnsNote(db: Db, u: User, n: NoteId) {
    n in db.notes && db.notes[n].owner == u
  }

  predicate OwnsNotebook(db: Db, u: User, nb: NotebookId) {
    nb in db.notebooks && db.notebooks[nb].owner == u
  }

  /** `delete_account`: the foreign keys cascade over everything the user owns or was given. */
  function DeleteAccount(db: Db, u: User): Reply {
    if u !in db.users then Refused(NotFound)
    else Done(Db(
      db.users - {u},
      map n | n in db.notes && db.notes[n].owner != u :: db.notes[n],
      map nb | nb in db.notebooks && db.notebooks[nb].owner != u :: db.notebooks[nb],
      map k | k in db.noteShares && k.1 != u && !OwnsNote(db, u, k.0) :: db.noteShares[k],
      map k | k in db.notebookShares && k.1 != u && !OwnsNotebook(db, u, k.0) :: db.notebookShares[k]))
  }

  // ---- Runs ----

  datatype Event =
    | Register(actor: User)
    | AddNote(actor: User, note: NoteId)
    | RemoveNote(actor: User, note: NoteId)
    | SetNotebook(actor: User, notebook: NotebookId, live: bool)
    | Relocate(actor: User, note: NoteId, dest: Option<NotebookId>, scheme: Scheme)
    | Share(actor: User, note: NoteId, target: User, word: Bits)
    | Unshare(actor: User, note: NoteId, target: User)
    | Give(actor: User, note: NoteId, target: User)
    | ShareBook(actor: User, notebook: NotebookId, target: User, word: Bits)
    | UnshareBook(actor: User, notebook: NotebookId, target: User)
    | GiveBook(actor: User, notebook: NotebookId, target: User)
    | Leave(actor: User)

  function Handle(db: Db, e: Event): Reply {
    match e
    case Register(u) => if u in db.users then Refused(BadRequest) else Done(db.(users := db.users + {u}))
    case AddNote(u, n) => CreateNote(db, u, n)
    case RemoveNote(u, n) => DeleteNote(db, u, n)
    case SetNotebook(u, nb, live) => PutNotebook(db, u, nb, live)
    case Relocate(u, n, dest, scheme) => MoveNote(db, u, n, dest, scheme)
    case Share(u, n, target, word) => ShareNote(db, u, n, target, word)
    case Unshare(u, n, target) => UnshareNote(db, u, n, target)
    case Give(u, n, target) => TransferNote(db, u, n, target)
    case ShareBook(u, nb, target, word) => ShareNotebook(db, u, nb, target, word)
    case UnshareBook(u, nb, target) => UnshareNotebook(db, u, nb, target)
    case GiveBook(u, nb, target) => TransferNotebook(db, u, nb, target)
    case Leave(u) => DeleteAccount(db, u)
  }

  function Step(db: Db, e: Event): Db {
    if Handle(db, e).Done? then Handle(db, e).db else db
  }

  function Run(db: Db, es: seq<Event>): Db
    decreases |es|
  {
    if es == [] then db else Run(Step(db, es[0]), es[1..])
  }

  // ---- The tables stay well-formed ----

  predicate Grant(b: Bits) {
    b != 0 && Closed(b)
  }

  predicate NotesSound(db: Db) {
    && (forall n | n in db.notes :: db.notes[n].owner in db.users)
    && (forall k | k in db.noteShares ::
          k.0 in db.notes && k.1 in db.users && k.1 != db.notes[k.0].owner && Grant(db.noteShares[k]))
  }

  predicate NotebooksSound(db: Db) {
    && (forall nb | nb in db.notebooks :: db.notebooks[nb].owner in db.users)
    && (forall k | k in db.notebookShares ::
          k.0 in db.notebooks && k.1 in db.users && k.1 != db.notebooks[k.0].owner && Grant(db.notebookShares[k]))
  }

  /** Every stored share is a non-empty closed set of capabilities, held by somebody else than
      the owner, on a row that exists. */
  predicate Sound(db: Db) {
    NotesSound(db) && NotebooksSound(db)
  }

  lemma ShareIsGrant(word: Bits)
    ensures FromBits(word) != 0 ==> Grant(FromBits(word))
  {
  }

  lemma ShareKeeps(db: Db, e: Event)
    requires (e.Share? && NotesSound(db)) || (e.ShareBook? && NotebooksSound(db))
    ensures e.Share? ==> NotesSound(Step(db, e))
    ensures e.ShareBook? ==> NotebooksSound(Step(db, e))
  {
    ShareIsGrant(e.word);
  }

  /** The new owner's own share goes with the transfer. */
  lemma GiveKeeps(db: Db, e: Event)
    requires (e.Give? && NotesSound(db)) || (e.GiveBook? && NotebooksSound(db))
    ensures e.Give? ==> NotesSound(Step(db, e))
    ensures e.GiveBook? ==> NotebooksSound(Step(db, e))
  {
  }

  lemma LeaveKeepsNotes(db: Db, e: Event)
    requires e.Leave? && NotesSound(db)
    ensures NotesSound(Step(db, e))
  {
  }

  lemma LeaveKeepsNotebooks(db: Db, e: Event)
    requires e.Leave? && NotebooksSound(db)
    ensures NotebooksSound(Step(db, e))
  {
  }

  lemma UnshareKeeps(db: Db, e: Event)
    requires (e.Unshare? && NotesSound(db)) || (e.UnshareBook? && NotebooksSound(db))
    ensures e.Unshare? ==> NotesSound(Step(db, e))
    ensures e.UnshareBook? ==> NotebooksSound(Step(db, e))
  {
  }

  lemma StepKeepsNotes(db: Db, e: Event)
    requires NotesSound(db)
    ensures NotesSound(Step(db, e))
  {
    if e.Share? {
      ShareKeeps(db, e);
    } else if e.Give? {
      GiveKeeps(db, e);
    } else if e.Leave? {
      LeaveKeepsNotes(db, e);
    } else if e.Unshare? {
      UnshareKeeps(db, e);
    } else {
      assert Step(db, e).noteShares == db.noteShares;
    }
  }

  lemma StepKeepsNotebooks(db: Db, e: Event)
    requires NotebooksSound(db)
    ensures NotebooksSound(Step(db, e))
  {
    if e.ShareBook? {
      ShareKeeps(db, e);
    } else if e.GiveBook? {
      GiveKeeps(db, e);
    } else if e.Leave? {
      LeaveKeepsNotebooks(db, e);
    } else if e.UnshareBook? {
      UnshareKeeps(db, e);
    } else {
      assert Step(db, e).notebookShares == db.notebookShares;
    }
  }

  lemma {:induction false} RunKeepsSound(db: Db, es: seq<Event>)
    requires Sound(db)
    ensures Sound(Run(db, es))
    decreases |es|
  {
    if es != [] {
      StepKeepsNotes(db, es[0]);
      StepKeepsNotebooks(db, es[0]);
      RunKeepsSound(Step(db, es[0]), es[1..]);
    }
  }

  // ---- What each handler brings about ----

  lemma GrantCovers(word: Bits, i: Bits)
    ensures Subset(FromBits(word), FromBits(FromBits(word) | i))
  {
  }

  /** Access depends on the user's own share and on the notebook tables. */
  lemma SameAccess(db: Db, db': Db, n: NoteId, note: Note, u: User)
    requires NoteShare(db', n, u) == NoteShare(db, n, u)
    requires db'.notebooks == db.notebooks && db'.notebookShares == db.notebookShares
    ensures NoteAccess(db', n, note, u) == NoteAccess(db, n, note, u)
    ensures InheritedBits(db', note.notebook, u) == InheritedBits(db, note.notebook, u)
  {
  }

  lemma LeftWithInherited(db: Db, n: NoteId, note: Note, u: User)
    requires (n, u) !in db.noteShares && note.owner != u
    ensures Effective(db, n, note, u) == FromBits(0 | InheritedBits(db, note.notebook, u))
  {
    EffectiveFormula(db, n, note, u);
  }

  /** After a share its holder can do at least what was asked for; nobody else's access changes. */
  lemma ShareTakesEffect(db: Db, actor: User, n: NoteId, target: User, word: Bits, u: User)
    requires ShareNote(db, actor, n, target, word).Done?
    ensures var db' := ShareNote(db, actor, n, target, word).db;
      && Subset(FromBits(word), Effective(db', n, db'.notes[n], target))
      && (u != target ==> NoteAccess(db', n, db'.notes[n], u) == NoteAccess(db, n, db.notes[n], u))
  {
    var db' := ShareNote(db, actor, n, target, word).db;
    EffectiveFormula(db', n, db'.notes[n], target);
    GrantCovers(word, InheritedBits(db', db'.notes[n].notebook, target));
    if u != target {
      SameAccess(db, db', n, db.notes[n], u);
    }
  }

  /** After an unshare the target is left with what the notebook passes on; nobody else's access changes. */
  lemma UnshareRevokes(db: Db, actor: User, n: NoteId, target: User, u: User)
    requires UnshareNote(db, actor, n, target).Done?
    ensures var db' := UnshareNote(db, actor, n, target).db;
      && (target != db.notes[n].owner ==>
            Effective(db', n, db'.notes[n], target) == FromBits(0 | InheritedBits(db', db.notes[n].notebook, target)))
      && (u != target ==> NoteAccess(db', n, db'.notes[n], u) == NoteAccess(db, n, db.notes[n], u))
  {
    var db' := UnshareNote(db, actor, n, target).db;
    if target != db.notes[n].owner {
      LeftWithInherited(db', n, db'.notes[n], target);
    }
    if u != target {
      SameAccess(db, db', n, db.notes[n], u);
    }
  }

  /** After a transfer the target owns the note and the giver is left with what the notebook passes on. */
  lemma TransferHandsOver(db: Db, actor: User, n: NoteId, target: User)
    requires Sound(db) && TransferNote(db, actor, n, target).Done?
    ensures actor == db.notes[n].owner
    ensures var db' := TransferNote(db, actor, n, target).db;
      && NoteAccess(db', n, db'.notes[n], target) == Some(Access(ALL, true))
      && (actor != target ==>
            Effective(db', n, db'.notes[n], actor) == FromBits(0 | InheritedBits(db', db.notes[n].notebook, actor)))
  {
    var db' := TransferNote(db, actor, n, target).db;
    if actor != target {
      assert (n, actor) !in db.noteShares;
      LeftWithInherited(db', n, db'.notes[n], actor);
    }
  }

  /** A deleted account leaves nothing behind and takes nothing of anybody else's. */
  lemma AccountLeavesNothing(db: Db, u: User)
    requires Sound(db) && DeleteAccount(db, u).Done?
    ensures var db' := DeleteAccount(db, u).db;
      && db'.users == db.users - {u}
      && (forall n | n in db.notes && db.notes[n].owner != u :: n in db'.notes && db'.notes[n] == db.notes[n])
      && (forall nb | nb in db.notebooks && db.notebooks[nb].owner != u ::
            nb in db'.notebooks && db'.notebooks[nb] == db.notebooks[nb])
      && (forall k | k in db.noteShares && k.1 != u && db.notes[k.0].owner != u ::
            k in db'.noteShares && db'.noteShares[k] == db.noteShares[k])
      && (forall k | k in db.notebookShares && k.1 != u && db.notebooks[k.0].owner != u ::
            k in db'.notebookShares && db'.notebookShares[k] == db.notebookShares[k])
      && NothingNames(db', u)
  {
  }

  predicate NothingNames(db: Db, u: User) {
    && (forall n | n in db.notes :: db.notes[n].owner != u) && (forall k | k in db.noteShares :: k.1 != u)
    && (forall nb | nb in db.notebooks :: db.notebooks[nb].owner != u) && (forall k | k in db.notebookShares ::
          k.1 != u)
  }

  predicate InNotebookOf(db: Db, note: Note, u: User) {
    note.notebook.Some? && OwnsNotebook(db, u, note.notebook.value)
  }

  lemma DepartedBooks(db: Db, u: User, note: Note, v: User)
    requires Sound(db) && DeleteAccount(db, u).Done? && v != u
    ensures InheritedBits(DeleteAccount(db, u).db, note.notebook, v)
            == if InNotebookOf(db, note, u) then 0 else InheritedBits(db, note.notebook, v)
  {
    FromBitsIsLeastClosure(0, 0);
  }

  /** On a note that survives an account, everybody else keeps exactly their access, or, in a notebook
      that went with the account, just their direct share. */
  lemma SurvivorsKeepAccess(db: Db, u: User, n: NoteId, v: User)
    requires Sound(db) && DeleteAccount(db, u).Done? && v != u && n in db.notes && db.notes[n].owner != u
    ensures var db' := DeleteAccount(db, u).db;
      && n in db'.notes && db'.notes[n] == db.notes[n]
      && Effective(db', n, db'.notes[n], v)
         == if db.notes[n].owner == v then ALL
            else if InNotebookOf(db, db.notes[n], u) then FromBits(NoteShare(db, n, v) | 0)
            else Effective(db, n, db.notes[n], v)
  {
    var db', note := DeleteAccount(db, u).db, db.notes[n];
    if note.owner != v {
      EffectiveFormula(db, n, note, v);
      EffectiveFormula(db', n, note, v);
      DepartedBooks(db, u, note, v);
      assert NoteShare(db', n, v) == NoteShare(db, n, v);
    }
  }

  // ---- What the guard costs a note's owner ----

  lemma ShareIsLost(share: Bits)
    requires Grant(share)
    ensures !Subset(FromBits(0 | (FromBits(share) & INHERITED)), FromBits(0 | 0))
  {
  }

  /** The guard lists the note's owner, who can lose nothing, exactly when the owner holds a share of
      the notebook. */
  lemma OwnerIsListedIff(db: Db, n: NoteId, nb: NotebookId, actor: User)
    requires Sound(db) && n in db.notes && db.notes[n].notebook == Some(nb)
    requires NotebookOwner(db, nb) == Some(actor) && db.notes[n].owner != actor
    ensures db.notes[n].owner in Losers(db, n, Some(nb), None, actor) <==> (nb, db.notes[n].owner) in db.notebookShares
  {
    var owner := db.notes[n].owner;
    assert (n, owner) !in db.noteShares;
    var k := (nb, owner);
    if k in db.notebookShares {
      var row := (owner, db.notebookShares[k]);
      assert k.0 == nb && row in Principals(db, nb);
      ShareIsLost(row.1);
      LosesFormula(db, n, None, row);
    }
  }

  /** An ejection by the notebook's owner is refused on the note owner's account alone exactly when the
      note's owner holds a share of the notebook and nobody else's access would shrink. */
  lemma HarmlessEjectionIff(db: Db, n: NoteId, nb: NotebookId, actor: User)
    requires Sound(db) && n in db.notes && db.notes[n].live && db.notes[n].notebook == Some(nb)
    requires NotebookOwner(db, nb) == Some(actor) && db.notes[n].owner != actor
    ensures Move(db, n, None, actor, EjectionAllowed) == Blocked({db.notes[n].owner}, 0)
            <==> (nb, db.notes[n].owner) in db.notebookShares && (forall u | u != actor :: !Shrinks(db, n, None, u))
  {
    HarmlessEjectionIsBlocked(db, n, actor);
    OwnerIsListedIff(db, n, nb, actor);
  }

  // ---- The transactions, statement by statement ----

  /** The transaction committed what the handler says, or failed with its error and left no trace. */
  predicate Outcome(r: Reply, error: Option<Error>, before: Db, after: Db) {
    if r.Done? then error.None? && after == r.db else error == Some(r.error) && after == before
  }

  class PermissionTables {
    var users: set<User>
    var notes: map<NoteId, Note>
    var notebooks: map<NotebookId, Notebook>
    var noteShares: map<(NoteId, User), Bits>
    var notebookShares: map<(NotebookId, User), Bits>

    function Contents(): Db
      reads this
    {
      Db(users, notes, notebooks, noteShares, notebookShares)
    }

    method CreateShare(actor: User, n: NoteId, target: User, word: Bits) returns (error: Option<Error>)
      modifies this
      ensures Outcome(ShareNote(old(Contents()), actor, n, target, word), error, old(Contents()), Contents())
    {
      if n !in notes || !notes[n].live {
        return Some(NotFound);
      }
      var access := NoteAccess(Contents(), n, notes[n], actor);
      if access.None? || !Can(access.value.caps, SHARE_WRITE) {
        return Some(Denied);
      }
      var requested := FromBits(word);
      if requested == 0 {
        return Some(BadRequest);
      }
      if !Subset(requested, access.value.caps) {
        return Some(Denied);
      }
      if target !in users {
        return Some(NotFound);
      }
      if target == notes[n].owner {
        return Some(BadRequest);
      }
      noteShares := noteShares[(n, target) := requested];
      return None;
    }

    /** The target's share goes before the note does. */
    method TransferOwnership(actor: User, n: NoteId, target: User) returns (error: Option<Error>)
      modifies this
      ensures Outcome(TransferNote(old(Contents()), actor, n, target), error, old(Contents()), Contents())
    {
      if n !in notes || !notes[n].live {
        return Some(NotFound);
      }
      var access := NoteAccess(Contents(), n, notes[n], actor);
      if access.None? || !access.value.isOwner {
        return Some(Denied);
      }
      if target !in users {
        return Some(NotFound);
      }
      noteShares := noteShares - {(n, target)};
      notes := notes[n := notes[n].(owner := target)];
      return None;
    }

    /** The notebook goes before the target's share does. */
    method TransferOfNotebook(actor: User, nb: NotebookId, target: User) returns (error: Option<Error>)
      modifies this
      ensures Outcome(TransferNotebook(old(Contents()), actor, nb, target), error, old(Contents()), Contents())
    {
      var access := NotebookAccess(Contents(), nb, actor);
      if access.None? {
        return Some(if NotebookOwner(Contents(), nb).None? then NotFound else Denied);
      }
      if !access.value.isOwner {
        return Some(Denied);
      }
      if target !in users {
        return Some(NotFound);
      }
      notebooks := notebooks[nb := notebooks[nb].(owner := target)];
      notebookShares := notebookShares - {(nb, target)};
      return None;
    }
  }
}
