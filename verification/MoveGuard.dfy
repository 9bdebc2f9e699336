/**
 Moving a note between notebooks. The handler computes, for everyone who reaches the note
 through its source notebook, the capabilities before and after the move on its own, apart
 from the access resolver; the two computations must agree.
 */
module MoveGuard {
  import opened Prelude
  import opened Permissions

  datatype Scheme = Strict | EjectionAllowed

  datatype MoveResult =
    | Moved(db: Db, notices: set<User>)
    | Forbidden
    | Missing
    | Full
    | Blocked(named: set<User>, counted: nat)

  /** `inherited_note_principals_on`: share holders, and the owner with every capability. */
  function Principals(db: Db, nb: NotebookId): set<(User, Bits)> {
    if NotebookOwner(db, nb).None? then {}
    else (set k | k in db.notebookShares && k.0 == nb :: (k.1, db.notebookShares[k]))
         + {(NotebookOwner(db, nb).value, ALL)}
  }

  function BitsBefore(db: Db, n: NoteId, row: (User, Bits)): Bits {
    FromBits(NoteShare(db, n, row.0) | (FromBits(row.1) & INHERITED))
  }

  function BitsAfter(db: Db, n: NoteId, dest: Option<NotebookId>, u: User): Bits {
    FromBits(NoteShare(db, n, u) | InheritedBits(db, dest, u))
  }

  /** The guard's own test that a principal would lose something. */
  predicate Loses(db: Db, n: NoteId, dest: Option<NotebookId>, row: (User, Bits)) {
    BitsBefore(db, n, row) != BitsAfter(db, n, dest, row.0)
    && BitsBefore(db, n, row) & !BitsAfter(db, n, dest, row.0) != 0
  }

  /** Everyone but the mover that the guard finds losing access. */
  function Losers(db: Db, n: NoteId, source: Option<NotebookId>, dest: Option<NotebookId>, actor: User): set<User> {
    if source.None? then {}
    else set row | row in Principals(db, source.value) && row.0 != actor && Loses(db, n, dest, row) :: row.0
  }

  function Relocated(db: Db, n: NoteId, dest: Option<NotebookId>): Db
    requires n in db.notes
  {
    db.(notes := db.notes[n := db.notes[n].(notebook := dest)])
  }

  predicate Ejection(db: Db, note: Note, dest: Option<NotebookId>, actor: User) {
    dest.None? && note.notebook.Some? && NotebookOwner(db, note.notebook.value) == Some(actor)
  }

  predicate ControlsSource(db: Db, note: Note, actor: User) {
    note.notebook.Some? && NotebookOwner(db, note.notebook.value) == Some(actor)
  }

  function LiveNotesIn(db: Db, nb: NotebookId): nat {
    |set n | n in db.notes && db.notes[n].live && db.notes[n].notebook == Some(nb)|
  }

  const MAX_NOTES_PER_NOTEBOOK: nat := 16777216

  /** The transaction of `update_note` for a patch that sets the notebook to `dest`. */
  function Move(db: Db, n: NoteId, dest: Option<NotebookId>, actor: User, scheme: Scheme): MoveResult {
    if n !in db.notes || !db.notes[n].live then Missing
    else
      var note := db.notes[n];
      var moved := dest != note.notebook;
      var losers := if moved then Losers(db, n, note.notebook, dest, actor) else {};
      var ejection := moved && Ejection(db, note, dest, actor);
      if !Can(Effective(db, n, note, actor), WRITE) then Forbidden
      else if moved && note.owner != actor && !(ejection && scheme.EjectionAllowed?) then Forbidden
      else if ControlsSource(db, note, actor) && losers != {} then Blocked(losers, 0)
      else if moved && dest.Some? && NotebookAccess(db, dest.value, actor).None? then
        if NotebookOwner(db, dest.value).None? then Missing else Forbidden
      else if moved && dest.Some? && !Can(NotebookAccess(db, dest.value, actor).value.caps, WRITE) then Forbidden
      else if moved && dest.Some? && LiveNotesIn(db, dest.value) >= MAX_NOTES_PER_NOTEBOOK then Full
      else Moved(Relocated(db, n, dest), losers + if ejection && note.owner != actor then {note.owner} else {})
  }

  /** What the user can effectively do shrinks with the move. */
  predicate Shrinks(db: Db, n: NoteId, dest: Option<NotebookId>, u: User)
    requires n in db.notes
  {
    var db' := Relocated(db, n, dest);
    !Subset(Effective(db, n, db.notes[n], u), Effective(db', n, db'.notes[n], u))
  }

  // ---- Facts about the bits alone ----

  lemma DroppedIffNotSubset(before: Bits, after: Bits)
    ensures before != after && before & !after != 0 <==> !Subset(before, after)
  {
  }

  /** A source row with less can only understate what is lost. */
  lemma LossGrows(d: Bits, bits: Bits, after: Bits)
    requires !Subset(FromBits(d | (FromBits(bits) & INHERITED)), after)
    ensures !Subset(FromBits(d | (FromBits(ALL) & INHERITED)), after)
  {
  }

  /** Gaining a notebook takes nothing away. */
  lemma AddingKeeps(d: Bits, i: Bits)
    ensures Subset(FromBits(d | 0), FromBits(d | i)) && FromBits(0) & INHERITED == 0
  {
  }

  lemma Reflexive(b: Bits)
    ensures Subset(b, b)
  {
  }

  lemma OwnerWrites(d: Bits)
    ensures Can(FromBits(d | (FromBits(ALL) & INHERITED)), WRITE)
  {
  }

  // ---- Guard and resolver agree ----

  /** The resolver's two normalised parts, put together. */
  function Combined(direct: Bits, inherited: Bits): Bits {
    FromBits(FromBits(direct) | FromBits(inherited))
  }

  lemma CombinedIsUnion(direct: Bits, inherited: Bits)
    ensures Combined(direct, inherited) == FromBits(direct | inherited) && FromBits(0) == 0
  {
    FromBitsOfUnion(direct, inherited);
  }

  lemma EffectiveIsCombined(db: Db, n: NoteId, note: Note, u: User)
    requires note.owner != u
    ensures Effective(db, n, note, u) == Combined(NoteShare(db, n, u), InheritedBits(db, note.notebook, u))
  {
    CombinedIsUnion(0, 0);
  }

  /** For anyone but the note's owner, the resolver's answer is the guard's formula. */
  lemma EffectiveFormula(db: Db, n: NoteId, note: Note, u: User)
    requires note.owner != u
    ensures Effective(db, n, note, u) == FromBits(NoteShare(db, n, u) | InheritedBits(db, note.notebook, u))
  {
    EffectiveIsCombined(db, n, note, u);
    CombinedIsUnion(NoteShare(db, n, u), InheritedBits(db, note.notebook, u));
  }

  /** The row through which a user inherits from the source. */
  lemma PrincipalRow(db: Db, nb: NotebookId, u: User)
    ensures NotebookBits(db, nb, u) != 0 ==> (u, NotebookBits(db, nb, u)) in Principals(db, nb)
    ensures forall row | row in Principals(db, nb) && row.0 == u ::
      row.1 == NotebookBits(db, nb, u) || NotebookOwner(db, nb) == Some(u)
  {
    if NotebookOwner(db, nb).Some? && (nb, u) in db.notebookShares {
      var k := (nb, u);
      assert k in db.notebookShares && k.0 == nb;
      assert (k.1, db.notebookShares[k]) in Principals(db, nb);
    }
  }

  /** Shrinking, in the guard's terms. */
  lemma ShrinksFormula(db: Db, n: NoteId, dest: Option<NotebookId>, u: User)
    requires n in db.notes && u != db.notes[n].owner
    ensures Shrinks(db, n, dest, u)
            <==> !Subset(FromBits(NoteShare(db, n, u) | InheritedBits(db, db.notes[n].notebook, u)), BitsAfter(db, n,
                  dest, u))
  {
    var db' := Relocated(db, n, dest);
    EffectiveFormula(db, n, db.notes[n], u);
    EffectiveFormula(db', n, db'.notes[n], u);
  }

  lemma LosesFormula(db: Db, n: NoteId, dest: Option<NotebookId>, row: (User, Bits))
    ensures Loses(db, n, dest, row) <==> !Subset(BitsBefore(db, n, row), BitsAfter(db, n, dest, row.0))
  {
    DroppedIffNotSubset(BitsBefore(db, n, row), BitsAfter(db, n, dest, row.0));
  }

  /** Some row of the user loses exactly when the row it inherits through does. */
  lemma RowsAgree(db: Db, n: NoteId, nb: NotebookId, dest: Option<NotebookId>, u: User)
    ensures (exists row | row in Principals(db, nb) :: row.0 == u && Loses(db, n, dest, row))
            <==> Loses(db, n, dest, (u, NotebookBits(db, nb, u)))
  {
    var d := NoteShare(db, n, u);
    var own := (u, NotebookBits(db, nb, u));
    PrincipalRow(db, nb, u);
    LosesFormula(db, n, dest, own);
    if Loses(db, n, dest, own) {
      if own.1 == 0 {
        AddingKeeps(d, InheritedBits(db, dest, u));
        assert false;
      }
      assert own in Principals(db, nb);
    }
    if row :| row in Principals(db, nb) && row.0 == u && Loses(db, n, dest, row) {
      LosesFormula(db, n, dest, row);
      if row != own {
        LossGrows(d, row.1, BitsAfter(db, n, dest, u));
      }
    }
  }

  /** The guard lists exactly the users other than the mover and the note's owner whose
      effective access, as the resolver computes it, shrinks. */
  lemma GuardAgreesWithResolver(db: Db, n: NoteId, dest: Option<NotebookId>, actor: User, u: User)
    requires n in db.notes && u != actor && u != db.notes[n].owner
    ensures u in Losers(db, n, db.notes[n].notebook, dest, actor) <==> Shrinks(db, n, dest, u)
  {
    var source := db.notes[n].notebook;
    ShrinksFormula(db, n, dest, u);
    if source.None? {
      AddingKeeps(NoteShare(db, n, u), InheritedBits(db, dest, u));
    } else {
      var own := (u, NotebookBits(db, source.value, u));
      RowsAgree(db, n, source.value, dest, u);
      LosesFormula(db, n, dest, own);
      assert BitsBefore(db, n, own) == FromBits(NoteShare(db, n, u) | InheritedBits(db, source, u));
    }
  }

  // ---- What the guard guarantees ----

  /** The note's owner can do everything wherever the note is. */
  lemma OwnerNeverShrinks(db: Db, n: NoteId, dest: Option<NotebookId>)
    requires n in db.notes
    ensures !Shrinks(db, n, dest, db.notes[n].owner)
  {
  }

  /** A move accepted from the source notebook's owner shrinks nobody else's access. */
  lemma AcceptedMoveShrinksNobody(db: Db, n: NoteId, dest: Option<NotebookId>, actor: User, scheme: Scheme, u: User)
    requires Move(db, n, dest, actor, scheme).Moved? && ControlsSource(db, db.notes[n], actor) && u != actor
    ensures !Shrinks(db, n, dest, u)
  {
    if dest == db.notes[n].notebook {
      assert Relocated(db, n, dest) == db;
      Reflexive(Effective(db, n, db.notes[n], u));
    } else if u == db.notes[n].owner {
      OwnerNeverShrinks(db, n, dest);
    } else {
      GuardAgreesWithResolver(db, n, dest, actor, u);
    }
  }

  /** A note owner who does not own the source gets a notice list that is exactly the other
      users whose access shrinks. */
  lemma NoticesAreExact(db: Db, n: NoteId, dest: Option<NotebookId>, actor: User, scheme: Scheme, u: User)
    requires Move(db, n, dest, actor, scheme).Moved?
    requires db.notes[n].owner == actor && !ControlsSource(db, db.notes[n], actor)
    ensures u in Move(db, n, dest, actor, scheme).notices <==> u != actor && Shrinks(db, n, dest, u)
  {
    if u == actor {
      OwnerNeverShrinks(db, n, dest);
    } else if dest == db.notes[n].notebook {
      assert Relocated(db, n, dest) == db;
      Reflexive(Effective(db, n, db.notes[n], u));
    } else {
      GuardAgreesWithResolver(db, n, dest, actor, u);
    }
  }

  /** The guard also weighs the note's own owner, who never loses anything: a notebook owner's
      ejection is refused although it would shrink nobody's access. It is refused for this
      reason alone exactly when the note's owner is the only principal it lists. */
  lemma HarmlessEjectionIsBlocked(db: Db, n: NoteId, actor: User)
    requires n in db.notes && db.notes[n].live && ControlsSource(db, db.notes[n], actor) && db.notes[n].owner != actor
    ensures var losers := Losers(db, n, db.notes[n].notebook, None, actor);
      Move(db, n, None, actor, EjectionAllowed) == Blocked({db.notes[n].owner}, 0)
      <==> db.notes[n].owner in losers && (forall u | u != actor :: !Shrinks(db, n, None, u))
  {
    var note := db.notes[n];
    var losers := Losers(db, n, note.notebook, None, actor);
    assert Can(Effective(db, n, note, actor), WRITE) by {
      EffectiveFormula(db, n, note, actor);
      assert NotebookBits(db, note.notebook.value, actor) == ALL;
      OwnerWrites(NoteShare(db, n, actor));
    }
    forall u | u != actor && u != note.owner ensures u in losers <==> Shrinks(db, n, None, u) {
      GuardAgreesWithResolver(db, n, None, actor, u);
    }
    OwnerNeverShrinks(db, n, None);
    assert actor !in losers;
    if note.owner in losers && forall u | u != actor :: !Shrinks(db, n, None, u) {
      assert losers == {note.owner};
    }
  }

  const ReadersNote := Db({1, 2}, map[0 := Note(2, Some(7), true)], map[7 := Notebook(1, true)], map[],
                          map[(7, 2) := READ])

  /** Such an ejection exists: the note's owner merely holds a read share of the notebook. */
  lemma HarmlessEjectionExample()
    ensures Move(ReadersNote, 0, None, 1, EjectionAllowed) == Blocked({2}, 0)
    ensures forall u | u != 1 :: !Shrinks(ReadersNote, 0, None, u)
  {
    var db := ReadersNote;
    var row: (User, Bits) := (2, READ);
    var k: (NotebookId, User) := (7, 2);
    assert k in db.notebookShares && (k.1, db.notebookShares[k]) == row;
    assert row in Principals(db, 7);
    assert Loses(db, 0, None, row);
    assert 2 in Losers(db, 0, Some(7), None, 1);
    forall u | u != 1 ensures !Shrinks(db, 0, None, u) {
      if u == 2 {
        OwnerNeverShrinks(db, 0, None);
      } else {
        assert Effective(db, 0, db.notes[0], u) == 0;
      }
    }
    HarmlessEjectionIsBlocked(db, 0, 1);
  }

  // ---- The guard's loop ----

  function LosersAmong(db: Db, n: NoteId, dest: Option<NotebookId>, actor: User, rows: set<(User, Bits)>): set<User> {
    set row | row in rows && row.0 != actor && Loses(db, n, dest, row) :: row.0
  }

  lemma OneMoreRow(db: Db, n: NoteId, dest: Option<NotebookId>, actor: User, rows: set<(User, Bits)>, row: (User, Bits))
    ensures LosersAmong(db, n, dest, actor, rows + {row})
            == LosersAmong(db, n, dest, actor, rows) + if row.0 != actor && Loses(db, n, dest, row) then {row.0} else {}
  {
  }

  method WouldLose(db: Db, n: NoteId, dest: Option<NotebookId>, principal: User, inherited: Bits) returns (lost: bool)
    ensures lost == Loses(db, n, dest, (principal, inherited))
  {
    var direct := NoteShare(db, n, principal);
    var before := FromBits(direct | (FromBits(inherited) & INHERITED));
    var after := FromBits(direct | InheritedBits(db, dest, principal));
    lost := before != after && before & !after != 0;
  }

  /** Who blocks the move, who is only counted, and who is told afterwards. */
  method GuardLoop(db: Db, n: NoteId, source: NotebookId, dest: Option<NotebookId>, actor: User)
    returns (named: set<User>, counted: int, notices: set<User>)
    ensures var losers := Losers(db, n, Some(source), dest, actor);
      && counted == 0
      && (if NotebookOwner(db, source) == Some(actor) then named == losers && notices == {}
          else named == {} && notices == losers)
  {
    var controls := NotebookOwner(db, source) == Some(actor);
    var access := NotebookAccess(db, source, actor);
    var canEnumerate := controls || (access.Some? && Can(access.value.caps, SHARE_READ));
    named, counted, notices := {}, 0, {};
    var rows := Principals(db, source);
    var todo := rows;
    ghost var seen: set<(User, Bits)> := {};
    while todo != {}
      invariant seen + todo == rows && counted == 0
      invariant if controls then named == LosersAmong(db, n, dest, actor, seen) && notices == {}
                else named == {} && notices == LosersAmong(db, n, dest, actor, seen)
      decreases todo
    {
      var row :| row in todo;
      OneMoreRow(db, n, dest, actor, seen, row);
      todo, seen := todo - {row}, seen + {row};
      var (principal, inherited) := row;
      if principal != actor {
        var lost := WouldLose(db, n, dest, principal, inherited);
        if lost {
          if !controls {
            notices := notices + {principal};
          } else if canEnumerate {
            named := named + {principal};
          } else {
            counted := counted + 1;
          }
        }
      }
    }
  }
}
