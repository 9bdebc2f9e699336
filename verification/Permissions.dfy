/** Capability bits and the access resolver for notes and notebooks. */
module Permissions {
  import opened Prelude

  type User = nat
  type NoteId = nat
  type NotebookId = nat

  /** The low byte of a stored 32-bit capability word; see `LowByteDecides`. */
  type Bits = bv8

  const READ: Bits := 1
  const WRITE: Bits := 2
  const SHARE_READ: Bits := 4
  const SHARE_WRITE: Bits := 8
  const MANAGE: Bits := 16
  const ALL: Bits := 31

  /** What a notebook passes on to its notes. */
  const INHERITED: Bits := 3

  predicate Subset(a: Bits, b: Bits) {
    a & b == a
  }

  /** Higher capabilities imply lower ones. */
  predicate Closed(b: Bits) {
    && Subset(b, ALL)
    && (b & MANAGE != 0 ==> b == ALL)
    && (b & SHARE_WRITE != 0 ==> Subset(SHARE_READ | WRITE, b))
    && (b & (SHARE_READ | WRITE) != 0 ==> Subset(READ, b))
  }

  /** `Capabilities::from_bits`: unknown bits are masked off, then implications are added. */
  function FromBits(bits: Bits): (r: Bits)
    ensures Closed(r) && Subset(bits & ALL, r)
  {
    var b0 := bits & ALL;
    var b1 := if b0 & MANAGE != 0 then b0 | ALL else b0;
    var b2 := if b1 & SHARE_WRITE != 0 then b1 | SHARE_READ | WRITE else b1;
    if b2 & (SHARE_READ | WRITE) != 0 then b2 | READ else b2
  }

  /** Normalising gives the least closed set above its argument, so it is
      idempotent and empty only for words with no known bit. */
  lemma FromBitsIsLeastClosure(bits: Bits, c: Bits)
    ensures Closed(c) && Subset(bits & ALL, c) ==> Subset(FromBits(bits), c)
    ensures Closed(bits) ==> FromBits(bits) == bits
    ensures FromBits(bits) == 0 <==> bits & ALL == 0
  {
  }

  /** Normalising the parts first makes no difference to the normalised union. */
  lemma FromBitsOfUnion(a: Bits, b: Bits)
    ensures FromBits(FromBits(a) | FromBits(b)) == FromBits(a | b)
  {
  }

  // ---- Stored words are 32 bits wide ----

  type Word = bv32

  function Low(w: Word): Bits {
    (w & 0xFF) as Bits
  }

  /** `Capabilities::from_bits` on the whole word. */
  function FromWord(w: Word): Word {
    var b0 := w & 31;
    var b1 := if b0 & 16 != 0 then b0 | 31 else b0;
    var b2 := if b1 & 8 != 0 then b1 | 4 | 2 else b1;
    if b2 & (4 | 2) != 0 then b2 | 1 else b2
  }

  /** Nothing above the low byte of a word, or of a union of words, ever reaches a decision. */
  lemma LowByteDecides(v: Word, w: Word)
    ensures FromWord(w) & 0xFF == FromWord(w) && Low(FromWord(w)) == FromBits(Low(w))
    ensures Low(v | w) == Low(v) | Low(w) && Low(v & w) == Low(v) & Low(w)
    ensures FromWord(w) == 0 <==> FromBits(Low(w)) == 0
  {
  }

  // ---- Tables ----

  /** A soft-deleted note or notebook keeps its row and its shares. */
  datatype Note = Note(owner: User, notebook: Option<NotebookId>, live: bool)

  datatype Notebook = Notebook(owner: User, live: bool)

  datatype Db = Db(users: set<User>, notes: map<NoteId, Note>, notebooks: map<NotebookId, Notebook>,
                   noteShares: map<(NoteId, User), Bits>, notebookShares: map<(NotebookId, User), Bits>)

  function NotebookOwner(db: Db, nb: NotebookId): Option<User> {
    if nb in db.notebooks && db.notebooks[nb].live then Some(db.notebooks[nb].owner) else None
  }

  function NoteShare(db: Db, n: NoteId, u: User): Bits {
    if (n, u) in db.noteShares then db.noteShares[(n, u)] else 0
  }

  /** Shares of a deleted notebook do not count. */
  function NotebookShare(db: Db, nb: NotebookId, u: User): Option<Bits> {
    if NotebookOwner(db, nb).Some? && (nb, u) in db.notebookShares then Some(db.notebookShares[(nb, u)]) else None
  }

  datatype Access = Access(caps: Bits, isOwner: bool)

  function NotebookBits(db: Db, nb: NotebookId, u: User): Bits {
    if NotebookOwner(db, nb) == Some(u) then ALL
    else if NotebookShare(db, nb, u).Some? then NotebookShare(db, nb, u).value
    else 0
  }

  function InheritedBits(db: Db, nb: Option<NotebookId>, u: User): Bits {
    if nb.None? then 0 else FromBits(NotebookBits(db, nb.value, u)) & INHERITED
  }

  /** `resolve_note_access_on`: `None` is the refusal. */
  function NoteAccess(db: Db, n: NoteId, note: Note, u: User): Option<Access> {
    if note.owner == u then Some(Access(ALL, true))
    else
      var direct := FromBits(NoteShare(db, n, u));
      var inherited := if note.notebook.Some? then FromBits(InheritedBits(db, note.notebook, u)) else 0;
      var effective := FromBits(direct | inherited);
      if effective == 0 then None else Some(Access(effective, false))
  }

  function NotebookAccess(db: Db, nb: NotebookId, u: User): Option<Access> {
    if NotebookOwner(db, nb).None? then None
    else if NotebookOwner(db, nb) == Some(u) then Some(Access(ALL, true))
    else if NotebookShare(db, nb, u).Some? then Some(Access(FromBits(NotebookShare(db, nb, u).value), false))
    else None
  }

  /** The capabilities a user effectively has on a note. */
  function Effective(db: Db, n: NoteId, note: Note, u: User): Bits {
    var a := NoteAccess(db, n, note, u);
    if a.Some? then a.value.caps else 0
  }

  predicate Can(b: Bits, cap: Bits) {
    b & cap == cap
  }
}
