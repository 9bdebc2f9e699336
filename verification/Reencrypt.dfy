/**
 Encrypting a column that is in use: batches of untagged rows are selected, then rewritten one
 by one with a compare-and-set, while other writers go on.
 */
module Reencrypt {
  import opened Prelude
  import opened Ordered
  import opened AtRest

  type Id = nat

  const NIL: Id := 0

  type Table = map<Id, string>

  datatype Stats = Stats(scanned: nat, rewritten: nat, skippedConcurrent: nat)

  function ById(): (Id, Id) -> bool {
    (a, b) => a < b
  }

  function Untagged(t: Table, after: Id): set<Id> {
    set id | id in t && id > after && !Tagged(t[id])
  }

  /** The next untagged rows in id order. */
  function Batch(t: Table, after: Id, limit: nat): seq<Id> {
    FirstOf(Sorted(Untagged(t, after), ById()), limit)
  }

  lemma BatchIsUntagged(t: Table, after: Id, limit: nat)
    ensures forall i | 0 <= i < |Batch(t, after, limit)| ::
      var id := Batch(t, after, limit)[i]; id in t && id > after && !Tagged(t[id])
    ensures Ascending(Batch(t, after, limit), ById())
    ensures Batch(t, after, limit) == [] ==> limit == 0 || Untagged(t, after) == {}
    ensures Batch(t, after, limit) != [] ==>
      var last := Batch(t, after, limit)[|Batch(t, after, limit)| - 1];
      forall id | id in Untagged(t, after) && id <= last :: id in Batch(t, after, limit)
  {
    var s: set<Id>, b: seq<Id> := Untagged(t, after), Batch(t, after, limit);
    var q: seq<Id> := Sorted(s, ById());
    SortedListsTheSet(s, ById());
    forall i | 0 <= i < |b| ensures b[i] in t && b[i] > after && !Tagged(t[b[i]]) {
      assert q[i] in s;
    }
    if b != [] {
      forall id | id in s && id <= b[|b| - 1] ensures id in b {
        var i :| 0 <= i < |q| && q[i] == id;
        assert i < |b|;
        assert b[i] == id;
      }
    }
  }

  // ---- A pass among other writers ----

  datatype Pass = Pass(lastId: Id, todo: seq<(Id, string)>, stats: Stats, finished: bool)

  /** `truth` is the text last written to each row, `clear` the rows some keyless writer has
      written since the pass began, and `garbled` the rows whose last write was a keyless one of
      text that itself carries the tag. */
  datatype World = World(table: Table, truth: map<Id, string>, clear: set<Id>, garbled: set<Id>, pass: Pass)

  datatype Event =
    | Select
    | Rewrite(nonce: nat)
    | Write(id: Id, plain: string, keyed: bool, salt: nat)
    | Remove(gone: Id)

  datatype Setup = Setup(cipher: Cipher, dryRun: bool, batchSize: nat)

  predicate Enabled(u: Setup, w: World, e: Event) {
    match e
    case Select => w.pass.todo == [] && !w.pass.finished
    case Rewrite(_) => w.pass.todo != []
    case Write(_, _, _, _) => true
    case Remove(_) => true
  }

  function Rows(t: Table, ids: seq<Id>): seq<(Id, string)>
    requires forall i | 0 <= i < |ids| :: ids[i] in t
  {
    seq(|ids|, i requires 0 <= i < |ids| => (ids[i], t[ids[i]]))
  }

  function DoSelect(u: Setup, w: World): World {
    var ids := Batch(w.table, w.pass.lastId, u.batchSize);
    BatchIsUntagged(w.table, w.pass.lastId, u.batchSize);
    if ids == [] then w.(pass := w.pass.(finished := true))
    else w.(pass := w.pass.(lastId := ids[|ids| - 1],
                            todo := if u.dryRun then [] else Rows(w.table, ids),
                            stats := w.pass.stats.(scanned := w.pass.stats.scanned + |ids|)))
  }

  /** The update only hits a row that still holds what was selected. */
  function DoRewrite(u: Setup, w: World, nonce: nat): World
    requires w.pass.todo != []
  {
    var (id, value) := w.pass.todo[0];
    var p := w.pass.(todo := w.pass.todo[1..]);
    if id in w.table && w.table[id] == value
    then w.(table := w.table[id := Encrypt(u.cipher, nonce, value)],
            pass := p.(stats := p.stats.(rewritten := p.stats.rewritten + 1)))
    else w.(pass := p.(stats := p.stats.(skippedConcurrent := p.stats.skippedConcurrent + 1)))
  }

  function Step(u: Setup, w: World, e: Event): World
    requires Enabled(u, w, e)
  {
    match e
    case Select => DoSelect(u, w)
    case Rewrite(nonce) => DoRewrite(u, w, nonce)
    case Write(id, plain, keyed, nonce) =>
      w.(table := w.table[id := Encrypt(if keyed then u.cipher else Disabled, nonce, plain)],
         truth := w.truth[id := plain],
         clear := if keyed then w.clear else w.clear + {id},
         garbled := if !keyed && Tagged(plain) then w.garbled + {id} else w.garbled - {id})
    case Remove(id) => w.(table := w.table - {id}, truth := w.truth - {id}, garbled := w.garbled - {id})
  }

  predicate Legal(u: Setup, w: World, es: seq<Event>)
    decreases |es|
  {
    es == [] || (Enabled(u, w, es[0]) && Legal(u, Step(u, w, es[0]), es[1..]))
  }

  function After(u: Setup, w: World, es: seq<Event>): World
    requires Legal(u, w, es)
    decreases |es|
  {
    if es == [] then w else After(u, Step(u, w, es[0]), es[1..])
  }

  // ---- What every step keeps ----

  /** Every row decrypts to the text last written to it, but a garbled one, which holds that text. */
  predicate Readable(u: Setup, w: World) {
    && w.table.Keys == w.truth.Keys
    && forall id | id in w.table ::
         if id in w.garbled then w.table[id] == w.truth[id] && Tagged(w.truth[id])
         else Decrypt(u.cipher, w.table[id]) == Some(w.truth[id])
  }

  predicate Accounted(u: Setup, p: Pass) {
    if u.dryRun then p.todo == [] && p.stats.rewritten == 0 && p.stats.skippedConcurrent == 0
    else p.stats.scanned == p.stats.rewritten + p.stats.skippedConcurrent + |p.todo|
  }

  /** A selected value was plaintext, and its row holds it still unless it was sealed or rewritten in the clear. */
  predicate TodoHolds(w: World) {
    forall i | 0 <= i < |w.pass.todo| ::
      var (id, value) := w.pass.todo[i];
      && !Tagged(value) && id <= w.pass.lastId
      && (id in w.table && id !in w.clear ==> w.table[id] == value || Tagged(w.table[id]))
  }

  predicate Listed(p: Pass, id: Id) {
    exists i | 0 <= i < |p.todo| :: p.todo[i].0 == id
  }

  /** Rows the pass has gone by are sealed, save those still to do and those since written in the clear. */
  predicate BehindIsSealed(u: Setup, w: World) {
    forall id | id in w.table && id != NIL && id !in w.clear && Passed(u, w.pass, id) && !Listed(w.pass, id) ::
      Tagged(w.table[id])
  }

  /** With a batch size of zero a pass ends without having looked at anything. */
  predicate Passed(u: Setup, p: Pass, id: Id) {
    id <= p.lastId || (p.finished && u.batchSize > 0)
  }

  predicate Inv(u: Setup, w: World) {
    && Readable(u, w) && Accounted(u, w.pass) && (w.pass.finished ==> w.pass.todo == [])
    && (!u.dryRun ==> TodoHolds(w) && BehindIsSealed(u, w))
  }

  /** A pass about to begin. */
  predicate Start(w: World) {
    w.clear == {} && w.pass == Pass(NIL, [], Stats(0, 0, 0), false)
  }

  /** What a batch lists, position by position. */
  lemma SelectedShape(u: Setup, w: World, i: nat)
    requires !u.dryRun && i < |Batch(w.table, w.pass.lastId, u.batchSize)|
    ensures var ids, p := Batch(w.table, w.pass.lastId, u.batchSize), DoSelect(u, w).pass;
      && |p.todo| == |ids| && p.lastId == ids[|ids| - 1] && w.pass.lastId < ids[i] <= p.lastId
      && ids[i] in w.table && p.todo[i] == (ids[i], w.table[ids[i]]) && !Tagged(w.table[ids[i]])
  {
    var ids: seq<Id> := Batch(w.table, w.pass.lastId, u.batchSize);
    BatchIsUntagged(w.table, w.pass.lastId, u.batchSize);
    InOrder(ids, i);
  }

  lemma InOrder(ids: seq<Id>, i: nat)
    requires Ascending(ids, ById()) && i < |ids|
    ensures ids[i] <= ids[|ids| - 1]
  {
    if i < |ids| - 1 {
      assert ById()(ids[i], ids[|ids| - 1]);
    }
  }

  /** The rows a batch lists are the untagged ones between the old and the new last id. */
  lemma SelectedRows(u: Setup, w: World)
    requires !u.dryRun && Batch(w.table, w.pass.lastId, u.batchSize) != []
    ensures TodoHolds(DoSelect(u, w)) && w.pass.lastId <= DoSelect(u, w).pass.lastId
    ensures var p := DoSelect(u, w).pass;
      forall id | id in w.table && w.pass.lastId < id <= p.lastId && !Tagged(w.table[id]) :: Listed(p, id)
  {
    var ids: seq<Id>, p := Batch(w.table, w.pass.lastId, u.batchSize), DoSelect(u, w).pass;
    SelectedShape(u, w, 0);
    forall i | 0 <= i < |p.todo|
      ensures p.todo[i].0 <= p.lastId && p.todo[i].0 in w.table && w.table[p.todo[i].0] == p.todo[i].1
            && !Tagged(p.todo[i].1)
    {
      SelectedShape(u, w, i);
    }
    forall id | id in w.table && w.pass.lastId < id <= p.lastId && !Tagged(w.table[id]) ensures Listed(p, id) {
      BatchIsUntagged(w.table, w.pass.lastId, u.batchSize);
      assert id in Untagged(w.table, w.pass.lastId);
      var i :| 0 <= i < |ids| && ids[i] == id;
      SelectedShape(u, w, i);
    }
  }

  lemma SelectKeeps(u: Setup, w: World)
    requires u.cipher.Keyed? && Invertible(u.cipher) && Inv(u, w) && Enabled(u, w, Select)
    ensures Inv(u, DoSelect(u, w))
  {
    BatchIsUntagged(w.table, w.pass.lastId, u.batchSize);
    if !u.dryRun && Batch(w.table, w.pass.lastId, u.batchSize) != [] {
      SelectedRows(u, w);
    } else {
      assert forall id | id in w.table && id > w.pass.lastId && !Tagged(w.table[id]) ::
            id in Untagged(w.table, w.pass.lastId);
    }
  }

  lemma RewriteKeeps(u: Setup, w: World, nonce: nat)
    requires u.cipher.Keyed? && Invertible(u.cipher) && Inv(u, w) && Enabled(u, w, Rewrite(nonce))
    ensures Inv(u, DoRewrite(u, w, nonce))
  {
    var (id, value) := w.pass.todo[0];
    var w' := DoRewrite(u, w, nonce);
    RoundTripIff(u.cipher, nonce, value);
    forall i | 0 <= i < |w'.pass.todo| ensures w'.pass.todo[i] == w.pass.todo[i + 1] {}
    forall other | Listed(w.pass, other) && other != id ensures Listed(w'.pass, other) {
      var i :| 0 <= i < |w.pass.todo| && w.pass.todo[i].0 == other;
      assert w'.pass.todo[i - 1].0 == other;
    }
  }

  lemma WriteKeeps(u: Setup, w: World, e: Event)
    requires u.cipher.Keyed? && Invertible(u.cipher) && Inv(u, w) && Enabled(u, w, e) && (e.Write? || e.Remove?)
    ensures Inv(u, Step(u, w, e))
  {
    if e.Write? {
      RoundTripIff(u.cipher, e.salt, e.plain);
    }
  }

  lemma {:induction false} RunKeeps(u: Setup, w: World, es: seq<Event>)
    requires u.cipher.Keyed? && Invertible(u.cipher) && Inv(u, w) && Legal(u, w, es)
    ensures Inv(u, After(u, w, es))
    decreases |es|
  {
    if es != [] {
      match es[0] {
        case Select => SelectKeeps(u, w);
        case Rewrite(nonce) => RewriteKeeps(u, w, nonce);
        case _ => WriteKeeps(u, w, es[0]);
      }
      RunKeeps(u, Step(u, w, es[0]), es[1..]);
    }
  }

  /** At every moment of a pass, whatever else is written meanwhile, a row decrypts to the text last
      written to it exactly unless that text carries the tag and was written without the key. */
  lemma AlwaysReadable(u: Setup, w: World, es: seq<Event>, id: Id)
    requires u.cipher.Keyed? && Invertible(u.cipher) && Expanding(u.cipher)
    requires Readable(u, w) && Start(w) && Legal(u, w, es)
    ensures var end := After(u, w, es);
      && (id in end.truth <==> id in end.table)
      && (id in end.table ==> (Decrypt(u.cipher, end.table[id]) == Some(end.truth[id]) <==> id !in end.garbled))
  {
    RunKeeps(u, w, es);
    var end := After(u, w, es);
    if id in end.table && id in end.garbled {
      TaggedPlainIsLost(u.cipher, end.truth[id]);
    }
  }

  /** When a pass has finished its counts add up, and if it was no dry run every row is sealed
      but the nil row and those that a keyless writer has written meanwhile. */
  lemma FinishedPass(u: Setup, w: World, es: seq<Event>)
    requires u.cipher.Keyed? && Invertible(u.cipher) && Readable(u, w) && Start(w) && Legal(u, w, es)
    requires After(u, w, es).pass.finished && !u.dryRun
    ensures var end := After(u, w, es);
      && end.pass.stats.scanned == end.pass.stats.rewritten + end.pass.stats.skippedConcurrent
      && (u.batchSize > 0 ==> forall id | id in end.table && id != NIL && id !in end.clear :: Tagged(end.table[id]))
  {
    RunKeeps(u, w, es);
    var end := After(u, w, es);
    forall id | id in end.table && id != NIL && id !in end.clear && u.batchSize > 0 ensures Tagged(end.table[id]) {
      assert !Listed(end.pass, id);
    }
  }

  /** A rewrite seals its row and counts it exactly when the row still holds what was selected; otherwise
      it counts a skip and leaves the table alone. */
  lemma RewriteLaw(u: Setup, w: World, nonce: nat)
    requires Enabled(u, w, Rewrite(nonce))
    ensures var w', id, value := Step(u, w, Rewrite(nonce)), w.pass.todo[0].0, w.pass.todo[0].1;
      var hit := id in w.table && w.table[id] == value;
      && w'.pass.stats.rewritten == w.pass.stats.rewritten + (if hit then 1 else 0)
      && w'.pass.stats.skippedConcurrent == w.pass.stats.skippedConcurrent + (if hit then 0 else 1)
      && w'.pass.stats.scanned == w.pass.stats.scanned && w.pass.todo == [w.pass.todo[0]] + w'.pass.todo
      && (!hit ==> w'.table == w.table) && (hit ==> w'.table == w.table[id := Encrypt(u.cipher, nonce, value)])
      && w'.truth == w.truth && w'.clear == w.clear && w'.garbled == w.garbled
  {
  }

  /** What other writers do: a keyed one stores ciphertext, a keyless one the text as it is, which is then
      in the clear and garbled if it carries the tag; a removed row is gone. */
  lemma WriterLaw(u: Setup, w: World, id: Id, plain: string, keyed: bool, salt: nat)
    ensures var w' := Step(u, w, Write(id, plain, keyed, salt));
      && w'.table == w.table[id := if keyed then Encrypt(u.cipher, salt, plain) else plain]
      && w'.truth == w.truth[id := plain] && w'.pass == w.pass
      && (forall o :: o in w'.clear <==> o in w.clear || (o == id && !keyed))
      && (forall o | o != id :: o in w'.garbled <==> o in w.garbled)
      && (id in w'.garbled <==> !keyed && Tagged(plain))
    ensures var w' := Step(u, w, Remove(id));
      && (forall o :: o in w'.table <==> o in w.table && o != id)
      && (forall o | o in w'.table :: w'.table[o] == w.table[o])
      && (forall o :: o in w'.truth <==> o in w.truth && o != id) && w'.pass == w.pass && w'.clear == w.clear
  {
  }

  /** A selection happens when the last batch is worked off and the pass is not over, a rewrite when there
      is something to rewrite, and other writers write whenever they like. */
  lemma SchedulingLaw(u: Setup, w: World, id: Id, plain: string, keyed: bool, salt: nat)
    ensures Enabled(u, w, Select) <==> w.pass.todo == [] && !w.pass.finished
    ensures Enabled(u, w, Rewrite(salt)) <==> w.pass.todo != []
    ensures Enabled(u, w, Write(id, plain, keyed, salt)) && Enabled(u, w, Remove(id))
  {
  }
}
