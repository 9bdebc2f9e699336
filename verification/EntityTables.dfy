/**
 The materialised notebooks, tags and note-tag links. Notebooks and tags share one shape:
 an upsert replaces the row it beats (but keeps its creation time), a delete tombstones it
 in place or plants a tombstone when the entity is not there yet.
 */
module EntityTables {
  import opened Prelude
  import opened VersionVectors
  import opened LastWriter

  type User = nat
  type Id = nat

  datatype Row<P> = Row(owner: User, payload: P, createdAt: Time, updatedAt: Time, deletedAt: Option<Time>,
                        vv: VV, writer: Writer)

  datatype Action<P> = Put(payload: P, createdAt: Time, deletedAt: Option<Time>) | Drop

  function StampOf<P>(r: Row<P>): Stamp {
    Stamp(r.vv, r.updatedAt, r.writer)
  }

  /** What the edit makes of the tombstone column. */
  function Deletion<P>(e: Edit<Action<P>>): Option<Time> {
    match e.body
    case Put(_, _, d) => d
    case Drop => Some(e.stamp.ts)
  }

  /** The row an edit creates when there is none; `blank` is a planted tombstone's payload. */
  function Created<P>(user: User, e: Edit<Action<P>>, blank: P): Row<P> {
    match e.body
    case Put(p, c, d) => Row(user, p, c, e.stamp.ts, d, e.stamp.vv, e.stamp.writer)
    case Drop => Row(user, blank, e.stamp.ts, e.stamp.ts, Some(e.stamp.ts), e.stamp.vv, e.stamp.writer)
  }

  function Replaced<P>(r: Row<P>, e: Edit<Action<P>>): Row<P> {
    var r' := r.(updatedAt := e.stamp.ts, deletedAt := Deletion(e), vv := e.stamp.vv, writer := e.stamp.writer);
    if e.body.Put? then r'.(payload := e.body.payload) else r'
  }

  /** One applied edit. A row of another user is left alone. */
  function ApplyEdit<K, P>(table: map<K, Row<P>>, user: User, id: K, e: Edit<Action<P>>, blank: P): map<K, Row<P>> {
    if id !in table then table[id := Created(user, e, blank)]
    else if table[id].owner == user && Beats(e.stamp, StampOf(table[id])) then table[id := Replaced(table[id], e)]
    else table
  }

  function Replay<K, P>(table: map<K, Row<P>>, user: User, id: K, h: seq<Edit<Action<P>>>, blank: P): map<K, Row<P>> {
    if h == [] then table
    else ApplyEdit(Replay(table, user, id, h[..|h| - 1], blank), user, id, h[|h| - 1], blank)
  }

  /** The row carries the edit's version, tombstone and, when it was a Put, its payload. */
  predicate RowShows<P(==)>(r: Row<P>, user: User, e: Edit<Action<P>>) {
    && r.owner == user && StampOf(r) == e.stamp && r.deletedAt == Deletion(e)
    && (e.body.Put? ==> r.payload == e.body.payload)
  }

  /** Whatever the arrivals, the row shows the edit left standing. */
  lemma {:induction false} RowShowsStanding<K, P>(table: map<K, Row<P>>, user: User, id: K, h: seq<Edit<Action<P>>>,
                                                  blank: P)
    requires id !in table && h != []
    ensures var t := Replay(table, user, id, h, blank);
      id in t && Standing(h).Some? && RowShows(t[id], user, Standing(h).value)
    ensures forall j | j != id :: (j in table <==> j in Replay(table, user, id, h, blank))
                                  && (j in table ==> Replay(table, user, id, h, blank)[j] == table[j])
    decreases |h|
  {
    var init := h[..|h| - 1];
    if init != [] {
      RowShowsStanding(table, user, id, init, blank);
    } else {
      assert Replay(table, user, id, init, blank) == table;
    }
  }

  /** One user's edits of a notebook or tag, in any order and with any repeats, end in the
      same version and tombstone, and in the same payload whenever the row is live. */
  lemma EntityConverges<K, P>(table: map<K, Row<P>>, user: User, id: K,
                           h: seq<Edit<Action<P>>>, h': seq<Edit<Action<P>>>, blank: P)
    requires id !in table && h != [] && Elems(h) == Elems(h') && Causal(Elems(h))
    ensures var t, t' := Replay(table, user, id, h, blank), Replay(table, user, id, h', blank);
      && id in t && id in t' && StampOf(t[id]) == StampOf(t'[id]) && t[id].deletedAt == t'[id].deletedAt
      && (t[id].deletedAt.None? ==> t[id].payload == t'[id].payload)
  {
    assert h[0] in Elems(h);
    assert h' != [] by {
      assert h[0] in Elems(h');
    }
    var m := CausalHasChampion(Elems(h));
    ChampionStands(h, m);
    ChampionStands(h', m);
    RowShowsStanding(table, user, id, h, blank);
    RowShowsStanding(table, user, id, h', blank);
  }

  /** Two users' edits under one id do not converge: whichever comes first owns the row for good. */
  lemma FirstComerOwns<K, P>(table: map<K, Row<P>>, u: User, v: User, id: K, e: Edit<Action<P>>, f: Edit<Action<P>>,
                             blank: P)
    requires id !in table && u != v
    ensures var t := ApplyEdit(ApplyEdit(table, u, id, e, blank), v, id, f, blank);
      id in t && t[id].owner == u && RowShows(t[id], u, e)
  {
  }

  /** What one edit does to its row, field by field. A winning edit takes over version and tombstone but
      never the creation time; a delete leaves the payload, or plants a blank row dated by itself. */
  lemma EditLaw<K, P>(table: map<K, Row<P>>, user: User, id: K, e: Edit<Action<P>>, blank: P)
    ensures var t := ApplyEdit(table, user, id, e, blank);
      && id in t && (forall j | j != id :: (j in t <==> j in table) && (j in t ==> t[j] == table[j]))
      && (id !in table ==>
            && t[id].owner == user && StampOf(t[id]) == e.stamp
            && (e.body.Put? ==>
                  && t[id].payload == e.body.payload && t[id].createdAt == e.body.createdAt
                  && t[id].deletedAt == e.body.deletedAt)
            && (e.body.Drop? ==>
                  t[id].payload == blank && t[id].createdAt == e.stamp.ts && t[id].deletedAt == Some(e.stamp.ts)))
      && (id in table && table[id].owner == user && Beats(e.stamp, StampOf(table[id])) ==>
            && t[id].owner == user && t[id].createdAt == table[id].createdAt
            && t[id].updatedAt == e.stamp.ts && t[id].vv == e.stamp.vv && t[id].writer == e.stamp.writer
            && (e.body.Put? ==> t[id].payload == e.body.payload && t[id].deletedAt == e.body.deletedAt)
            && (e.body.Drop? ==> t[id].payload == table[id].payload && t[id].deletedAt == Some(e.stamp.ts)))
      && (id in table && !(table[id].owner == user && Beats(e.stamp, StampOf(table[id]))) ==> t[id] == table[id])
  {
  }

  /** The creation time is for ever that of the edit that came first. */
  lemma {:induction false} CreationTimeStays<K, P>(table: map<K, Row<P>>, user: User, id: K, h: seq<Edit<Action<P>>>,
                                                   blank: P)
    requires id !in table && h != []
    ensures var t := Replay(table, user, id, h, blank);
      id in t && t[id].createdAt == if h[0].body.Put? then h[0].body.createdAt else h[0].stamp.ts
    decreases |h|
  {
    var init := h[..|h| - 1];
    if init == [] {
      assert Replay(table, user, id, init, blank) == table;
    } else {
      CreationTimeStays(table, user, id, init, blank);
    }
  }

  // ---- Note-tag links: the whole row is the edit ----

  datatype Link = Link(updatedAt: Time, deletedAt: Option<Time>, vv: VV, writer: Writer)

  datatype LinkKey = LinkKey(user: User, note: Id, tag: Id)

  /** An add carries no tombstone, a remove one dated by its own timestamp. */
  function LinkOf(e: Edit<bool>): Link {
    Link(e.stamp.ts, if e.body then Some(e.stamp.ts) else None, e.stamp.vv, e.stamp.writer)
  }

  function ApplyLink(links: map<LinkKey, Link>, k: LinkKey, e: Edit<bool>): map<LinkKey, Link> {
    if k in links && !Beats(e.stamp, Stamp(links[k].vv, links[k].updatedAt, links[k].writer)) then links
    else links[k := LinkOf(e)]
  }

  /** A link edit that wins, or comes first, is the whole row: removed at its own timestamp or present. */
  lemma LinkLaw(links: map<LinkKey, Link>, k: LinkKey, e: Edit<bool>)
    ensures var t := ApplyLink(links, k, e);
      && k in t && (forall o | o != k :: (o in t <==> o in links) && (o in t ==> t[o] == links[o]))
      && (k !in links || Beats(e.stamp, Stamp(links[k].vv, links[k].updatedAt, links[k].writer)) ==>
            && t[k].updatedAt == e.stamp.ts && t[k].vv == e.stamp.vv && t[k].writer == e.stamp.writer
            && t[k].deletedAt == if e.body then Some(e.stamp.ts) else None)
      && (k in links && !Beats(e.stamp, Stamp(links[k].vv, links[k].updatedAt, links[k].writer)) ==> t[k] == links[k])
  {
  }

  function ReplayLinks(links: map<LinkKey, Link>, k: LinkKey, h: seq<Edit<bool>>): map<LinkKey, Link> {
    if h == [] then links else ApplyLink(ReplayLinks(links, k, h[..|h| - 1]), k, h[|h| - 1])
  }

  lemma {:induction false} LinkIsStanding(links: map<LinkKey, Link>, k: LinkKey, h: seq<Edit<bool>>)
    requires k !in links && h != []
    ensures k in ReplayLinks(links, k, h) && Standing(h).Some?
          && ReplayLinks(links, k, h)[k] == LinkOf(Standing(h).value)
    decreases |h|
  {
    var init := h[..|h| - 1];
    if init != [] {
      LinkIsStanding(links, k, init);
    } else {
      assert ReplayLinks(links, k, init) == links;
    }
  }

  /** Links agree in full. */
  lemma LinksConverge(links: map<LinkKey, Link>, k: LinkKey, h: seq<Edit<bool>>, h': seq<Edit<bool>>)
    requires k !in links && h != [] && Elems(h) == Elems(h') && Causal(Elems(h))
    ensures k in ReplayLinks(links, k, h) && k in ReplayLinks(links, k, h')
    ensures ReplayLinks(links, k, h)[k] == ReplayLinks(links, k, h')[k]
  {
    assert h[0] in Elems(h);
    assert h' != [] by {
      assert h[0] in Elems(h');
    }
    var m := CausalHasChampion(Elems(h));
    ChampionStands(h, m);
    ChampionStands(h', m);
    LinkIsStanding(links, k, h);
    LinkIsStanding(links, k, h');
  }

  // ---- The statements that run ----

  /** A table of notebooks or of tags. */
  class VersionedTable<K(==), P> {
    var rows: map<K, Row<P>>
    const blank: P

    constructor (blank: P)
      ensures rows == map[] && this.blank == blank
    {
      rows := map[];
      this.blank := blank;
    }

    /** Returns whether the edit was taken as winning; a foreign row reports true
        although the conflict clause leaves it alone. */
    method Upsert(user: User, id: K, payload: P, createdAt: Time, updatedAt: Time, deletedAt: Option<Time>,
                  vv: VV, writer: Writer) returns (won: bool)
      modifies this
      ensures var edit := Edit(Stamp(vv, updatedAt, writer), Put(payload, createdAt, deletedAt));
        rows == ApplyEdit(old(rows), user, id, edit, blank)
      ensures !won <==> id in old(rows) && old(rows)[id].owner == user
                        && !Beats(Stamp(vv, updatedAt, writer), StampOf(old(rows)[id]))
    {
      var incoming := Stamp(vv, updatedAt, writer);
      if id in rows && rows[id].owner == user {
        if !Beats(incoming, StampOf(rows[id])) {
          return false;
        }
      }
      if id !in rows {
        rows := rows[id := Row(user, payload, createdAt, updatedAt, deletedAt, vv, writer)];
      } else if rows[id].owner == user {
        rows := rows[id := rows[id].(payload := payload, updatedAt := updatedAt, deletedAt := deletedAt,
                                     vv := vv, writer := writer)];
      }
      return true;
    }

    method Delete(user: User, id: K, deletedAt: Time, vv: VV, writer: Writer) returns (won: bool)
      modifies this
      ensures rows == ApplyEdit(old(rows), user, id, Edit(Stamp(vv, deletedAt, writer), Drop), blank)
      ensures !won <==> id in old(rows) && old(rows)[id].owner == user
                        && !Beats(Stamp(vv, deletedAt, writer), StampOf(old(rows)[id]))
    {
      var incoming := Stamp(vv, deletedAt, writer);
      var existed := id in rows && rows[id].owner == user;
      if existed {
        if !Beats(incoming, StampOf(rows[id])) {
          return false;
        }
        rows := rows[id := rows[id].(deletedAt := Some(deletedAt), updatedAt := deletedAt, vv := vv, writer := writer)];
      } else if id !in rows {
        rows := rows[id := Row(user, blank, deletedAt, deletedAt, Some(deletedAt), vv, writer)];
      }
      return true;
    }
  }
}
