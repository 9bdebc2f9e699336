/**
 When does applying versioned edits in any order, any number of times, end in the same
 place? Exactly when one edit beats every other; and causally ordered clocks give one.
 */
module LastWriter {
  import opened Prelude
  import opened VersionVectors

  datatype Stamp = Stamp(vv: VV, ts: Time, writer: Writer)

  /** A versioned edit of one entity. */
  datatype Edit<B> = Edit(stamp: Stamp, body: B)

  /** `incoming_wins`: the incoming stamp displaces the stored one. */
  predicate Beats(incoming: Stamp, stored: Stamp) {
    Resolve(stored.vv, stored.ts, stored.writer, incoming.vv, incoming.ts, incoming.writer).Incoming?
  }

  /** The edit left standing after a history of arrivals. */
  function Standing<B>(h: seq<Edit<B>>): Option<Edit<B>> {
    if h == [] then None
    else
      var w := Standing(h[..|h| - 1]);
      var e := h[|h| - 1];
      if w.None? || Beats(e.stamp, w.value.stamp) then Some(e) else w
  }

  /** One edit displaces every other. */
  predicate Champion<B(==)>(edits: set<Edit<B>>, m: Edit<B>) {
    m in edits && forall e | e in edits && e != m :: Beats(m.stamp, e.stamp)
  }

  lemma {:induction false} StandingWasReceived<B>(h: seq<Edit<B>>)
    requires h != []
    ensures Standing(h).Some? && Standing(h).value in h
  {
    if |h| > 1 {
      StandingWasReceived(h[..|h| - 1]);
    }
  }

  /** A champion stands at the end of every history that contains it. */
  lemma {:induction false} ChampionStands<B>(h: seq<Edit<B>>, m: Edit<B>)
    requires Champion(Elems(h), m)
    ensures Standing(h) == Some(m)
  {
    var init, e := h[..|h| - 1], h[|h| - 1];
    assert h == init + [e];
    if m in init {
      assert Champion(Elems(init), m);
      ChampionStands(init, m);
      if e != m {
        ResolveAntisymmetric(m.stamp.vv, m.stamp.ts, m.stamp.writer, e.stamp.vv, e.stamp.ts, e.stamp.writer);
      }
    } else {
      assert e == m;
      if init != [] {
        StandingWasReceived(init);
        assert Standing(init).value in Elems(h);
      }
    }
  }

  lemma {:induction false} StandingIgnores<B>(a: seq<Edit<B>>, c: Edit<B>, x: Edit<B>)
    requires Standing(a) == Some(c) && !Beats(x.stamp, c.stamp)
    ensures Standing(a + [x]) == Some(c)
  {
    assert (a + [x])[..|a|] == a;
  }

  lemma {:induction false} StaysAway<B>(a: seq<Edit<B>>, rest: seq<Edit<B>>, x: Edit<B>)
    requires a != [] && Standing(a) != Some(x) && x !in rest
    ensures Standing(a + rest) != Some(x)
  {
    if rest != [] {
      var init, e := rest[..|rest| - 1], rest[|rest| - 1];
      StaysAway(a, init, x);
      assert (a + rest)[..|a + rest| - 1] == a + init;
    } else {
      assert a + rest == a;
    }
  }

  lemma Listing<B>(s: set<Edit<B>>) returns (l: seq<Edit<B>>)
    ensures Elems(l) == s
    decreases s
  {
    if s == {} {
      l := [];
    } else {
      var x :| x in s;
      var r := Listing(s - {x});
      l := [x] + r;
      assert forall e :: e in Elems(l) <==> e == x || e in Elems(r);
    }
  }

  ghost predicate AlwaysEndsWith<B(!new)>(edits: set<Edit<B>>, m: Edit<B>) {
    forall h: seq<Edit<B>> | Elems(h) == edits :: Standing(h) == Some(m)
  }

  /** Order and repetition are irrelevant exactly when there is a champion: if some other
      edit is not beaten, letting it arrive first keeps the supposed winner out. */
  lemma ConvergesIffChampion<B(!new)>(edits: set<Edit<B>>, m: Edit<B>)
    requires m in edits
    ensures AlwaysEndsWith(edits, m) <==> Champion(edits, m)
  {
    if Champion(edits, m) {
      forall h: seq<Edit<B>> | Elems(h) == edits ensures Standing(h) == Some(m) {
        ChampionStands(h, m);
      }
    } else {
      var c :| c in edits && c != m && !Beats(m.stamp, c.stamp);
      var rest := Listing(edits - {c, m});
      assert Standing([c]) == Some(c);
      StandingIgnores([c], c, m);
      assert m !in rest by {
        assert m !in Elems(rest);
      }
      StaysAway([c] + [m], rest, m);
      var h := [c] + [m] + rest;
      assert Elems(h) == edits by {
        assert forall e :: e in Elems(h) <==> e == c || e == m || e in Elems(rest);
      }
      assert Standing(h) != Some(m);
    }
  }

  // ---- Causally ordered clocks give a champion ----

  predicate NotLater(a: Stamp, b: Stamp) {
    !Earlier(b.ts, b.writer, a.ts, a.writer)
  }

  /** Clocks never run backwards along causality; edits that share both timestamp and
      writer are causally ordered; equal vectors mean the same edit. */
  predicate Causal<B(==)>(edits: set<Edit<B>>) {
    forall a, b | a in edits && b in edits ::
      && (Below(a.stamp.vv, b.stamp.vv) ==> NotLater(a.stamp, b.stamp))
      && (a.stamp.ts == b.stamp.ts && a.stamp.writer == b.stamp.writer ==> !Concurrent(a.stamp.vv, b.stamp.vv))
      && (Leq(a.stamp.vv, b.stamp.vv) && Leq(b.stamp.vv, a.stamp.vv) ==> a == b)
  }

  lemma BeatsIsTotal<B>(edits: set<Edit<B>>, a: Edit<B>, b: Edit<B>)
    requires Causal(edits) && a in edits && b in edits && a != b
    ensures Beats(a.stamp, b.stamp) || Beats(b.stamp, a.stamp)
  {
    ResolveAntisymmetric(a.stamp.vv, a.stamp.ts, a.stamp.writer, b.stamp.vv, b.stamp.ts, b.stamp.writer);
  }

  lemma BeatsIsTransitive<B>(edits: set<Edit<B>>, a: Edit<B>, b: Edit<B>, c: Edit<B>)
    requires Causal(edits) && a in edits && b in edits && c in edits
    requires Beats(b.stamp, a.stamp) && Beats(c.stamp, b.stamp)
    ensures Beats(c.stamp, a.stamp)
  {
    assert NotLater(a.stamp, b.stamp) && NotLater(b.stamp, c.stamp);
    if Leq(a.stamp.vv, b.stamp.vv) && Leq(b.stamp.vv, c.stamp.vv) {
      LeqTransitive(a.stamp.vv, b.stamp.vv, c.stamp.vv);
    }
    if Leq(c.stamp.vv, a.stamp.vv) {
      if Leq(a.stamp.vv, b.stamp.vv) {
        LeqTransitive(c.stamp.vv, a.stamp.vv, b.stamp.vv);
      } else if Leq(b.stamp.vv, c.stamp.vv) {
        LeqTransitive(b.stamp.vv, c.stamp.vv, a.stamp.vv);
      }
    }
  }

  /** A non-empty set of causal edits has a champion, hence one outcome. */
  lemma {:induction false} CausalHasChampion<B>(edits: set<Edit<B>>) returns (m: Edit<B>)
    requires edits != {} && Causal(edits)
    ensures Champion(edits, m)
    decreases edits
  {
    var x :| x in edits;
    if edits == {x} {
      m := x;
    } else {
      var rest := edits - {x};
      assert rest != {} by {
        assert edits == rest + {x};
      }
      var c := CausalHasChampion(rest);
      BeatsIsTotal(edits, c, x);
      if Beats(c.stamp, x.stamp) {
        m := c;
      } else {
        m := x;
        forall e | e in edits && e != m ensures Beats(m.stamp, e.stamp) {
          if e != c {
            BeatsIsTransitive(edits, e, c, x);
          }
        }
      }
    }
  }

  /** Without causal clocks the resolution can go round in circles: `b` knows `a` yet is
      stamped earlier, and `c`, concurrent with both, sits between them. */
  lemma SkewedClocksCycle()
    ensures var a, b, c := Stamp(map[1 := 1], 30, 1), Stamp(map[1 := 1, 2 := 1], 10, 2), Stamp(map[3 := 1], 20, 3);
      Beats(b, a) && Beats(c, b) && Beats(a, c)
  {
    var a, b, c := Stamp(map[1 := 1], 30, 1), Stamp(map[1 := 1, 2 := 1], 10, 2), Stamp(map[3 := 1], 20, 3);
    assert 2 in b.vv && 3 in c.vv && 1 in a.vv && 1 in b.vv;
    assert !Leq(b.vv, a.vv) && !Leq(c.vv, b.vv) && !Leq(b.vv, c.vv) && !Leq(a.vv, c.vv) && !Leq(c.vv, a.vv);
  }

  /** The rule for stamps, component by component. */
  lemma BeatsLaw(incoming: Stamp, stored: Stamp)
    ensures Beats(incoming, stored) <==>
      && (exists w: Writer :: At(incoming.vv, w) > At(stored.vv, w))
      && ((forall w: Writer :: At(stored.vv, w) <= At(incoming.vv, w))
          || incoming.ts > stored.ts || (incoming.ts == stored.ts && incoming.writer > stored.writer))
  {
    ResolveLaw(stored.vv, stored.ts, stored.writer, incoming.vv, incoming.ts, incoming.writer);
  }
}
