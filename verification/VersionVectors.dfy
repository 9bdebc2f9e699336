/**
 Version vectors and the resolution rule every replica shares: a dominated
 version loses, a dominating one wins, and concurrent versions fall to the
 greater (timestamp, writer).
 */
module VersionVectors {
  import opened Prelude

  /** Writers are device ids; the tiebreak only needs their total order. */
  type Writer = nat

  type VV = map<Writer, nat>

  /** A writer absent from a vector counts as zero. */
  function At(v: VV, w: Writer): nat {
    if w in v then v[w] else 0
  }

  predicate Leq(a: VV, b: VV) {
    forall w | w in a :: a[w] <= At(b, w)
  }

  lemma LeqAt(a: VV, b: VV)
    ensures Leq(a, b) <==> forall w: Writer :: At(a, w) <= At(b, w)
  {
    if forall w: Writer :: At(a, w) <= At(b, w) {
      forall w | w in a ensures a[w] <= At(b, w) {
        assert At(a, w) <= At(b, w);
      }
    }
  }

  predicate Concurrent(a: VV, b: VV) {
    !Leq(a, b) && !Leq(b, a)
  }

  /** `b` carries everything `a` does and more. */
  predicate Below(a: VV, b: VV) {
    Leq(a, b) && !Leq(b, a)
  }

  /** The deterministic tiebreak: lexicographic on (timestamp, writer). */
  predicate Earlier(t1: Time, w1: Writer, t2: Time, w2: Writer) {
    t1 < t2 || (t1 == t2 && w1 < w2)
  }

  datatype Winner = Local | Incoming

  function Resolve(localVv: VV, localTs: Time, localWriter: Writer,
                   incomingVv: VV, incomingTs: Time, incomingWriter: Writer): Winner
  {
    if Leq(incomingVv, localVv) then Local
    else if Leq(localVv, incomingVv) then Incoming
    else if Earlier(localTs, localWriter, incomingTs, incomingWriter) then Incoming
    else Local
  }

  /** Two versions can never both displace each other; and unless the vectors
      agree or they tie on (timestamp, writer), exactly one displaces the other. */
  lemma ResolveAntisymmetric(v1: VV, t1: Time, w1: Writer, v2: VV, t2: Time, w2: Writer)
    ensures !(Resolve(v1, t1, w1, v2, t2, w2).Incoming? && Resolve(v2, t2, w2, v1, t1, w1).Incoming?)
    ensures Resolve(v1, t1, w1, v2, t2, w2).Local? && Resolve(v2, t2, w2, v1, t1, w1).Local?
            <==> (Leq(v1, v2) && Leq(v2, v1)) || (Concurrent(v1, v2) && t1 == t2 && w1 == w2)
  {
  }

  /** The rule, component by component: an incoming version displaces the stored one exactly when it
      knows something the stored one does not and either knows all the stored one does or bears the
      later (timestamp, writer). */
  lemma ResolveLaw(localVv: VV, localTs: Time, localWriter: Writer, incomingVv: VV, incomingTs: Time,
                   incomingWriter: Writer)
    ensures Resolve(localVv, localTs, localWriter, incomingVv, incomingTs, incomingWriter).Incoming?
            <==> && (exists w: Writer :: At(incomingVv, w) > At(localVv, w))
                 && ((forall w: Writer :: At(localVv, w) <= At(incomingVv, w))
                     || incomingTs > localTs || (incomingTs == localTs && incomingWriter > localWriter))
  {
    LeqAt(incomingVv, localVv);
    LeqAt(localVv, incomingVv);
  }

  /** The pointwise maximum: what `merge_vv` must compute. */
  function Merge(a: VV, b: VV): VV {
    map w | w in a.Keys + b.Keys :: if At(a, w) < At(b, w) then At(b, w) else At(a, w)
  }

  /** `Merge` is the least upper bound, so merging can only move a vector forward. */
  lemma MergeIsLeastUpperBound(a: VV, b: VV, c: VV)
    ensures Leq(a, Merge(a, b)) && Leq(b, Merge(a, b))
    ensures Leq(a, c) && Leq(b, c) ==> Leq(Merge(a, b), c)
    ensures forall w: Writer :: At(Merge(a, b), w) == if At(a, w) < At(b, w) then At(b, w) else At(a, w)
  {
  }

  lemma LeqTransitive(a: VV, b: VV, c: VV)
    requires Leq(a, b) && Leq(b, c)
    ensures Leq(a, c)
  {
    forall w | w in a ensures a[w] <= At(c, w) {
      if w in b {
        assert b[w] <= At(c, w);
      }
    }
  }

  method MergeVv(a: VV, b: VV) returns (out: VV)
    ensures out == Merge(a, b)
  {
    out := a;
    var todo := b.Keys;
    while todo != {}
      invariant todo <= b.Keys
      invariant out.Keys == a.Keys + (b.Keys - todo)
      invariant forall w | w in out ::
        out[w] == if w in b.Keys - todo && At(a, w) < At(b, w) then At(b, w) else At(a, w)
      decreases todo
    {
      var k :| k in todo;
      var entry := if k in out then out[k] else 0;
      out := out[k := if b[k] > entry then b[k] else entry];
      todo := todo - {k};
    }
  }

  /** The op must raise its own writer's component. */
  predicate AdvancesWriter(current: VV, opVv: VV, writer: Writer) {
    At(opVv, writer) > At(current, writer)
  }

  /** An op that advances its writer is never dominated, so against it the stored
      version can win only when it is concurrent and carries the later stamp. */
  lemma AdvancingNeverDominated(current: VV, ts: Time, lastWriter: Writer, opVv: VV, opTs: Time, writer: Writer)
    requires AdvancesWriter(current, opVv, writer)
    ensures !Leq(opVv, current)
    ensures Resolve(current, ts, lastWriter, opVv, opTs, writer).Local?
            <==> Concurrent(current, opVv) && !Earlier(ts, lastWriter, opTs, writer)
  {
    assert writer in opVv;
  }
}
