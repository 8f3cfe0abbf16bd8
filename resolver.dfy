/**
 * `_getClosestViableAnimation`: the recursive fallback search that always finds an
 * emotion animation of the requested motion type. A miss above tier 1 retries the
 * same emotion one tier lower; a miss at tier 1 moves to the nearest emotion toward
 * `neutral` and from then on only accepts entries marked `useAsFallback`.
 */
module Resolver {
  import opened Wrappers
  import opened AnimationMetadata
  import opened Catalog
  import opened EmotionTopology

  /** The arguments of one call: emotion, tier, motion type and `isFallback`. */
  datatype Query = Query(emotion: string, tier: Tier, motionType: MotionType, isFallback: bool)

  /** The filter the source applies to a bucket. */
  predicate Viable(a: EmotionAnimation, motionType: MotionType, isFallback: bool) {
    a.motionType == motionType && (isFallback ==> a.useAsFallback)
  }

  /** `bucket.filter(...)`: the viable entries, in bucket order. */
  function FilterViable(bucket: seq<EmotionAnimation>, motionType: MotionType, isFallback: bool): (r: seq<EmotionAnimation>)
    ensures |r| <= |bucket|
    ensures forall a :: a in r <==> a in bucket && Viable(a, motionType, isFallback)
  {
    if |bucket| == 0 then []
    else
      var rest := FilterViable(bucket[1..], motionType, isFallback);
      assert forall a :: a in bucket <==> a == bucket[0] || a in bucket[1..];
      if Viable(bucket[0], motionType, isFallback) then [bucket[0]] + rest else rest
  }

  /** The entries one call may choose from: the filtered exact bucket, empty when
      the catalog has no bucket for the emotion and tier. */
  function Candidates(cat: EmotionCatalog, q: Query): (c: seq<EmotionAnimation>)
    ensures forall a :: a in c <==>
      ExactViable(cat, q.emotion, q.tier as real).Some? &&
      a in ExactViable(cat, q.emotion, q.tier as real).value &&
      Viable(a, q.motionType, q.isFallback)
  {
    match ExactViable(cat, q.emotion, q.tier as real)
    case None => []
    case Some(bucket) => FilterViable(bucket, q.motionType, q.isFallback)
  }

  /** `Math.floor(Math.random() * n)`, the draw `rnd` standing for the value
      `Math.random()` returned, which lies in [0, 1). */
  function DrawIndex(rnd: real, n: nat): (k: nat)
    requires n > 0 && 0.0 <= rnd < 1.0
    ensures k < n
  {
    ScaledDrawBelow(rnd, n as real);
    var x := rnd * n as real;
    assert x.Floor as real <= x < n as real;
    x.Floor
  }

  lemma {:induction false} ScaledDrawBelow(rnd: real, n: real)
    requires n > 0.0 && 0.0 <= rnd < 1.0
    ensures 0.0 <= rnd * n < n
  {
    assert n - rnd * n == (1.0 - rnd) * n;
  }

  /** Every index is drawn by some value of `Math.random()`. */
  lemma {:induction false} DrawReachesEvery(i: nat, n: nat)
    requires i < n
    ensures 0.0 <= i as real / n as real < 1.0
    ensures DrawIndex(i as real / n as real, n) == i
  {
    var rnd := i as real / n as real;
    assert rnd * n as real == i as real;
    assert rnd < 1.0 by {
      assert n as real - rnd * n as real > 0.0;
      assert n as real - rnd * n as real == (1.0 - rnd) * n as real;
    }
  }

  /** `list[Math.floor(Math.random() * list.length)]`. */
  function Pick(c: seq<EmotionAnimation>, rnd: real): (a: EmotionAnimation)
    requires |c| > 0 && 0.0 <= rnd < 1.0
    ensures a in c
  {
    c[DrawIndex(rnd, |c|)]
  }

  /** Every candidate is chosen by some draw, so the choice ranges over all of them. */
  lemma {:induction false} PickReachesEvery(c: seq<EmotionAnimation>, i: nat)
    requires i < |c|
    ensures exists rnd :: 0.0 <= rnd < 1.0 && Pick(c, rnd) == c[i]
  {
    DrawReachesEvery(i, |c|);
    var rnd := i as real / |c| as real;
    assert Pick(c, rnd) == c[i];
  }

  predicate HasFallback(bucket: seq<EmotionAnimation>, motionType: MotionType) {
    exists i :: 0 <= i < |bucket| && bucket[i].motionType == motionType && bucket[i].useAsFallback
  }

  /** What the search needs to end: a well-formed emotion table, and a `neutral`
      tier-1 bucket holding a fallback entry of each motion type. */
  predicate WellFormed(topo: Topology, cat: EmotionCatalog) {
    && EmotionTopology.WellFormed(topo)
    && ExactViable(cat, NeutralName, 1.0).Some?
    && HasFallback(ExactViable(cat, NeutralName, 1.0).value, Gesture)
    && HasFallback(ExactViable(cat, NeutralName, 1.0).value, Loop)
  }

  /** The search never misses at `neutral`, tier 1, whatever the motion type or mode. */
  lemma {:induction false} NeutralNeverMisses(topo: Topology, cat: EmotionCatalog, motionType: MotionType, isFallback: bool)
    requires WellFormed(topo, cat)
    ensures Candidates(cat, Query(NeutralName, 1, motionType, isFallback)) != []
  {
    var bucket := ExactViable(cat, NeutralName, 1.0).value;
    var i :| 0 <= i < |bucket| && bucket[i].motionType == motionType && bucket[i].useAsFallback;
    assert bucket[i] in Candidates(cat, Query(NeutralName, 1, motionType, isFallback));
  }

  /** `_getClosestViableAnimation(emotion, tier, motionType, isFallback)`. The branch that
      would try the second-nearest emotion when the recursive call returns nothing is
      not modelled: that call always returns an entry. */
  function ClosestViable(topo: Topology, cat: EmotionCatalog, q: Query, rnd: real): (r: EmotionAnimation)
    requires WellFormed(topo, cat) && 0.0 <= rnd < 1.0
    ensures r.motionType == q.motionType
    ensures Candidates(cat, q) != [] ==> r in Candidates(cat, q)
    ensures q.tier == 1 && (q.isFallback || Candidates(cat, q) == []) ==> r.useAsFallback
    ensures Consistent(cat) ==> r.meta.intensity <= q.tier
    decreases q.tier, Distance(topo, q.emotion)
  {
    var c := Candidates(cat, q);
    if |c| > 0 then
      var r := Pick(c, rnd);
      assert Consistent(cat) ==> r.meta.intensity == q.tier by {
        if Consistent(cat) {
          BucketEntriesMatch(cat, q.emotion, q.tier, r);
        }
      }
      r
    else if q.tier == 1 then
      NeutralNeverMisses(topo, cat, q.motionType, q.isFallback);
      NearestDecreases(topo, q.emotion);
      ClosestViable(topo, cat, Query(NearestEmotion(topo, q.emotion), 1, q.motionType, true), rnd)
    else
      ClosestViable(topo, cat, Query(q.emotion, q.tier - 1, q.motionType, false), rnd)
  }

  /** A miss above tier 1 retries the same emotion one tier lower, out of fallback mode. */
  lemma OneTierDown(topo: Topology, cat: EmotionCatalog, q: Query, rnd: real)
    requires WellFormed(topo, cat) && 0.0 <= rnd < 1.0
    requires q.tier > 1 && Candidates(cat, q) == []
    ensures ClosestViable(topo, cat, q, rnd) == ClosestViable(topo, cat, Query(q.emotion, q.tier - 1, q.motionType, false), rnd)
  {
  }

  /** Above tier 1 the search keeps the emotion and drops one tier at a time: the
      answer comes from the highest tier, at or below the requested one, whose bucket
      holds a match. */
  lemma {:induction false} SameEmotionFirst(topo: Topology, cat: EmotionCatalog, q: Query, t: Tier, rnd: real)
    requires WellFormed(topo, cat) && 0.0 <= rnd < 1.0
    requires !q.isFallback && t <= q.tier
    requires Candidates(cat, Query(q.emotion, t, q.motionType, false)) != []
    requires forall u: Tier :: t < u <= q.tier ==> Candidates(cat, Query(q.emotion, u, q.motionType, false)) == []
    ensures ClosestViable(topo, cat, q, rnd) in Candidates(cat, Query(q.emotion, t, q.motionType, false))
    decreases q.tier
  {
    if q.tier > t {
      assert q == Query(q.emotion, q.tier, q.motionType, false);
      OneTierDown(topo, cat, q, rnd);
      SameEmotionFirst(topo, cat, Query(q.emotion, q.tier - 1, q.motionType, false), t, rnd);
    } else {
      assert q == Query(q.emotion, t, q.motionType, false);
    }
  }

  /** When no tier of the emotion, at or below the requested one, has a match, the search
      ends up at the tier-1 search, and so at a fallback entry found on the walk toward
      `neutral`. */
  lemma {:induction false} DropsToTierOne(topo: Topology, cat: EmotionCatalog, q: Query, rnd: real)
    requires WellFormed(topo, cat) && 0.0 <= rnd < 1.0 && !q.isFallback
    requires forall u: Tier :: u <= q.tier ==> Candidates(cat, Query(q.emotion, u, q.motionType, false)) == []
    ensures ClosestViable(topo, cat, q, rnd) == ClosestViable(topo, cat, Query(q.emotion, 1, q.motionType, false), rnd)
    ensures ClosestViable(topo, cat, q, rnd).useAsFallback
    decreases q.tier
  {
    if q.tier > 1 {
      assert q == Query(q.emotion, q.tier, q.motionType, false);
      OneTierDown(topo, cat, q, rnd);
      DropsToTierOne(topo, cat, Query(q.emotion, q.tier - 1, q.motionType, false), rnd);
    } else {
      assert Candidates(cat, Query(q.emotion, 1, q.motionType, false)) == [];
    }
  }

  /** So in a consistent catalog the emotion never changes while a weaker tier of the
      same emotion has a match. */
  lemma {:induction false} SameEmotionKept(topo: Topology, cat: EmotionCatalog, q: Query, t: Tier, rnd: real)
    requires WellFormed(topo, cat) && Consistent(cat) && 0.0 <= rnd < 1.0
    requires !q.isFallback && t <= q.tier
    requires Candidates(cat, Query(q.emotion, t, q.motionType, false)) != []
    requires forall u: Tier :: t < u <= q.tier ==> Candidates(cat, Query(q.emotion, u, q.motionType, false)) == []
    ensures Label(ClosestViable(topo, cat, q, rnd).meta.emotion) == q.emotion
    ensures ClosestViable(topo, cat, q, rnd).meta.intensity == t
  {
    SameEmotionFirst(topo, cat, q, t, rnd);
    var r := ClosestViable(topo, cat, q, rnd);
    BucketEntriesMatch(cat, q.emotion, t, r);
  }

  /** `r` is answered from step `i` of the walk `w`: that step's candidates hold `r`
      and every earlier step had none. The first step uses the caller's `isFallback`,
      every later step is a fallback step. */
  predicate AnsweredAt(cat: EmotionCatalog, w: seq<string>, motionType: MotionType, isFallback: bool, r: EmotionAnimation, i: nat) {
    && i < |w|
    && r in Candidates(cat, Query(w[i], 1, motionType, isFallback || i > 0))
    && forall j :: 0 <= j < i ==> Candidates(cat, Query(w[j], 1, motionType, isFallback || j > 0)) == []
  }

  lemma {:induction false} AnsweredLater(cat: EmotionCatalog, e: string, w': seq<string>, motionType: MotionType, isFallback: bool, r: EmotionAnimation, i': nat)
    requires Candidates(cat, Query(e, 1, motionType, isFallback)) == []
    requires AnsweredAt(cat, w', motionType, true, r, i')
    ensures AnsweredAt(cat, [e] + w', motionType, isFallback, r, i' + 1)
  {
    var w := [e] + w';
    assert w[i' + 1] == w'[i'];
    forall j | 0 <= j < i' + 1
      ensures Candidates(cat, Query(w[j], 1, motionType, isFallback || j > 0)) == []
    {
      if j > 0 {
        assert w[j] == w'[j - 1];
      }
    }
  }

  /** At tier 1 the search walks from the requested emotion toward `neutral` and answers
      from the first emotion on that walk with a match; every step after the first only
      accepts fallback entries. */
  lemma {:induction false} TierOneFollowsWalk(topo: Topology, cat: EmotionCatalog, q: Query, rnd: real)
    requires WellFormed(topo, cat) && 0.0 <= rnd < 1.0
    requires q.tier == 1
    ensures exists i :: AnsweredAt(cat, WalkToNeutral(topo, q.emotion), q.motionType, q.isFallback, ClosestViable(topo, cat, q, rnd), i)
    decreases Distance(topo, q.emotion)
  {
    var w := WalkToNeutral(topo, q.emotion);
    var r := ClosestViable(topo, cat, q, rnd);
    if Candidates(cat, q) != [] {
      assert AnsweredAt(cat, w, q.motionType, q.isFallback, r, 0);
    } else {
      NeutralNeverMisses(topo, cat, q.motionType, q.isFallback);
      NearestDecreases(topo, q.emotion);
      var next := Query(NearestEmotion(topo, q.emotion), 1, q.motionType, true);
      assert r == ClosestViable(topo, cat, next, rnd);
      TierOneFollowsWalk(topo, cat, next, rnd);
      var w' := WalkToNeutral(topo, next.emotion);
      assert w == [q.emotion] + w';
      var i' :| AnsweredAt(cat, w', q.motionType, true, r, i');
      AnsweredLater(cat, q.emotion, w', q.motionType, q.isFallback, r, i');
    }
  }
}
