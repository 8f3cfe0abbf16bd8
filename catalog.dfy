/**
 * The shapes of the two static animation tables the core reads: the emotion
 * catalog (`emotionAnimations`: emotion -> tier -> list of entries) and the
 * interaction table (`interactionAnimations`), and the exact bucket lookup
 * `_getExactViableEmotionAnimations`.
 */
module Catalog {
  import opened Wrappers
  import opened AnimationMetadata
  import opened Intensity

  /** Whether an emotion animation is a one-off gesture or a sustained loop. */
  datatype MotionType = Gesture | Loop

  /** An entry of the emotion catalog: the shared metadata plus the motion type and
      whether the resolver may use it as a substitute for another emotion. */
  datatype EmotionAnimation = EmotionAnimation(
    meta: AnimationMetadata,
    motionType: MotionType,
    useAsFallback: bool)

  /** The emotion catalog: groups in the object's key order; each group maps the
      tiers it defines to that bucket's entries. */
  type EmotionCatalog = seq<(string, map<Tier, seq<EmotionAnimation>>)>

  /** An entry of the interaction table, exactly the four fields it declares
      (there is no `name`, `metaType`, `emotion` or `intensity`). */
  datatype InteractionAnimation = InteractionAnimation(
    key: string,
    url: string,
    motion: string,
    format: AssetFormat)

  /** `emotionAnimations[emotion]`: the first group under that name. */
  function Group(cat: EmotionCatalog, emotion: string): (g: Option<map<Tier, seq<EmotionAnimation>>>)
    ensures g.Some? <==> exists i :: 0 <= i < |cat| && cat[i].0 == emotion
    ensures g.Some? ==> exists i :: 0 <= i < |cat| && cat[i].0 == emotion && cat[i].1 == g.value
    ensures forall i :: 0 <= i < |cat| && cat[i].0 == emotion && (forall j :: 0 <= j < i ==> cat[j].0 != emotion) ==>
      g == Some(cat[i].1)
  {
    if |cat| == 0 then None
    else if cat[0].0 == emotion then Some(cat[0].1)
    else
      var rest := Group(cat[1..], emotion);
      assert rest.Some? ==> exists i :: 0 <= i < |cat| && cat[i].0 == emotion && cat[i].1 == rest.value by {
        if rest.Some? {
          var i :| 0 <= i < |cat[1..]| && cat[1..][i].0 == emotion && cat[1..][i].1 == rest.value;
          assert cat[i + 1] == cat[1..][i];
        }
      }
      assert (exists i :: 0 <= i < |cat| && cat[i].0 == emotion) ==> rest.Some? by {
        if exists i :: 0 <= i < |cat| && cat[i].0 == emotion {
          var i :| 0 <= i < |cat| && cat[i].0 == emotion;
          assert i > 0 && cat[1..][i - 1] == cat[i];
        }
      }
      rest
  }

  /** `_getExactViableEmotionAnimations`: the bucket of `emotion` at the tier the raw
      intensity normalises to, or nothing when either key is missing. */
  function ExactViable(cat: EmotionCatalog, emotion: string, intensity: real): (b: Option<seq<EmotionAnimation>>)
    ensures b.Some? <==> Group(cat, emotion).Some? && Normalize(intensity) in Group(cat, emotion).value
    ensures b.Some? ==> b.value == Group(cat, emotion).value[Normalize(intensity)]
  {
    match Group(cat, emotion)
    case None => None
    case Some(byTier) =>
      var tier := Normalize(intensity);
      if tier in byTier then Some(byTier[tier]) else None
  }

  /** Every entry sits in the bucket of its own emotion and tier, and is tagged `motion`. */
  predicate Consistent(cat: EmotionCatalog) {
    forall i :: 0 <= i < |cat| ==>
      forall t :: t in cat[i].1 ==>
        forall a :: a in cat[i].1[t] ==>
          Label(a.meta.emotion) == cat[i].0 && a.meta.intensity == t && a.meta.metaType == Motion
  }

  /** Asking with a tier itself (the resolver does) reads exactly that tier's bucket. */
  lemma {:induction false} ExactViableAtTier(cat: EmotionCatalog, emotion: string, t: Tier)
    ensures ExactViable(cat, emotion, t as real).Some? <==> Group(cat, emotion).Some? && t in Group(cat, emotion).value
    ensures ExactViable(cat, emotion, t as real).Some? ==> ExactViable(cat, emotion, t as real).value == Group(cat, emotion).value[t]
  {
    NormalizeFixesTiers(t);
  }

  /** In a consistent catalog every entry of a bucket carries that bucket's emotion and tier. */
  lemma {:induction false} BucketEntriesMatch(cat: EmotionCatalog, emotion: string, t: Tier, a: EmotionAnimation)
    requires Consistent(cat)
    requires ExactViable(cat, emotion, t as real).Some?
    requires a in ExactViable(cat, emotion, t as real).value
    ensures Label(a.meta.emotion) == emotion && a.meta.intensity == t && a.meta.metaType == Motion
  {
    ExactViableAtTier(cat, emotion, t);
    var i :| 0 <= i < |cat| && cat[i].0 == emotion && cat[i].1 == Group(cat, emotion).value;
    assert t in cat[i].1 && a in cat[i].1[t];
  }
}
