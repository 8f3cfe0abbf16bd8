/**
 * The catalog record type shared by the resolver and the chain manager:
 * the `AnimationMetadataType` record and the `VialbeEmotionType` union.
 */
module AnimationMetadata {
  import opened Wrappers

  /** An intensity tier; the declared type of `intensity` is the literal union 1 | 2 | 3. */
  type Tier = t: int | 1 <= t <= 3 witness 1

  /** The `metaType` tag of a catalog entry. */
  datatype MetaType = Motion | Interaction

  /** The string the tag carries at run time, which `_onExpressionUpdate` compares against. */
  function Tag(m: MetaType): string {
    match m
    case Motion => "motion"
    case Interaction => "interaction"
  }

  /** The asset format `type` of an entry. */
  datatype AssetFormat = Bvh | Fbx | Vrma

  /** The 28 emotion labels an entry may carry, in their declared order. */
  datatype ViableEmotion =
    | Love | Joy | Gratitude | Caring | Excitement | Admiration | Optimism
    | Pride | Amusement | Relief | Approval | Desire | Curiosity | Surprise
    | Realization | Neutral | Confusion | Embarrassment | Nervousness
    | Annoyance | Disapproval | Remorse | Fear | Disappointment | Sadness
    | Anger | Grief | Disgust

  function Label(e: ViableEmotion): string {
    match e
    case Love => "love"
    case Joy => "joy"
    case Gratitude => "gratitude"
    case Caring => "caring"
    case Excitement => "excitement"
    case Admiration => "admiration"
    case Optimism => "optimism"
    case Pride => "pride"
    case Amusement => "amusement"
    case Relief => "relief"
    case Approval => "approval"
    case Desire => "desire"
    case Curiosity => "curiosity"
    case Surprise => "surprise"
    case Realization => "realization"
    case Neutral => "neutral"
    case Confusion => "confusion"
    case Embarrassment => "embarrassment"
    case Nervousness => "nervousness"
    case Annoyance => "annoyance"
    case Disapproval => "disapproval"
    case Remorse => "remorse"
    case Fear => "fear"
    case Disappointment => "disappointment"
    case Sadness => "sadness"
    case Anger => "anger"
    case Grief => "grief"
    case Disgust => "disgust"
  }

  const AllEmotions: seq<ViableEmotion> :=
    [Love, Joy, Gratitude, Caring, Excitement, Admiration, Optimism,
     Pride, Amusement, Relief, Approval, Desire, Curiosity, Surprise,
     Realization, Neutral, Confusion, Embarrassment, Nervousness,
     Annoyance, Disapproval, Remorse, Fear, Disappointment, Sadness,
     Anger, Grief, Disgust]

  /** A catalog entry: separate `key` and `name` strings, a tier, a locator and a format. */
  datatype AnimationMetadata = AnimationMetadata(
    metaType: MetaType,
    emotion: ViableEmotion,
    key: string,
    name: string,
    intensity: Tier,
    url: string,
    motion: string,
    format: AssetFormat)

  /** The two tags are the two distinct strings `_onExpressionUpdate` branches on. */
  lemma TagsDistinct(a: MetaType, b: MetaType)
    ensures Tag(a) == Tag(b) <==> a == b
  {
  }

  /** The emotions whose label starts with letter `c`. */
  function WithInitial(c: char): seq<ViableEmotion> {
    if c == 'l' then [Love]
    else if c == 'j' then [Joy]
    else if c == 'g' then [Gratitude, Grief]
    else if c == 'c' then [Caring, Curiosity, Confusion]
    else if c == 'e' then [Excitement, Embarrassment]
    else if c == 'a' then [Admiration, Amusement, Approval, Annoyance, Anger]
    else if c == 'o' then [Optimism]
    else if c == 'p' then [Pride]
    else if c == 'r' then [Relief, Realization, Remorse]
    else if c == 'd' then [Desire, Disapproval, Disappointment, Disgust]
    else if c == 's' then [Surprise, Sadness]
    else if c == 'n' then [Neutral, Nervousness]
    else if c == 'f' then [Fear]
    else []
  }

  /** The first of `cands` labelled `s`, if any. */
  function Among(s: string, cands: seq<ViableEmotion>): (r: Option<ViableEmotion>)
    ensures r.Some? ==> Label(r.value) == s && r.value in cands
  {
    if |cands| == 0 then None
    else if Label(cands[0]) == s then Some(cands[0])
    else Among(s, cands[1..])
  }

  /** The emotion a label string names, if any: the inverse of `Label`. */
  function EmotionOf(s: string): (r: Option<ViableEmotion>)
    ensures r.Some? ==> Label(r.value) == s
  {
    if |s| == 0 then None else Among(s, WithInitial(s[0]))
  }

  /** `Among` finds the entry at `k` when no earlier entry carries the same label. */
  lemma {:induction false} AmongFinds(s: string, cands: seq<ViableEmotion>, k: nat)
    requires k < |cands| && Label(cands[k]) == s
    requires forall j :: 0 <= j < k ==> Label(cands[j]) != s
    ensures Among(s, cands) == Some(cands[k])
    decreases k
  {
    if k > 0 {
      assert Label(cands[0]) != s;
      AmongFinds(s, cands[1..], k - 1);
    }
  }

  /** Every label reads back as its own emotion, so no two emotions share a label.
      The proof is split into seven ranges of the declared order. */
  lemma {:induction false} LabelRoundTrip(e: ViableEmotion)
    ensures EmotionOf(Label(e)) == Some(e)
  {
    if Ordinal(e) < 4 {
      LabelRoundTripPart1(e);
    } else if Ordinal(e) < 8 {
      LabelRoundTripPart2(e);
    } else if Ordinal(e) < 12 {
      LabelRoundTripPart3(e);
    } else if Ordinal(e) < 16 {
      LabelRoundTripPart4(e);
    } else if Ordinal(e) < 20 {
      LabelRoundTripPart5(e);
    } else if Ordinal(e) < 24 {
      LabelRoundTripPart6(e);
    } else {
      LabelRoundTripPart7(e);
    }
  }

  lemma {:induction false} LabelRoundTripPart1(e: ViableEmotion)
    requires 0 <= Ordinal(e) < 4
    ensures EmotionOf(Label(e)) == Some(e)
  {
    match e
    case Love =>
      AmongFinds("love", WithInitial('l'), 0);
    case Joy =>
      AmongFinds("joy", WithInitial('j'), 0);
    case Gratitude =>
      AmongFinds("gratitude", WithInitial('g'), 0);
    case Caring =>
      AmongFinds("caring", WithInitial('c'), 0);
  }

  lemma {:induction false} LabelRoundTripPart2(e: ViableEmotion)
    requires 4 <= Ordinal(e) < 8
    ensures EmotionOf(Label(e)) == Some(e)
  {
    match e
    case Excitement =>
      AmongFinds("excitement", WithInitial('e'), 0);
    case Admiration =>
      AmongFinds("admiration", WithInitial('a'), 0);
    case Optimism =>
      AmongFinds("optimism", WithInitial('o'), 0);
    case Pride =>
      AmongFinds("pride", WithInitial('p'), 0);
  }

  lemma {:induction false} LabelRoundTripPart3(e: ViableEmotion)
    requires 8 <= Ordinal(e) < 12
    ensures EmotionOf(Label(e)) == Some(e)
  {
    match e
    case Amusement =>
      assert "admiration"[1] != "amusement"[1]; AmongFinds("amusement", WithInitial('a'), 1);
    case Relief =>
      AmongFinds("relief", WithInitial('r'), 0);
    case Approval =>
      assert "admiration"[1] != "approval"[1]; assert "amusement"[1] != "approval"[1]; AmongFinds("approval", WithInitial('a'), 2);
    case Desire =>
      AmongFinds("desire", WithInitial('d'), 0);
  }

  lemma {:induction false} LabelRoundTripPart4(e: ViableEmotion)
    requires 12 <= Ordinal(e) < 16
    ensures EmotionOf(Label(e)) == Some(e)
  {
    match e
    case Curiosity =>
      assert "caring"[1] != "curiosity"[1]; AmongFinds("curiosity", WithInitial('c'), 1);
    case Surprise =>
      AmongFinds("surprise", WithInitial('s'), 0);
    case Realization =>
      assert "relief"[2] != "realization"[2]; AmongFinds("realization", WithInitial('r'), 1);
    case Neutral =>
      AmongFinds("neutral", WithInitial('n'), 0);
  }

  lemma {:induction false} LabelRoundTripPart5(e: ViableEmotion)
    requires 16 <= Ordinal(e) < 20
    ensures EmotionOf(Label(e)) == Some(e)
  {
    match e
    case Confusion =>
      assert "caring"[1] != "confusion"[1]; assert "curiosity"[1] != "confusion"[1]; AmongFinds("confusion", WithInitial('c'), 2);
    case Embarrassment =>
      assert "excitement"[1] != "embarrassment"[1]; AmongFinds("embarrassment", WithInitial('e'), 1);
    case Nervousness =>
      assert "neutral"[2] != "nervousness"[2]; AmongFinds("nervousness", WithInitial('n'), 1);
    case Annoyance =>
      assert "admiration"[1] != "annoyance"[1]; assert "amusement"[1] != "annoyance"[1]; assert "approval"[1] != "annoyance"[1]; AmongFinds("annoyance", WithInitial('a'), 3);
  }

  lemma {:induction false} LabelRoundTripPart6(e: ViableEmotion)
    requires 20 <= Ordinal(e) < 24
    ensures EmotionOf(Label(e)) == Some(e)
  {
    match e
    case Disapproval =>
      assert "desire"[1] != "disapproval"[1]; AmongFinds("disapproval", WithInitial('d'), 1);
    case Remorse =>
      assert "relief"[2] != "remorse"[2]; assert "realization"[2] != "remorse"[2]; AmongFinds("remorse", WithInitial('r'), 2);
    case Fear =>
      AmongFinds("fear", WithInitial('f'), 0);
    case Disappointment =>
      assert "desire"[1] != "disappointment"[1]; assert "disapproval"[6] != "disappointment"[6]; AmongFinds("disappointment", WithInitial('d'), 2);
  }

  lemma {:induction false} LabelRoundTripPart7(e: ViableEmotion)
    requires 24 <= Ordinal(e) < 28
    ensures EmotionOf(Label(e)) == Some(e)
  {
    match e
    case Sadness =>
      assert "surprise"[1] != "sadness"[1]; AmongFinds("sadness", WithInitial('s'), 1);
    case Anger =>
      assert "admiration"[1] != "anger"[1]; assert "amusement"[1] != "anger"[1]; assert "approval"[1] != "anger"[1]; assert "annoyance"[2] != "anger"[2]; AmongFinds("anger", WithInitial('a'), 4);
    case Grief =>
      assert "gratitude"[2] != "grief"[2]; AmongFinds("grief", WithInitial('g'), 1);
    case Disgust =>
      assert "desire"[1] != "disgust"[1]; assert "disapproval"[3] != "disgust"[3]; assert "disappointment"[3] != "disgust"[3]; AmongFinds("disgust", WithInitial('d'), 3);
  }

  /** The position of an emotion in the declared order. */
  function Ordinal(e: ViableEmotion): nat {
    match e
    case Love => 0
    case Joy => 1
    case Gratitude => 2
    case Caring => 3
    case Excitement => 4
    case Admiration => 5
    case Optimism => 6
    case Pride => 7
    case Amusement => 8
    case Relief => 9
    case Approval => 10
    case Desire => 11
    case Curiosity => 12
    case Surprise => 13
    case Realization => 14
    case Neutral => 15
    case Confusion => 16
    case Embarrassment => 17
    case Nervousness => 18
    case Annoyance => 19
    case Disapproval => 20
    case Remorse => 21
    case Fear => 22
    case Disappointment => 23
    case Sadness => 24
    case Anger => 25
    case Grief => 26
    case Disgust => 27
  }

  /** The list holds the emotions in their declared order. */
  lemma {:induction false} ListedInOrder(i: nat)
    requires i < |AllEmotions|
    ensures Ordinal(AllEmotions[i]) == i
  {
    if i < 14 {
      ListedInOrderLow(i);
    } else {
      ListedInOrderHigh(i);
    }
  }

  lemma {:induction false} ListedInOrderLow(i: nat)
    requires 0 <= i < 14
    ensures Ordinal(AllEmotions[i]) == i
  {
    if i == 0 { assert AllEmotions[0] == Love; }
    else if i == 1 { assert AllEmotions[1] == Joy; }
    else if i == 2 { assert AllEmotions[2] == Gratitude; }
    else if i == 3 { assert AllEmotions[3] == Caring; }
    else if i == 4 { assert AllEmotions[4] == Excitement; }
    else if i == 5 { assert AllEmotions[5] == Admiration; }
    else if i == 6 { assert AllEmotions[6] == Optimism; }
    else if i == 7 { assert AllEmotions[7] == Pride; }
    else if i == 8 { assert AllEmotions[8] == Amusement; }
    else if i == 9 { assert AllEmotions[9] == Relief; }
    else if i == 10 { assert AllEmotions[10] == Approval; }
    else if i == 11 { assert AllEmotions[11] == Desire; }
    else if i == 12 { assert AllEmotions[12] == Curiosity; }
    else if i == 13 { assert AllEmotions[13] == Surprise; }
  }

  lemma {:induction false} ListedInOrderHigh(i: nat)
    requires 14 <= i < 28
    ensures Ordinal(AllEmotions[i]) == i
  {
    if i == 14 { assert AllEmotions[14] == Realization; }
    else if i == 15 { assert AllEmotions[15] == Neutral; }
    else if i == 16 { assert AllEmotions[16] == Confusion; }
    else if i == 17 { assert AllEmotions[17] == Embarrassment; }
    else if i == 18 { assert AllEmotions[18] == Nervousness; }
    else if i == 19 { assert AllEmotions[19] == Annoyance; }
    else if i == 20 { assert AllEmotions[20] == Disapproval; }
    else if i == 21 { assert AllEmotions[21] == Remorse; }
    else if i == 22 { assert AllEmotions[22] == Fear; }
    else if i == 23 { assert AllEmotions[23] == Disappointment; }
    else if i == 24 { assert AllEmotions[24] == Sadness; }
    else if i == 25 { assert AllEmotions[25] == Anger; }
    else if i == 26 { assert AllEmotions[26] == Grief; }
    else if i == 27 { assert AllEmotions[27] == Disgust; }
  }

  /** Every emotion is listed. */
  lemma {:induction false} EveryEmotionListed(e: ViableEmotion)
    ensures e in AllEmotions
  {
    match e
    case Love => assert AllEmotions[0] == e;
    case Joy => assert AllEmotions[1] == e;
    case Gratitude => assert AllEmotions[2] == e;
    case Caring => assert AllEmotions[3] == e;
    case Excitement => assert AllEmotions[4] == e;
    case Admiration => assert AllEmotions[5] == e;
    case Optimism => assert AllEmotions[6] == e;
    case Pride => assert AllEmotions[7] == e;
    case Amusement => assert AllEmotions[8] == e;
    case Relief => assert AllEmotions[9] == e;
    case Approval => assert AllEmotions[10] == e;
    case Desire => assert AllEmotions[11] == e;
    case Curiosity => assert AllEmotions[12] == e;
    case Surprise => assert AllEmotions[13] == e;
    case Realization => assert AllEmotions[14] == e;
    case Neutral => assert AllEmotions[15] == e;
    case Confusion => assert AllEmotions[16] == e;
    case Embarrassment => assert AllEmotions[17] == e;
    case Nervousness => assert AllEmotions[18] == e;
    case Annoyance => assert AllEmotions[19] == e;
    case Disapproval => assert AllEmotions[20] == e;
    case Remorse => assert AllEmotions[21] == e;
    case Fear => assert AllEmotions[22] == e;
    case Disappointment => assert AllEmotions[23] == e;
    case Sadness => assert AllEmotions[24] == e;
    case Anger => assert AllEmotions[25] == e;
    case Grief => assert AllEmotions[26] == e;
    case Disgust => assert AllEmotions[27] == e;
  }

  /** The listed labels are pairwise distinct. */
  lemma {:induction false} ListedLabelsDistinct(i: nat, j: nat)
    requires i < j < |AllEmotions|
    ensures Label(AllEmotions[i]) != Label(AllEmotions[j])
  {
    ListedInOrder(i);
    ListedInOrder(j);
    LabelRoundTrip(AllEmotions[i]);
    LabelRoundTrip(AllEmotions[j]);
  }

  /** The union has exactly 28 labels, one per emotion, pairwise distinct, with
      `neutral` among them. */
  lemma {:induction false} NeutralIsViable()
    ensures |AllEmotions| == 28
    ensures forall e: ViableEmotion :: e in AllEmotions
    ensures forall i, j :: 0 <= i < j < |AllEmotions| ==> Label(AllEmotions[i]) != Label(AllEmotions[j])
    ensures Neutral in AllEmotions && Label(Neutral) == "neutral"
  {
    forall e: ViableEmotion
      ensures e in AllEmotions
    {
      EveryEmotionListed(e);
    }
    forall i, j | 0 <= i < j < |AllEmotions|
      ensures Label(AllEmotions[i]) != Label(AllEmotions[j])
    {
      ListedLabelsDistinct(i, j);
    }
  }
}
