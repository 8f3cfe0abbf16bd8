/**
 * The emotion table (`emotions`: name -> sentiment, in declaration order) and
 * `_getNearestEmotion`, which steps from an emotion one place toward `neutral`.
 */
module EmotionTopology {
  import opened Wrappers

  /** The table's entries as (name, sentiment) pairs, in the object's key order. */
  type Topology = seq<(string, real)>

  const NeutralName: string := "neutral"

  /** Index of the entry named `name` (the first one, should names repeat). */
  function Position(topo: Topology, name: string): (p: Option<nat>)
    ensures p.Some? ==> p.value < |topo| && topo[p.value].0 == name
    ensures p.Some? ==> forall j :: 0 <= j < p.value ==> topo[j].0 != name
    ensures p.None? ==> forall j :: 0 <= j < |topo| ==> topo[j].0 != name
  {
    if |topo| == 0 then None
    else if topo[0].0 == name then Some(0)
    else match Position(topo[1..], name)
      case None => None
      case Some(i) => Some(i + 1)
  }

  /** `emotions[name]?.sentiment`. */
  function Sentiment(topo: Topology, name: string): (r: Option<real>)
    ensures r.None? <==> forall j :: 0 <= j < |topo| ==> topo[j].0 != name
    ensures r.Some? ==> Position(topo, name).Some? && r.value == topo[Position(topo, name).value].1
  {
    match Position(topo, name)
    case None => None
    case Some(p) => Some(topo[p].1)
  }

  predicate HasNeutral(topo: Topology) {
    Position(topo, NeutralName).Some?
  }

  /** `Object.entries(emotions).find(([_, e]) => e.sentiment < s)`: the first name, in
      table order, whose sentiment is below `s`. */
  function FirstBelow(topo: Topology, s: real): (r: Option<nat>)
    ensures r.Some? ==> r.value < |topo| && topo[r.value].1 < s
    ensures r.Some? ==> forall j :: 0 <= j < r.value ==> topo[j].1 >= s
    ensures r.None? ==> forall j :: 0 <= j < |topo| ==> topo[j].1 >= s
  {
    if |topo| == 0 then None
    else if topo[0].1 < s then Some(0)
    else match FirstBelow(topo[1..], s)
      case None => None
      case Some(i) => Some(i + 1)
  }

  /** `Object.entries(emotions).reverse().find(([_, e]) => e.sentiment > s)`: the last
      name, in table order, whose sentiment is above `s`. */
  function LastAbove(topo: Topology, s: real): (r: Option<nat>)
    ensures r.Some? ==> r.value < |topo| && topo[r.value].1 > s
    ensures r.Some? ==> forall j :: r.value < j < |topo| ==> topo[j].1 <= s
    ensures r.None? ==> forall j :: 0 <= j < |topo| ==> topo[j].1 <= s
  {
    if |topo| == 0 then None
    else if topo[|topo| - 1].1 > s then Some(|topo| - 1)
    else LastAbove(topo[..|topo| - 1], s)
  }

  /** `_getNearestEmotion`. An emotion missing from the table, or whose sentiment is 0
      (falsy), goes straight to `neutral`. Below neutral the reversed scan looks for a
      higher sentiment, at or above neutral the forward scan looks for a lower one; when
      the scan finds nothing the answer is `neutral`. */
  function NearestEmotion(topo: Topology, emotion: string): (r: string)
    requires HasNeutral(topo)
    ensures Sentiment(topo, emotion).None? || Sentiment(topo, emotion) == Some(0.0) ==> r == NeutralName
    ensures r == NeutralName || Sentiment(topo, r).Some?
    ensures r != NeutralName ==>
      var s := Sentiment(topo, emotion).value;
      var n := Sentiment(topo, NeutralName).value;
      exists j :: 0 <= j < |topo| && topo[j].0 == r &&
        (s < n ==> topo[j].1 > s) && (s >= n ==> topo[j].1 < s)
  {
    match Sentiment(topo, emotion)
    case None => NeutralName
    case Some(s) =>
      if s == 0.0 then NeutralName
      else
        var n := Sentiment(topo, NeutralName).value;
        var found := if s < n then LastAbove(topo, s) else FirstBelow(topo, s);
        match found
        case None => NeutralName
        case Some(j) => assert Position(topo, topo[j].0).Some?; topo[j].0
  }

  /** Names are distinct (they are the keys of an object). */
  predicate DistinctNames(topo: Topology) {
    forall i, j :: 0 <= i < j < |topo| ==> topo[i].0 != topo[j].0
  }

  /** Sentiments strictly decrease along the table, so the scans step toward neutral. */
  predicate Descending(topo: Topology) {
    forall i, j :: 0 <= i < j < |topo| ==> topo[i].1 > topo[j].1
  }

  predicate WellFormed(topo: Topology) {
    DistinctNames(topo) && Descending(topo) && HasNeutral(topo)
  }

  lemma PositionOfEntry(topo: Topology, i: nat)
    requires DistinctNames(topo) && i < |topo|
    ensures Position(topo, topo[i].0) == Some(i)
  {
  }

  /** How many steps an emotion is from `neutral`: its distance in the table, or 1 for
      a name the table does not know. */
  function Distance(topo: Topology, emotion: string): nat
    requires HasNeutral(topo)
  {
    var k := Position(topo, NeutralName).value;
    match Position(topo, emotion)
    case None => 1
    case Some(p) => if p >= k then p - k else k - p
  }

  /** In a well-formed table the reversed scan from below neutral stops at the entry just above. */
  lemma {:induction false} LastAboveIsPrevious(topo: Topology, p: nat)
    requires Descending(topo) && 0 < p < |topo|
    ensures LastAbove(topo, topo[p].1) == Some(p - 1)
  {
    var r := LastAbove(topo, topo[p].1);
    assert topo[p - 1].1 > topo[p].1;
    assert r.Some?;
  }

  /** In a well-formed table the forward scan from above neutral stops at the entry just below. */
  lemma {:induction false} FirstBelowIsNext(topo: Topology, p: nat)
    requires Descending(topo) && p + 1 < |topo|
    ensures FirstBelow(topo, topo[p].1) == Some(p + 1)
  {
    var r := FirstBelow(topo, topo[p].1);
    assert topo[p + 1].1 < topo[p].1;
    assert r.Some?;
  }

  /** Below neutral, the nearest emotion is the entry just above in the table. */
  lemma {:induction false} NearestFromBelow(topo: Topology, p: nat)
    requires WellFormed(topo) && p < |topo| && topo[p].1 != 0.0
    requires p > Position(topo, NeutralName).value
    ensures NearestEmotion(topo, topo[p].0) == topo[p - 1].0
  {
    var k := Position(topo, NeutralName).value;
    PositionOfEntry(topo, p);
    assert Sentiment(topo, topo[p].0) == Some(topo[p].1);
    assert Sentiment(topo, NeutralName) == Some(topo[k].1);
    assert topo[p].1 < topo[k].1;
    LastAboveIsPrevious(topo, p);
    assert LastAbove(topo, topo[p].1) == Some(p - 1);
  }

  /** Above neutral, the nearest emotion is the entry just below in the table. */
  lemma {:induction false} NearestFromAbove(topo: Topology, p: nat)
    requires WellFormed(topo) && p < |topo| && topo[p].1 != 0.0
    requires p < Position(topo, NeutralName).value
    ensures NearestEmotion(topo, topo[p].0) == topo[p + 1].0
  {
    var k := Position(topo, NeutralName).value;
    PositionOfEntry(topo, p);
    assert Sentiment(topo, topo[p].0) == Some(topo[p].1);
    assert Sentiment(topo, NeutralName) == Some(topo[k].1);
    assert topo[p].1 > topo[k].1;
    FirstBelowIsNext(topo, p);
    assert FirstBelow(topo, topo[p].1) == Some(p + 1);
  }

  /** Every step from an emotion other than `neutral` brings it strictly closer. */
  lemma {:induction false} NearestDecreases(topo: Topology, emotion: string)
    requires WellFormed(topo) && emotion != NeutralName
    ensures Distance(topo, NearestEmotion(topo, emotion)) < Distance(topo, emotion)
  {
    var k := Position(topo, NeutralName).value;
    match Position(topo, emotion)
    case None =>
    case Some(p) =>
      if topo[p].1 != 0.0 {
        if p > k {
          NearestFromBelow(topo, p);
          PositionOfEntry(topo, p - 1);
        } else {
          NearestFromAbove(topo, p);
          PositionOfEntry(topo, p + 1);
        }
      }
  }

  /** The walk that repeatedly applies `NearestEmotion` until it reaches `neutral`. */
  function WalkToNeutral(topo: Topology, emotion: string): (w: seq<string>)
    requires WellFormed(topo)
    ensures 0 < |w| <= Distance(topo, emotion) + 1
    ensures w[0] == emotion && w[|w| - 1] == NeutralName
    ensures forall i :: 0 <= i < |w| - 1 ==> w[i] != NeutralName && w[i + 1] == NearestEmotion(topo, w[i])
    decreases Distance(topo, emotion)
  {
    if emotion == NeutralName then [emotion]
    else
      NearestDecreases(topo, emotion);
      [emotion] + WalkToNeutral(topo, NearestEmotion(topo, emotion))
  }
}
