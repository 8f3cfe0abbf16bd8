/**
 * `ChainManager`: the name index over every known animation, `prepareChain`
 * (look up and load each item of a chain, filling in defaults),
 * `playPreparedChain` (group consecutive items of the same character into one
 * `express` call, forward its events, go on with the rest when the stream
 * completes) and `playChain`.
 *
 * A chain is a linked list in the source; here it is the sequence of its items
 * in `next` order.
 */
module Chains {
  import opened Wrappers
  import opened AnimationMetadata
  import opened Intensity
  import opened Catalog
  import opened Playback
  import opened CharacterManager

  /* ----- The name index ----- */

  /** `_animationsByName`, a `Map` keyed by `name`. Interaction entries have no `name`
      field, so every one of them is stored under the key `undefined`, kept here in a
      slot of its own; `warnings` counts the "Duplicate animation name" messages. */
  datatype NameIndex = NameIndex(
    undefinedSlot: Option<InteractionAnimation>,
    byName: map<string, EmotionAnimation>,
    warnings: nat)

  const EmptyIndex: NameIndex := NameIndex(None, map[], 0)

  /** One `set(interaction.name, interaction)`, warning when the key is taken. */
  function RegisterInteraction(idx: NameIndex, x: InteractionAnimation): (r: NameIndex)
    ensures r.undefinedSlot == Some(x) && r.byName == idx.byName
    ensures r.warnings == idx.warnings + (if idx.undefinedSlot.Some? then 1 else 0)
  {
    NameIndex(Some(x), idx.byName, if idx.undefinedSlot.Some? then idx.warnings + 1 else idx.warnings)
  }

  /** One `set(emotionAnimation.name, emotionAnimation)`, warning when the key is taken. */
  function RegisterEmotion(idx: NameIndex, a: EmotionAnimation): (r: NameIndex)
    ensures a.meta.name in r.byName && r.byName[a.meta.name] == a
    ensures forall n :: n != a.meta.name ==> (n in r.byName <==> n in idx.byName)
    ensures forall n :: n != a.meta.name && n in idx.byName ==> r.byName[n] == idx.byName[n]
    ensures r.undefinedSlot == idx.undefinedSlot
    ensures r.warnings == idx.warnings + (if a.meta.name in idx.byName then 1 else 0)
  {
    NameIndex(idx.undefinedSlot, idx.byName[a.meta.name := a],
              if a.meta.name in idx.byName then idx.warnings + 1 else idx.warnings)
  }

  function RegisterInteractions(idx: NameIndex, xs: seq<InteractionAnimation>): NameIndex {
    if |xs| == 0 then idx else RegisterInteraction(RegisterInteractions(idx, xs[..|xs| - 1]), xs[|xs| - 1])
  }

  function RegisterEmotions(idx: NameIndex, es: seq<EmotionAnimation>): NameIndex {
    if |es| == 0 then idx else RegisterEmotion(RegisterEmotions(idx, es[..|es| - 1]), es[|es| - 1])
  }

  /** The entries of one emotion group in `for ... in` order: the integer-like tier keys
      ascending, each bucket in list order, up to tier `upTo`. */
  function GroupEntries(group: map<Tier, seq<EmotionAnimation>>, upTo: nat): seq<EmotionAnimation>
    requires upTo <= 3
  {
    if upTo == 0 then []
    else GroupEntries(group, upTo - 1) + (if upTo as Tier in group then group[upTo as Tier] else [])
  }

  /** Every entry of the catalog in the order the constructor visits them. */
  function CatalogEntries(cat: EmotionCatalog): seq<EmotionAnimation> {
    if |cat| == 0 then [] else CatalogEntries(cat[..|cat| - 1]) + GroupEntries(cat[|cat| - 1].1, 3)
  }

  /** Every named entry is stored under its own `name`. */
  predicate KeyedByName(idx: NameIndex) {
    forall n :: n in idx.byName ==> idx.byName[n].meta.name == n
  }

  lemma {:induction false} RegisterEmotionsKeyed(idx: NameIndex, es: seq<EmotionAnimation>)
    requires KeyedByName(idx)
    ensures KeyedByName(RegisterEmotions(idx, es))
  {
    if |es| > 0 {
      RegisterEmotionsKeyed(idx, es[..|es| - 1]);
    }
  }

  /** The index the constructor builds: interactions first, then the catalog. */
  function BuildIndex(interactions: seq<InteractionAnimation>, cat: EmotionCatalog): (r: NameIndex)
    ensures KeyedByName(r)
  {
    var start := RegisterInteractions(EmptyIndex, interactions);
    InteractionsCollapse(EmptyIndex, interactions);
    RegisterEmotionsKeyed(start, CatalogEntries(cat));
    RegisterEmotions(start, CatalogEntries(cat))
  }

  lemma {:induction false} RegisterEmotionsSnoc(idx: NameIndex, es: seq<EmotionAnimation>, a: EmotionAnimation)
    ensures RegisterEmotions(idx, es + [a]) == RegisterEmotion(RegisterEmotions(idx, es), a)
  {
    assert (es + [a])[..|es|] == es;
  }

  lemma {:induction false} RegisterEmotionsAppend(idx: NameIndex, a: seq<EmotionAnimation>, b: seq<EmotionAnimation>)
    ensures RegisterEmotions(idx, a + b) == RegisterEmotions(RegisterEmotions(idx, a), b)
  {
    if |b| == 0 {
      assert a + b == a;
    } else {
      RegisterEmotionsAppend(idx, a, b[..|b| - 1]);
      assert (a + b)[..|a + b| - 1] == a + b[..|b| - 1];
    }
  }

  /** All interactions collapse onto the one `undefined` key: the last one is kept, every
      one after the first warns, and no named entry is touched. */
  lemma {:induction false} InteractionsCollapse(idx: NameIndex, xs: seq<InteractionAnimation>)
    ensures RegisterInteractions(idx, xs).byName == idx.byName
    ensures |xs| == 0 ==> RegisterInteractions(idx, xs) == idx
    ensures |xs| > 0 ==> RegisterInteractions(idx, xs).undefinedSlot == Some(xs[|xs| - 1])
    ensures RegisterInteractions(idx, xs).warnings ==
      idx.warnings + |xs| - (if idx.undefinedSlot.None? && |xs| > 0 then 1 else 0)
  {
    if |xs| > 0 {
      InteractionsCollapse(idx, xs[..|xs| - 1]);
    }
  }

  /** The position of the last entry carrying `name`, if any. */
  function LastNamed(es: seq<EmotionAnimation>, name: string): (k: Option<nat>)
    ensures k.None? <==> forall i :: 0 <= i < |es| ==> es[i].meta.name != name
    ensures k.Some? ==> k.value < |es| && es[k.value].meta.name == name &&
                        forall j :: k.value < j < |es| ==> es[j].meta.name != name
  {
    if |es| == 0 then None
    else if es[|es| - 1].meta.name == name then Some(|es| - 1)
    else
      var k := LastNamed(es[..|es| - 1], name);
      assert forall i :: 0 <= i < |es| - 1 ==> es[..|es| - 1][i] == es[i];
      k
  }

  /** Last writer wins: a name is indexed exactly when some entry carries it (or it was
      indexed before), and it maps to the last entry carrying it. */
  lemma {:induction false} LastWriterWins(idx: NameIndex, es: seq<EmotionAnimation>, name: string)
    ensures name in RegisterEmotions(idx, es).byName <==> name in idx.byName || LastNamed(es, name).Some?
    ensures LastNamed(es, name).Some? ==> RegisterEmotions(idx, es).byName[name] == es[LastNamed(es, name).value]
    ensures LastNamed(es, name).None? && name in idx.byName ==>
      RegisterEmotions(idx, es).byName[name] == idx.byName[name]
  {
    if |es| > 0 {
      LastWriterWins(idx, es[..|es| - 1], name);
    }
  }

  /** Registering catalog entries leaves the `undefined` slot alone. */
  lemma {:induction false} EmotionsKeepSlot(idx: NameIndex, es: seq<EmotionAnimation>)
    ensures RegisterEmotions(idx, es).undefinedSlot == idx.undefinedSlot
  {
    if |es| > 0 {
      EmotionsKeepSlot(idx, es[..|es| - 1]);
    }
  }

  /** Every registered entry either adds a new name or produces one warning. */
  lemma {:induction false} NamesPlusWarnings(idx: NameIndex, es: seq<EmotionAnimation>)
    ensures |RegisterEmotions(idx, es).byName.Keys| + RegisterEmotions(idx, es).warnings ==
      |idx.byName.Keys| + idx.warnings + |es|
  {
    if |es| > 0 {
      var before := RegisterEmotions(idx, es[..|es| - 1]);
      var a := es[|es| - 1];
      NamesPlusWarnings(idx, es[..|es| - 1]);
      if a.meta.name in before.byName {
        assert before.byName[a.meta.name := a].Keys == before.byName.Keys;
      } else {
        assert before.byName[a.meta.name := a].Keys == before.byName.Keys + {a.meta.name};
      }
    }
  }

  lemma {:induction false} GroupEntriesCover(group: map<Tier, seq<EmotionAnimation>>, upTo: nat, a: EmotionAnimation)
    requires upTo <= 3
    ensures a in GroupEntries(group, upTo) <==> exists t: Tier :: t <= upTo && t in group && a in group[t]
  {
    if upTo > 0 {
      GroupEntriesCover(group, upTo - 1, a);
      var t: Tier := upTo as Tier;
      if t in group && a in group[t] {
        assert a in GroupEntries(group, upTo);
      }
    }
  }

  /** The constructor visits exactly the entries of the catalog's buckets. */
  lemma {:induction false} CatalogEntriesCover(cat: EmotionCatalog, a: EmotionAnimation)
    ensures a in CatalogEntries(cat) <==>
      exists i, t: Tier :: 0 <= i < |cat| && t in cat[i].1 && a in cat[i].1[t]
  {
    if |cat| > 0 {
      var init := cat[..|cat| - 1];
      CatalogEntriesCover(init, a);
      GroupEntriesCover(cat[|cat| - 1].1, 3, a);
      if exists i, t: Tier :: 0 <= i < |cat| && t in cat[i].1 && a in cat[i].1[t] {
        var i, t: Tier :| 0 <= i < |cat| && t in cat[i].1 && a in cat[i].1[t];
        if i < |cat| - 1 {
          assert init[i] == cat[i];
        }
      }
      if exists i, t: Tier :: 0 <= i < |init| && t in init[i].1 && a in init[i].1[t] {
        var i, t: Tier :| 0 <= i < |init| && t in init[i].1 && a in init[i].1[t];
        assert cat[i] == init[i];
      }
    }
  }

  /** A name resolves exactly when some catalog entry carries it, and to an entry of the
      catalog; interactions are never reachable by name. */
  lemma {:induction false} IndexedNames(interactions: seq<InteractionAnimation>, cat: EmotionCatalog, name: string)
    ensures name in BuildIndex(interactions, cat).byName <==>
      exists a :: a in CatalogEntries(cat) && a.meta.name == name
    ensures name in BuildIndex(interactions, cat).byName ==>
      BuildIndex(interactions, cat).byName[name] in CatalogEntries(cat) &&
      BuildIndex(interactions, cat).byName[name].meta.name == name
    ensures BuildIndex(interactions, cat).undefinedSlot ==
      (if |interactions| == 0 then None else Some(interactions[|interactions| - 1]))
  {
    var start := RegisterInteractions(EmptyIndex, interactions);
    var es := CatalogEntries(cat);
    InteractionsCollapse(EmptyIndex, interactions);
    EmotionsKeepSlot(start, es);
    LastWriterWins(start, es, name);
    if exists a :: a in es && a.meta.name == name {
      var a :| a in es && a.meta.name == name;
      var i :| 0 <= i < |es| && es[i] == a;
    }
  }

  /* ----- Preparing a chain ----- */

  /** One item of a `Chain`; absent optional fields are `None`. */
  datatype ChainItem = ChainItem(
    motionAnimationName: string,
    manager: Option<Character>,
    emotion: Option<ViableEmotion>,
    duration: Option<real>,
    intensity: Option<real>,
    loop: Option<LoopType>)

  /** One item of a `PreparedChain`: the item itself (`...item`) plus the loaded motion,
      the face expression, and the manager and loop with their defaults filled in. */
  datatype PreparedNode = PreparedNode(
    item: ChainItem,
    motion: MotionHandle,
    face: FaceHandle,
    manager: Character,
    loop: LoopType)

  /** Reading `.type` of the `undefined` a failed lookup returns throws; the error names
      the item whose name was not found. */
  datatype PrepareError = UndefinedLookup(name: string)

  /** `Math.round`: the nearest integer, halves rounded up. */
  function RoundHalfUp(x: real): (r: int)
    ensures r as real - 0.5 <= x < r as real + 0.5
  {
    (x + 0.5).Floor
  }

  /** Preparing one item whose name resolved to `entry`. */
  function PrepareNode(entry: EmotionAnimation, owner: Character, loader: MotionLoader, item: ChainItem): (n: PreparedNode)
    ensures n.item == item && n.manager == item.manager.GetOr(owner) && n.loop == item.loop.GetOr(FastForward)
    ensures n.motion.format == entry.meta.format && n.motion.url == entry.meta.url
    ensures item.duration.Some? ==> n.motion.duration == item.duration
    ensures item.duration.None? ==> n.motion.duration == loader(entry.meta.format, entry.meta.url).duration
    ensures n.motion.clipSeconds == loader(entry.meta.format, entry.meta.url).clipSeconds && n.motion.metadata.None?
    ensures n.face.emotionLabel == Some(Label(item.emotion.GetOr(entry.meta.emotion)))
    ensures n.face.score == Some(item.intensity.GetOr(entry.meta.intensity as real * TierScale))
    ensures n.motion.duration.Some? ==> n.face.durationMs == n.motion.duration.value
    ensures n.motion.duration.None? ==> n.face.durationMs == RoundHalfUp(n.motion.clipSeconds * 1000.0) as real
  {
    var loaded := Materialize(loader, entry.meta.format, entry.meta.url);
    var motion := loaded.(duration := if item.duration.Some? then item.duration else loaded.duration);
    var emotion := if item.emotion.Some? then item.emotion.value else entry.meta.emotion;
    var score := if item.intensity.Some? then item.intensity.value else entry.meta.intensity as real * TierScale;
    var faceDuration := if motion.duration.Some? then motion.duration.value
                        else RoundHalfUp(motion.clipSeconds * 1000.0) as real;
    PreparedNode(item, motion, FaceHandle(Some(Label(emotion)), Some(score), faceDuration),
                 item.manager.GetOr(owner), item.loop.GetOr(FastForward))
  }

  /** Without an explicit intensity, the face score `tier * 0.332` normalises back to the
      entry's tier. */
  lemma {:induction false} DefaultScoreKeepsTier(entry: EmotionAnimation, owner: Character, loader: MotionLoader, item: ChainItem)
    requires item.intensity.None?
    ensures Normalize(PrepareNode(entry, owner, loader, item).face.score.value) == entry.meta.intensity
  {
    TierRoundTrip(entry.meta.intensity);
  }

  /** `e` names the first item of the chain whose name is not indexed. */
  predicate FirstUnknown(byName: map<string, EmotionAnimation>, chain: seq<ChainItem>, e: PrepareError) {
    exists k :: 0 <= k < |chain| && chain[k].motionAnimationName !in byName &&
      e == UndefinedLookup(chain[k].motionAnimationName) &&
      forall j :: 0 <= j < k ==> chain[j].motionAnimationName in byName
  }

  /** `prepareChain`: every item in order, or the error of the first item whose name is not
      indexed (nothing after it is prepared). */
  function PrepareChain(byName: map<string, EmotionAnimation>, owner: Character, loader: MotionLoader,
                        chain: seq<ChainItem>): (r: Result<seq<PreparedNode>, PrepareError>)
    ensures r.Ok? <==> forall i :: 0 <= i < |chain| ==> chain[i].motionAnimationName in byName
    ensures r.Ok? ==> (|r.value| == |chain| &&
      forall i :: 0 <= i < |chain| ==> r.value[i] == PrepareNode(byName[chain[i].motionAnimationName], owner, loader, chain[i]))
    ensures r.Err? ==> FirstUnknown(byName, chain, r.error)
  {
    if |chain| == 0 then Ok([])
    else if chain[0].motionAnimationName !in byName then Err(UndefinedLookup(chain[0].motionAnimationName))
    else
      var head := PrepareNode(byName[chain[0].motionAnimationName], owner, loader, chain[0]);
      match PrepareChain(byName, owner, loader, chain[1..])
      case Err(e) =>
        assert FirstUnknown(byName, chain, e) by {
          var k :| 0 <= k < |chain[1..]| && chain[1..][k].motionAnimationName !in byName &&
            e == UndefinedLookup(chain[1..][k].motionAnimationName) &&
            forall j :: 0 <= j < k ==> chain[1..][j].motionAnimationName in byName;
          assert chain[k + 1] == chain[1..][k];
          assert forall j :: 1 <= j < k + 1 ==> chain[j] == chain[1..][j - 1];
        }
        Err(e)
      case Ok(rest) =>
        assert forall i :: 1 <= i < |chain| ==> chain[i] == chain[1..][i - 1];
        Ok([head] + rest)
  }

  /* ----- Playing a prepared chain ----- */

  function MotionsOf(nodes: seq<PreparedNode>): (ms: seq<MotionHandle>)
    ensures |ms| == |nodes| && forall i :: 0 <= i < |nodes| ==> ms[i] == nodes[i].motion
  {
    seq(|nodes|, i requires 0 <= i < |nodes| => nodes[i].motion)
  }

  function FacesOf(nodes: seq<PreparedNode>): (fs: seq<FaceHandle>)
    ensures |fs| == |nodes| && forall i :: 0 <= i < |nodes| ==> fs[i] == nodes[i].face
  {
    seq(|nodes|, i requires 0 <= i < |nodes| => nodes[i].face)
  }

  /** The end of the run of items, from `from` on, whose manager has `uid`. */
  function RunEnd(chain: seq<PreparedNode>, uid: string, from: nat): (e: nat)
    requires from <= |chain|
    ensures from <= e <= |chain|
    ensures forall i :: from <= i < e ==> chain[i].manager.uid == uid
    ensures e < |chain| ==> chain[e].manager.uid != uid
    decreases |chain| - from
  {
    if from == |chain| || chain[from].manager.uid != uid then from else RunEnd(chain, uid, from + 1)
  }

  /** The length of the first batch: the head plus every following item whose manager has
      the head's uid, up to the first one that does not. */
  function BatchEnd(chain: seq<PreparedNode>): (e: nat)
    requires |chain| > 0
    ensures 1 <= e <= |chain|
    ensures forall i :: 0 <= i < e ==> chain[i].manager.uid == chain[0].manager.uid
    ensures e < |chain| ==> chain[e].manager.uid != chain[0].manager.uid
  {
    RunEnd(chain, chain[0].manager.uid, 1)
  }

  /** The batching loop of `playPreparedChain`: the motions and faces of the first batch,
      and the item the next `express` call starts from. */
  method CollectBatch(chain: seq<PreparedNode>) returns (motions: seq<MotionHandle>, faces: seq<FaceHandle>, rest: seq<PreparedNode>)
    requires |chain| > 0
    ensures motions == MotionsOf(chain[..BatchEnd(chain)])
    ensures faces == FacesOf(chain[..BatchEnd(chain)])
    ensures rest == chain[BatchEnd(chain)..]
  {
    motions := [chain[0].motion];
    faces := [chain[0].face];
    var nextManager := chain[0].manager;
    var i := 1;
    while i < |chain| && chain[i].manager.uid == nextManager.uid
      invariant 1 <= i <= |chain|
      invariant nextManager.uid == chain[0].manager.uid
      invariant forall j :: 0 <= j < i ==> chain[j].manager.uid == chain[0].manager.uid
      invariant motions == MotionsOf(chain[..i]) && faces == FacesOf(chain[..i])
    {
      motions := motions + [chain[i].motion];
      faces := faces + [chain[i].face];
      nextManager := chain[i].manager;
      i := i + 1;
    }
    rest := chain[i..];
  }

  /** The number of `express` calls a chain takes when every stream completes. */
  function Runs(chain: seq<PreparedNode>): (n: nat)
    ensures |chain| > 0 ==> 1 <= n <= |chain|
    decreases |chain|
  {
    if |chain| == 0 then 0 else 1 + Runs(chain[BatchEnd(chain)..])
  }

  /** The number of adjacent pairs of nodes whose managers differ in uid. */
  function UidChanges(chain: seq<PreparedNode>): nat {
    if |chain| < 2 then 0
    else (if chain[0].manager.uid != chain[1].manager.uid then 1 else 0) + UidChanges(chain[1..])
  }

  lemma {:induction false} SameUidPrefix(chain: seq<PreparedNode>, k: nat)
    requires k < |chain|
    requires forall i :: 0 <= i <= k ==> chain[i].manager.uid == chain[0].manager.uid
    ensures UidChanges(chain) == UidChanges(chain[k..])
  {
    if k > 0 {
      SameUidPrefix(chain[1..], k - 1);
      assert chain[1..][k - 1..] == chain[k..];
    }
  }

  /** The runs of a chain are its maximal same-uid stretches: one more than the number of
      places where the uid changes. */
  lemma {:induction false} RunsCountsChanges(chain: seq<PreparedNode>)
    requires |chain| > 0
    ensures Runs(chain) == 1 + UidChanges(chain)
    decreases |chain|
  {
    var e := BatchEnd(chain);
    SameUidPrefix(chain, e - 1);
    if e < |chain| {
      RunsCountsChanges(chain[e..]);
      assert chain[e - 1..][1..] == chain[e..];
    }
  }

  /** An event handed to `_onExpressionUpdate` of `target`. */
  datatype Delivery = Delivery(target: Character, event: ExpressionEvent)

  function DeliveriesTo(target: Character, es: seq<ExpressionEvent>): (ds: seq<Delivery>)
    ensures |ds| == |es| && forall i :: 0 <= i < |es| ==> ds[i] == Delivery(target, es[i])
  {
    seq(|es|, i requires 0 <= i < |es| => Delivery(target, es[i]))
  }

  /** The events delivered to one character, in order. */
  function EventsFor(ds: seq<Delivery>, c: Character): seq<ExpressionEvent> {
    if |ds| == 0 then []
    else EventsFor(ds[..|ds| - 1], c) + (if ds[|ds| - 1].target == c then [ds[|ds| - 1].event] else [])
  }

  /** The stream of the `k`-th `express` call; a call with no stream given sees nothing. */
  function StreamOf(streams: seq<seq<StreamEvent>>): seq<StreamEvent> {
    if |streams| > 0 then streams[0] else []
  }

  /** What playing a chain does, given the stream each `express` call returns in turn:
      the calls made and the events forwarded. Each batch goes to its head's manager; the
      next batch starts, with the default loop, only when this stream completes. */
  function Play(chain: seq<PreparedNode>, loop: LoopType, streams: seq<seq<StreamEvent>>): (p: (seq<ExpressCall>, seq<Delivery>))
    requires |chain| > 0
    ensures |p.0| >= 1
    decreases |chain|
  {
    var e := BatchEnd(chain);
    var events := StreamOf(streams);
    var call := ExpressCall(chain[0].manager.uid, MotionsOf(chain[..e]), FacesOf(chain[..e]), loop);
    var here := DeliveriesTo(chain[0].manager, Delivered(events));
    if e < |chain| && Terminal(events) == Completed then
      var next := Play(chain[e..], FastForward, Later(streams));
      ([call] + next.0, here + next.1)
    else ([call], here)
  }

  /** The motions of every call, concatenated. */
  function CallMotions(calls: seq<ExpressCall>): seq<MotionHandle> {
    if |calls| == 0 then [] else calls[0].motions + CallMotions(calls[1..])
  }

  function CallFaces(calls: seq<ExpressCall>): seq<FaceHandle> {
    if |calls| == 0 then [] else calls[0].faces + CallFaces(calls[1..])
  }

  /** The first call uses the requested loop and every later one the default; consecutive
      calls go to characters with different uids; and the chain stops after the first
      call exactly when it was a single batch or its stream did not complete. */
  lemma {:induction false} PlayShape(chain: seq<PreparedNode>, loop: LoopType, streams: seq<seq<StreamEvent>>)
    requires |chain| > 0
    ensures Play(chain, loop, streams).0[0].loop == loop
    ensures Play(chain, loop, streams).0[0].owner == chain[0].manager.uid
    ensures forall k :: 1 <= k < |Play(chain, loop, streams).0| ==> Play(chain, loop, streams).0[k].loop == FastForward
    ensures forall k :: 0 <= k < |Play(chain, loop, streams).0| - 1 ==>
      Play(chain, loop, streams).0[k].owner != Play(chain, loop, streams).0[k + 1].owner
    ensures |Play(chain, loop, streams).0| == 1 <==>
      BatchEnd(chain) == |chain| || Terminal(StreamOf(streams)) != Completed
    ensures |Play(chain, loop, streams).0| <= Runs(chain)
    decreases |chain|
  {
    var e := BatchEnd(chain);
    if e < |chain| && Terminal(StreamOf(streams)) == Completed {
      var rest := chain[e..];
      var more := if |streams| > 0 then streams[1..] else [];
      PlayShape(rest, FastForward, more);
      var calls := Play(chain, loop, streams).0;
      var next := Play(rest, FastForward, more).0;
      assert calls == [calls[0]] + next;
      assert calls[1] == next[0];
      assert forall k :: 1 <= k < |calls| ==> calls[k] == next[k - 1];
    }
  }

  /** The first `n` streams all complete. */
  predicate AllComplete(streams: seq<seq<StreamEvent>>, n: nat) {
    n <= |streams| && forall k :: 0 <= k < n ==> Terminal(streams[k]) == Completed
  }

  lemma {:induction false} MotionsOfSplit(chain: seq<PreparedNode>, e: nat)
    requires e <= |chain|
    ensures MotionsOf(chain) == MotionsOf(chain[..e]) + MotionsOf(chain[e..])
    ensures FacesOf(chain) == FacesOf(chain[..e]) + FacesOf(chain[e..])
  {
  }

  /** When every stream completes, the chain is played in full: one call per batch, and
      the calls' motions and faces are exactly the chain's, in order, none dropped or
      repeated. */
  lemma {:induction false} PlayCoversChain(chain: seq<PreparedNode>, loop: LoopType, streams: seq<seq<StreamEvent>>)
    requires |chain| > 0
    requires AllComplete(streams, Runs(chain))
    ensures |Play(chain, loop, streams).0| == Runs(chain)
    ensures CallMotions(Play(chain, loop, streams).0) == MotionsOf(chain)
    ensures CallFaces(Play(chain, loop, streams).0) == FacesOf(chain)
    decreases |chain|
  {
    var e := BatchEnd(chain);
    var calls := Play(chain, loop, streams).0;
    MotionsOfSplit(chain, e);
    if e < |chain| {
      assert Terminal(streams[0]) == Completed;
      var rest := chain[e..];
      assert AllComplete(streams[1..], Runs(rest)) by {
        assert forall k :: 0 <= k < Runs(rest) ==> streams[1..][k] == streams[k + 1];
      }
      PlayCoversChain(rest, FastForward, streams[1..]);
      assert calls[1..] == Play(rest, FastForward, streams[1..]).0;
    } else {
      assert chain[e..] == [];
      assert chain[..e] == chain;
    }
  }

  /** The streams left for the calls after the first. */
  function Later(streams: seq<seq<StreamEvent>>): seq<seq<StreamEvent>> {
    if |streams| > 0 then streams[1..] else []
  }

  /** `Play`, extended to the empty rest of a chain that has stopped. */
  function PlayFrom(chain: seq<PreparedNode>, loop: LoopType, streams: seq<seq<StreamEvent>>): (seq<ExpressCall>, seq<Delivery>) {
    if |chain| == 0 then ([], []) else Play(chain, loop, streams)
  }

  /** Where play goes after the first batch: the rest of the chain when its stream
      completed, nothing otherwise. */
  function Continuation(chain: seq<PreparedNode>, streams: seq<seq<StreamEvent>>): seq<PreparedNode>
    requires |chain| > 0
  {
    if Terminal(StreamOf(streams)) == Completed then chain[BatchEnd(chain)..] else []
  }

  lemma {:induction false} PlayStep(chain: seq<PreparedNode>, loop: LoopType, streams: seq<seq<StreamEvent>>)
    requires |chain| > 0
    ensures var e := BatchEnd(chain);
      var more := PlayFrom(Continuation(chain, streams), FastForward, Later(streams));
      Play(chain, loop, streams) ==
        ([ExpressCall(chain[0].manager.uid, MotionsOf(chain[..e]), FacesOf(chain[..e]), loop)] + more.0,
         DeliveriesTo(chain[0].manager, Delivered(StreamOf(streams))) + more.1)
  {
    var e := BatchEnd(chain);
    var call := ExpressCall(chain[0].manager.uid, MotionsOf(chain[..e]), FacesOf(chain[..e]), loop);
    var here := DeliveriesTo(chain[0].manager, Delivered(StreamOf(streams)));
    var more := PlayFrom(Continuation(chain, streams), FastForward, Later(streams));
    if e < |chain| && Terminal(StreamOf(streams)) == Completed {
      assert Continuation(chain, streams) == chain[e..];
    } else {
      assert Continuation(chain, streams) == [];
      assert [call] + more.0 == [call];
      assert here + more.1 == here;
    }
  }

  /** Play is the first call and its deliveries, followed by play of the continuation. */
  lemma {:induction false} BatchThenRest(chain: seq<PreparedNode>, loop: LoopType, streams: seq<seq<StreamEvent>>,
                      call: ExpressCall, rest: seq<PreparedNode>, ds: seq<Delivery>, ds': seq<Delivery>)
    requires |chain| > 0
    requires call == ExpressCall(chain[0].manager.uid, MotionsOf(chain[..BatchEnd(chain)]), FacesOf(chain[..BatchEnd(chain)]), loop)
    requires rest == Continuation(chain, streams)
    requires ds' == ds + DeliveriesTo(chain[0].manager, Delivered(StreamOf(streams)))
    ensures [call] + PlayFrom(rest, FastForward, Later(streams)).0 == Play(chain, loop, streams).0
    ensures ds' + PlayFrom(rest, FastForward, Later(streams)).1 == ds + Play(chain, loop, streams).1
  {
    var here := DeliveriesTo(chain[0].manager, Delivered(StreamOf(streams)));
    var more := PlayFrom(rest, FastForward, Later(streams));
    PlayStep(chain, loop, streams);
    assert Play(chain, loop, streams) == ([call] + more.0, here + more.1);
    ConcatAssoc(ds, here, more.1);
  }

  lemma {:induction false} ConcatAssoc<T>(a: seq<T>, b: seq<T>, c: seq<T>)
    ensures (a + b) + c == a + (b + c)
  {
  }

  lemma {:induction false} Regroup<T>(acc: seq<T>, x: seq<T>, z: seq<T>, y: seq<T>, whole: seq<T>)
    requires acc + y == whole && x + z == y
    ensures (acc + x) + z == whole
  {
    assert (acc + x) + z == acc + (x + z);
  }

  /** Character `c`, which had state `s0`, listeners `l0` and log `n0`, has received the
      events `es`: its state is their fold, its listeners are unchanged, and its log has
      grown by the `change` listener calls they make. */
  ghost predicate Follows(c: Character, s0: CharacterState, l0: map<string, seq<ListenerId>>,
                          n0: seq<Notification>, es: seq<ExpressionEvent>)
    reads c
  {
    && c.State() == AfterUpdates(s0, es)
    && c.listeners == l0
    && c.notified == n0 + NotificationsFor(Registered(l0, ChangeType), es)
  }

  /** Every tracked character follows the events delivered to it. */
  ghost predicate Tracks(initial: map<Character, CharacterState>, lists: map<Character, map<string, seq<ListenerId>>>,
                         logs: map<Character, seq<Notification>>, ds: seq<Delivery>)
    reads initial.Keys
  {
    && lists.Keys == initial.Keys && logs.Keys == initial.Keys
    && forall c :: c in initial ==> Follows(c, initial[c], lists[c], logs[c], EventsFor(ds, c))
  }

  /** One more delivery extends exactly its target's events. */
  lemma EventsForSnoc(ds: seq<Delivery>, d: Delivery, c: Character)
    ensures EventsFor(ds + [d], c) == EventsFor(ds, c) + (if d.target == c then [d.event] else [])
  {
    assert (ds + [d])[..|ds|] == ds;
  }

  lemma DeliveriesToSnoc(head: Character, vs: seq<ExpressionEvent>)
    requires |vs| > 0
    ensures DeliveriesTo(head, vs) == DeliveriesTo(head, vs[..|vs| - 1]) + [Delivery(head, vs[|vs| - 1])]
  {
  }

  /** A run of deliveries none of which targets `c` gives `c` no events. */
  lemma {:induction false} EventsForAbsent(ds: seq<Delivery>, c: Character)
    requires forall i :: 0 <= i < |ds| ==> ds[i].target != c
    ensures EventsFor(ds, c) == []
  {
    if |ds| > 0 {
      EventsForAbsent(ds[..|ds| - 1], c);
    }
  }

  /** Playing a chain delivers events only to the characters its nodes name. */
  lemma {:induction false} PlayTargetsManagers(chain: seq<PreparedNode>, loop: LoopType, streams: seq<seq<StreamEvent>>)
    requires |chain| > 0
    ensures forall i :: 0 <= i < |Play(chain, loop, streams).1| ==> Play(chain, loop, streams).1[i].target in Managers(chain)
    decreases |chain|
  {
    var e := BatchEnd(chain);
    assert chain[0] in chain;
    if e < |chain| && Terminal(StreamOf(streams)) == Completed {
      PlayTargetsManagers(chain[e..], FastForward, Later(streams));
      forall n | n in chain[e..]
        ensures n.manager in Managers(chain)
      {
        assert n in chain;
      }
    }
  }

  lemma PlayOnlyTouchesManagers(chain: seq<PreparedNode>, loop: LoopType, streams: seq<seq<StreamEvent>>, c: Character)
    requires |chain| > 0 && c !in Managers(chain)
    ensures EventsFor(Play(chain, loop, streams).1, c) == []
  {
    PlayTargetsManagers(chain, loop, streams);
    EventsForAbsent(Play(chain, loop, streams).1, c);
  }

  /** Handing a run of events to `head` adds them to `head`'s events and to nobody else's. */
  lemma {:induction false} EventsForDeliveries(ds: seq<Delivery>, head: Character, vs: seq<ExpressionEvent>, c: Character)
    ensures EventsFor(ds + DeliveriesTo(head, vs), c) == EventsFor(ds, c) + (if c == head then vs else [])
    decreases |vs|
  {
    if |vs| == 0 {
      assert ds + DeliveriesTo(head, vs) == ds;
    } else {
      var front, v := vs[..|vs| - 1], vs[|vs| - 1];
      EventsForDeliveries(ds, head, front, c);
      DeliveriesToSnoc(head, vs);
      var before := ds + DeliveriesTo(head, front);
      assert ds + (DeliveriesTo(head, front) + [Delivery(head, v)]) == before + [Delivery(head, v)];
      EventsForSnoc(before, Delivery(head, v), c);
      if c == head {
        assert vs == front + [v];
        assert EventsFor(ds, c) + front + [v] == EventsFor(ds, c) + vs;
      } else {
        assert EventsFor(ds, c) + [] + [] == EventsFor(ds, c) + [];
      }
    }
  }

  /** Updating with `a` then `b` is updating with `a + b`. */
  lemma {:induction false} AfterUpdatesAppend(s: CharacterState, a: seq<ExpressionEvent>, b: seq<ExpressionEvent>)
    ensures AfterUpdates(s, a + b) == AfterUpdates(AfterUpdates(s, a), b)
    decreases |b|
  {
    if |b| == 0 {
      assert a + b == a;
    } else {
      AfterUpdatesAppend(s, a, b[..|b| - 1]);
      assert (a + b)[..|a + b| - 1] == a + b[..|b| - 1];
    }
  }

  /** The listener calls of `a` then `b` are those of `a + b`. */
  lemma {:induction false} NotificationsForAppend(listeners: seq<ListenerId>, a: seq<ExpressionEvent>, b: seq<ExpressionEvent>)
    ensures NotificationsFor(listeners, a + b) == NotificationsFor(listeners, a) + NotificationsFor(listeners, b)
    decreases |b|
  {
    if |b| == 0 {
      assert a + b == a;
    } else {
      var front, last := b[..|b| - 1], b[|b| - 1];
      var nA, nF, nL := NotificationsFor(listeners, a), NotificationsFor(listeners, front), UpdateNotifications(listeners, last);
      assert NotificationsFor(listeners, a + b) == NotificationsFor(listeners, a + front) + nL by {
        assert (a + b)[..|a + b| - 1] == a + front && (a + b)[|a + b| - 1] == last;
      }
      assert NotificationsFor(listeners, b) == nF + nL;
      NotificationsForAppend(listeners, a, front);
      AppendAssociates(nA, nF, nL);
    }
  }

  /** Concatenation associates. */
  lemma AppendAssociates<T>(x: seq<T>, y: seq<T>, z: seq<T>)
    ensures (x + y) + z == x + (y + z)
  {
  }





  /** The observer one `playPreparedChain` call subscribes. Its `next` handler is the one
      `setEmotion` subscribes (every event goes to `head`'s `_onExpressionUpdate`, the first
      resolves); in addition an error rejects the promise unless it was already resolved,
      and completion hands over to the rest of the chain. */
  method Observe(head: Character, events: seq<StreamEvent>, ghost initial: map<Character, CharacterState>,
                 ghost lists: map<Character, map<string, seq<ListenerId>>>,
                  ghost logs: map<Character, seq<Notification>>, ghost ds: seq<Delivery>)
    returns (promise: PromiseState, completed: bool, ghost ds': seq<Delivery>)
    requires head in initial && Tracks(initial, lists, logs, ds)
    modifies head
    ensures promise == Settled(events, true)
    ensures completed <==> Terminal(events) == Completed
    ensures ds' == ds + DeliveriesTo(head, Delivered(events))
    ensures Tracks(initial, lists, logs, ds')
    ensures head.notified == old(head.notified) + NotificationsFor(Registered(old(head.listeners), ChangeType), Delivered(events))
  {
    promise, ds' := Deliver(head, events, initial, lists, logs, ds);
    match Terminal(events)
    case Errored(reason) =>
      if promise == Pending {
        promise := Rejected(reason);
      }
      completed := false;
    case Completed =>
      completed := true;
    case Open =>
      completed := false;
  }

  /** Events `b` received after `a` leave a character where `a + b` would. */
  lemma FollowsMore(s: CharacterState, log: seq<Notification>, listeners: seq<ListenerId>,
                    a: seq<ExpressionEvent>, b: seq<ExpressionEvent>)
    ensures AfterUpdates(s, a + b) == AfterUpdates(AfterUpdates(s, a), b)
    ensures log + NotificationsFor(listeners, a + b) == (log + NotificationsFor(listeners, a)) + NotificationsFor(listeners, b)
  {
    AfterUpdatesAppend(s, a, b);
    NotificationsForAppend(listeners, a, b);
  }

  /** The `next` handler alone: every event goes to `head`, which settles as `setEmotion`'s
      promise does, and the tracked characters follow the new deliveries. */
  method Deliver(head: Character, events: seq<StreamEvent>, ghost initial: map<Character, CharacterState>,
                 ghost lists: map<Character, map<string, seq<ListenerId>>>,
                 ghost logs: map<Character, seq<Notification>>, ghost ds: seq<Delivery>)
    returns (started: PromiseState, ghost ds': seq<Delivery>)
    requires head in initial && Tracks(initial, lists, logs, ds)
    modifies head
    ensures started == Settled(events, false) && !started.Rejected?
    ensures ds' == ds + DeliveriesTo(head, Delivered(events))
    ensures Tracks(initial, lists, logs, ds')
    ensures head.notified == old(head.notified) + NotificationsFor(Registered(old(head.listeners), ChangeType), Delivered(events))
  {
    started := head.HandleStream(events);
    ds' := ds + DeliveriesTo(head, Delivered(events));
    forall c | c in initial
      ensures Follows(c, initial[c], lists[c], logs[c], EventsFor(ds', c))
    {
      EventsForDeliveries(ds, head, Delivered(events), c);
      assert old(Follows(c, initial[c], lists[c], logs[c], EventsFor(ds, c)));
      if c == head {
        FollowsMore(initial[c], logs[c], Registered(lists[c], ChangeType), EventsFor(ds, c), Delivered(events));
      } else {
        assert EventsFor(ds', c) == EventsFor(ds, c) + [] == EventsFor(ds, c);
      }
    }
  }

  /** One round of `playPreparedChain`: collect the first batch, make its `express` call,
      observe the stream, and say where play goes next. */
  method PlayBatch(chain: seq<PreparedNode>, loop: LoopType, streams: seq<seq<StreamEvent>>,
                   ghost initial: map<Character, CharacterState>,
                   ghost lists: map<Character, map<string, seq<ListenerId>>>,
                  ghost logs: map<Character, seq<Notification>>, ghost ds: seq<Delivery>)
    returns (call: ExpressCall, promise: PromiseState, rest: seq<PreparedNode>, completed: bool, ghost ds': seq<Delivery>)
    requires |chain| > 0 && chain[0].manager in initial && Tracks(initial, lists, logs, ds)
    modifies chain[0].manager
    ensures call == ExpressCall(chain[0].manager.uid, MotionsOf(chain[..BatchEnd(chain)]), FacesOf(chain[..BatchEnd(chain)]), loop)
    ensures promise == Settled(StreamOf(streams), true)
    ensures rest == Continuation(chain, streams)
    ensures ds' == ds + DeliveriesTo(chain[0].manager, Delivered(StreamOf(streams)))
    ensures Tracks(initial, lists, logs, ds')
    ensures [call] + PlayFrom(rest, FastForward, Later(streams)).0 == Play(chain, loop, streams).0
    ensures ds' + PlayFrom(rest, FastForward, Later(streams)).1 == ds + Play(chain, loop, streams).1
  {
    var motions, faces, next := CollectBatch(chain);
    var head := chain[0].manager;
    call := ExpressCall(head.uid, motions, faces, loop);
    promise, completed, ds' := Observe(head, StreamOf(streams), initial, lists, logs, ds);
    rest := if completed then next else [];
    BatchThenRest(chain, loop, streams, call, rest, ds, ds');
  }

  /** `part` is what is left of `chain` after some prefix. */
  predicate Suffix(part: seq<PreparedNode>, chain: seq<PreparedNode>) {
    |part| <= |chain| && part == chain[|chain| - |part|..]
  }

  /** `playPreparedChain` over characters that start out tracked with no deliveries. */
  method PlayTracked(chain: seq<PreparedNode>, loop: LoopType, streams: seq<seq<StreamEvent>>,
                     ghost initial: map<Character, CharacterState>,
                     ghost lists: map<Character, map<string, seq<ListenerId>>>,
                     ghost logs: map<Character, seq<Notification>>)
    returns (outcome: PromiseState, calls: seq<ExpressCall>)
    requires |chain| > 0 && Tracks(initial, lists, logs, []) && initial.Keys == Managers(chain)
    modifies Managers(chain)
    ensures calls == Play(chain, loop, streams).0
    ensures outcome == Settled(StreamOf(streams), true)
    ensures Tracks(initial, lists, logs, Play(chain, loop, streams).1)
  {
    ghost var whole := Play(chain, loop, streams);
    ghost var ds: seq<Delivery> := [];
    assert chain[0] in chain;
    var call, rest, completed;
    call, outcome, rest, completed, ds := PlayBatch(chain, loop, streams, initial, lists, logs, ds);
    ContinuationIsSuffix(chain, streams);
    assert [] + whole.1 == whole.1;
    calls, ds := PlayRest(chain, whole, rest, Later(streams), [call], initial, lists, logs, ds);
  }

  /** The rounds after the first: each later batch is played with FastForward, until the
      chain is used up or a stream does not complete. */
  method PlayRest(ghost chain: seq<PreparedNode>, ghost whole: (seq<ExpressCall>, seq<Delivery>),
                  current: seq<PreparedNode>, pending: seq<seq<StreamEvent>>, calls: seq<ExpressCall>,
                  ghost initial: map<Character, CharacterState>,
                  ghost lists: map<Character, map<string, seq<ListenerId>>>,
                  ghost logs: map<Character, seq<Notification>>, ghost ds: seq<Delivery>)
    returns (calls': seq<ExpressCall>, ghost ds': seq<Delivery>)
    requires Suffix(current, chain)
    requires calls + PlayFrom(current, FastForward, pending).0 == whole.0
    requires ds + PlayFrom(current, FastForward, pending).1 == whole.1
    requires Tracks(initial, lists, logs, ds) && initial.Keys == Managers(chain)
    modifies Managers(chain)
    ensures calls' == whole.0 && ds' == whole.1
    ensures Tracks(initial, lists, logs, ds')
  {
    var rest, later := current, pending;
    calls', ds' := calls, ds;
    while |rest| > 0
      invariant Suffix(rest, chain)
      invariant calls' + PlayFrom(rest, FastForward, later).0 == whole.0
      invariant ds' + PlayFrom(rest, FastForward, later).1 == whole.1
      invariant Tracks(initial, lists, logs, ds')
      decreases |rest|
    {
      rest, later, calls', ds' := PlayNext(chain, whole, rest, later, calls', initial, lists, logs, ds');
    }
    assert calls' + [] == calls' && ds' + [] == ds';
  }

  /** One more round of `playPreparedChain`, for the batch `current` starts with. */
  method PlayNext(ghost chain: seq<PreparedNode>, ghost whole: (seq<ExpressCall>, seq<Delivery>),
                  current: seq<PreparedNode>, pending: seq<seq<StreamEvent>>, calls: seq<ExpressCall>,
                  ghost initial: map<Character, CharacterState>,
                  ghost lists: map<Character, map<string, seq<ListenerId>>>,
                  ghost logs: map<Character, seq<Notification>>, ghost ds: seq<Delivery>)
    returns (current': seq<PreparedNode>, pending': seq<seq<StreamEvent>>, calls': seq<ExpressCall>, ghost ds': seq<Delivery>)
    requires |current| > 0 && Suffix(current, chain)
    requires calls + PlayFrom(current, FastForward, pending).0 == whole.0
    requires ds + PlayFrom(current, FastForward, pending).1 == whole.1
    requires Tracks(initial, lists, logs, ds) && initial.Keys == Managers(chain)
    modifies current[0].manager
    ensures Suffix(current', chain) && |current'| < |current|
    ensures calls' + PlayFrom(current', FastForward, pending').0 == whole.0
    ensures ds' + PlayFrom(current', FastForward, pending').1 == whole.1
    ensures Tracks(initial, lists, logs, ds')
  {
    assert current[0] == chain[|chain| - |current|] && chain[|chain| - |current|] in chain;
    ghost var step := Play(current, FastForward, pending);
    var call, promise, completed;
    call, promise, current', completed, ds' := PlayBatch(current, FastForward, pending, initial, lists, logs, ds);
    Regroup(calls, [call], PlayFrom(current', FastForward, Later(pending)).0, step.0, whole.0);
    calls' := calls + [call];
    pending' := Later(pending);
    ContinuationIsSuffix(current, pending);
    SuffixTransitive(current', current, chain);
  }

  lemma {:induction false} ContinuationIsSuffix(chain: seq<PreparedNode>, streams: seq<seq<StreamEvent>>)
    requires |chain| > 0
    ensures Suffix(Continuation(chain, streams), chain) && |Continuation(chain, streams)| < |chain|
  {
  }

  lemma {:induction false} SuffixTransitive(a: seq<PreparedNode>, b: seq<PreparedNode>, c: seq<PreparedNode>)
    requires Suffix(a, b) && Suffix(b, c)
    ensures Suffix(a, c)
  {
    assert c[|c| - |b|..][|b| - |a|..] == c[|c| - |a|..];
  }

  /** Every character a chain's items name. */
  function Managers(chain: seq<PreparedNode>): set<Character> {
    set n | n in chain :: n.manager
  }

  /** Every character a chain's items name, the default owner standing in for items that
      name none. */
  function ItemManagers(chain: seq<ChainItem>, owner: Character): set<Character> {
    {owner} + set i | i in chain && i.manager.Some? :: i.manager.value
  }

  /** A prepared chain plays only on characters its items name, or on the owner. */
  lemma PreparedManagers(byName: map<string, EmotionAnimation>, owner: Character, loader: MotionLoader, chain: seq<ChainItem>)
    requires PrepareChain(byName, owner, loader, chain).Ok?
    ensures Managers(PrepareChain(byName, owner, loader, chain).value) <= ItemManagers(chain, owner)
  {
    var nodes := PrepareChain(byName, owner, loader, chain).value;
    forall c | c in Managers(nodes)
      ensures c in ItemManagers(chain, owner)
    {
      var n :| n in nodes && n.manager == c;
      var i :| 0 <= i < |nodes| && nodes[i] == n;
      assert n.manager == chain[i].manager.GetOr(owner);
      if chain[i].manager.Some? {
        assert chain[i] in chain;
      }
    }
  }

  /** What the source promises for a failed preparation: a rejected promise. */
  const PrepareFailure: string := "TypeError: animation name not found"

  class ChainManager {
    /** `_manager`, the character items without their own manager play on. */
    const owner: Character
    var undefinedSlot: Option<InteractionAnimation>
    var animationsByName: map<string, EmotionAnimation>
    var warnings: nat

    function Index(): NameIndex
      reads this
    {
      NameIndex(undefinedSlot, animationsByName, warnings)
    }

    /** Fills the name index from the interaction table, then from every bucket of the
        catalog, warning on each name already present and overwriting it. */
    constructor(owner: Character, interactions: seq<InteractionAnimation>, cat: EmotionCatalog)
      ensures this.owner == owner
      ensures Index() == BuildIndex(interactions, cat)
    {
      this.owner := owner;
      undefinedSlot := None;
      animationsByName := map[];
      warnings := 0;
      new;
      for k := 0 to |interactions|
        invariant Index() == RegisterInteractions(EmptyIndex, interactions[..k])
      {
        if undefinedSlot.Some? {
          warnings := warnings + 1;
        }
        undefinedSlot := Some(interactions[k]);
        assert interactions[..k + 1][..k] == interactions[..k];
      }
      assert interactions[..|interactions|] == interactions;
      ghost var start := Index();
      for g := 0 to |cat|
        invariant Index() == RegisterEmotions(start, CatalogEntries(cat[..g]))
      {
        RegisterGroup(cat[g].1);
        RegisterEmotionsAppend(start, CatalogEntries(cat[..g]), GroupEntries(cat[g].1, 3));
        assert cat[..g + 1][..g] == cat[..g];
      }
      assert cat[..|cat|] == cat;
    }

    /** The middle loop of the constructor: every bucket of one group, tiers ascending. */
    method RegisterGroup(group: map<Tier, seq<EmotionAnimation>>)
      modifies this
      ensures Index() == RegisterEmotions(old(Index()), GroupEntries(group, 3))
    {
      for t := 1 to 4
        invariant Index() == RegisterEmotions(old(Index()), GroupEntries(group, t - 1))
      {
        if t as Tier in group {
          RegisterBucket(group[t as Tier]);
          RegisterEmotionsAppend(old(Index()), GroupEntries(group, t - 1), group[t as Tier]);
          assert GroupEntries(group, t) == GroupEntries(group, t - 1) + group[t as Tier];
        } else {
          assert GroupEntries(group, t) == GroupEntries(group, t - 1);
        }
      }
    }

    /** The innermost loop of the constructor: one bucket, in list order. */
    method RegisterBucket(bucket: seq<EmotionAnimation>)
      modifies this
      ensures Index() == RegisterEmotions(old(Index()), bucket)
    {
      for j := 0 to |bucket|
        invariant Index() == RegisterEmotions(old(Index()), bucket[..j])
      {
        var a := bucket[j];
        if a.meta.name in animationsByName {
          warnings := warnings + 1;
        }
        animationsByName := animationsByName[a.meta.name := a];
        assert bucket[..j + 1] == bucket[..j] + [a];
        RegisterEmotionsSnoc(old(Index()), bucket[..j], a);
      }
      assert bucket[..|bucket|] == bucket;
    }

    /** `playPreparedChain`: plays the chain batch by batch, one `express` call per batch on
        the head's character; the returned promise is the first call's. */
    method PlayPreparedChain(chain: seq<PreparedNode>, loop: LoopType, streams: seq<seq<StreamEvent>>)
      returns (outcome: PromiseState, calls: seq<ExpressCall>)
      requires |chain| > 0
      modifies Managers(chain)
      ensures calls == Play(chain, loop, streams).0
      ensures outcome == Settled(StreamOf(streams), true)
      ensures forall c :: c in Managers(chain) ==>
        Follows(c, old(c.State()), old(c.listeners), old(c.notified), EventsFor(Play(chain, loop, streams).1, c))
    {
      ghost var initial := map c | c in Managers(chain) :: c.State();
      ghost var lists: map<Character, map<string, seq<ListenerId>>> := map c | c in Managers(chain) :: c.listeners;
      ghost var logs: map<Character, seq<Notification>> := map c | c in Managers(chain) :: c.notified;
      ghost var whole := Play(chain, loop, streams);
      outcome, calls := PlayTracked(chain, loop, streams, initial, lists, logs);
      forall c | c in Managers(chain)
        ensures Follows(c, old(c.State()), old(c.listeners), old(c.notified), EventsFor(whole.1, c))
      {
        assert initial[c] == old(c.State()) && lists[c] == old(c.listeners) && logs[c] == old(c.notified);
      }
    }

    /** `playChain`: prepares the chain, then plays it; a failed preparation rejects the
        promise before anything is played. */
    method PlayChain(loader: MotionLoader, chain: seq<ChainItem>, loop: LoopType, streams: seq<seq<StreamEvent>>)
      returns (outcome: PromiseState, calls: seq<ExpressCall>)
      requires |chain| > 0
      modifies ItemManagers(chain, owner)
      ensures PrepareChain(animationsByName, owner, loader, chain).Err? ==>
        outcome == Rejected(PrepareFailure) && calls == []
      ensures PrepareChain(animationsByName, owner, loader, chain).Err? ==>
        forall c :: c in ItemManagers(chain, owner) ==>
          c.State() == old(c.State()) && c.listeners == old(c.listeners) && c.notified == old(c.notified)
      ensures PrepareChain(animationsByName, owner, loader, chain).Ok? ==>
        calls == Play(PrepareChain(animationsByName, owner, loader, chain).value, loop, streams).0 &&
        outcome == Settled(StreamOf(streams), true)
      ensures PrepareChain(animationsByName, owner, loader, chain).Ok? ==>
        var nodes := PrepareChain(animationsByName, owner, loader, chain).value;
        forall c :: c in ItemManagers(chain, owner) ==>
          Follows(c, old(c.State()), old(c.listeners), old(c.notified), EventsFor(Play(nodes, loop, streams).1, c))
    {
      var prepared := PrepareChain(animationsByName, owner, loader, chain);
      if prepared.Err? {
        outcome := Rejected(PrepareFailure);
        calls := [];
        return;
      }
      var nodes := prepared.value;
      PreparedManagers(animationsByName, owner, loader, chain);
      outcome, calls := PlayPreparedChain(nodes, loop, streams);
      forall c | c in ItemManagers(chain, owner) && c !in Managers(nodes)
        ensures EventsFor(Play(nodes, loop, streams).1, c) == []
      {
        PlayOnlyTouchesManagers(nodes, loop, streams, c);
        assert c.notified == old(c.notified) + [];
      }
    }
  }

  /** The `chainManager` getter: the field it reads is never assigned, so every access
      builds a fresh manager owned by the character. */
  method ChainManagerOf(c: Character, interactions: seq<InteractionAnimation>, cat: EmotionCatalog)
    returns (m: ChainManager)
    ensures fresh(m) && m.owner == c && m.Index() == BuildIndex(interactions, cat)
  {
    m := new ChainManager(c, interactions, cat);
  }
}
