/**
 * `AICharacterManager`: the per-character state (current emotion, target emotion,
 * animation tier and name), the listener registry, the handler every playback
 * event goes through, and the state-visible part of `setEmotion` and
 * `setEmotionIntensity`.
 */
module CharacterManager {
  import opened Wrappers
  import opened AnimationMetadata
  import opened Intensity
  import opened Catalog
  import opened EmotionTopology
  import opened Resolver
  import opened Playback

  /** A listener, identified by reference. */
  type ListenerId = nat

  /** The payload a `"change"` listener is called with. */
  datatype ChangeEvent = MotionChange(data: EventMetadata) | InteractionChange(data: EventMetadata)

  /** One call of a listener. */
  datatype Notification = Notification(listener: ListenerId, event: ChangeEvent)

  /** The fields of a character that events and requests change. */
  datatype CharacterState = CharacterState(
    currentEmotion: string,
    targetEmotion: string,
    animationIntensity: Tier,
    animationName: string,
    faceIntensity: real,
    voiceName: string)

  const ChangeType: string := "change"

  /** Duration, in milliseconds, of the face expression `setEmotion` builds. */
  const EmotionFaceDurationMs: real := 10000.0

  /** `this._eventListeners[type]`, with a missing entry read as no listeners. */
  function Registered(listeners: map<string, seq<ListenerId>>, eventType: string): seq<ListenerId> {
    if eventType in listeners then listeners[eventType] else []
  }

  /** `list.filter((l) => l !== listener)`. */
  function Without(s: seq<ListenerId>, l: ListenerId): (r: seq<ListenerId>)
    ensures l !in r
    ensures forall x :: x != l ==> (x in r <==> x in s)
    ensures |r| <= |s|
  {
    if |s| == 0 then []
    else if s[0] == l then Without(s[1..], l)
    else [s[0]] + Without(s[1..], l)
  }

  /** Filtering distributes over concatenation, so the kept listeners stay in their order. */
  lemma {:induction false} WithoutDistributes(a: seq<ListenerId>, b: seq<ListenerId>, l: ListenerId)
    ensures Without(a + b, l) == Without(a, l) + Without(b, l)
  {
    if |a| == 0 {
      assert a + b == b;
    } else {
      assert (a + b)[0] == a[0];
      assert (a + b)[1..] == a[1..] + b;
      WithoutDistributes(a[1..], b, l);
    }
  }

  /** Every occurrence of the removed listener goes, every other listener keeps all of its
      occurrences. */
  lemma {:induction false} WithoutCounts(s: seq<ListenerId>, l: ListenerId, x: ListenerId)
    ensures multiset(Without(s, l))[x] == if x == l then 0 else multiset(s)[x]
  {
    if |s| > 0 {
      WithoutCounts(s[1..], l, x);
      assert s == [s[0]] + s[1..];
    }
  }

  /** How `_onExpressionUpdate` reads an event: a `motion` or `interaction` change, or
      nothing for an event without metadata or with any other `metaType`. */
  function ChangeOf(e: ExpressionEvent): Option<ChangeEvent> {
    match e.metadata
    case None => None
    case Some(md) =>
      if md.metaType == Tag(Motion) then Some(MotionChange(md))
      else if md.metaType == Tag(Interaction) then Some(InteractionChange(md))
      else None
  }

  /** The state after `_onExpressionUpdate(e)`. */
  function AfterUpdate(s: CharacterState, e: ExpressionEvent): (r: CharacterState)
    ensures r.targetEmotion == s.targetEmotion && r.faceIntensity == s.faceIntensity && r.voiceName == s.voiceName
    ensures ChangeOf(e).None? ==> r == s
    ensures ChangeOf(e).Some? ==> r.animationIntensity == e.metadata.value.intensity && r.animationName == e.metadata.value.name
    ensures r.currentEmotion != s.currentEmotion ==> ChangeOf(e).Some? && ChangeOf(e).value.MotionChange?
  {
    match ChangeOf(e)
    case None => s
    case Some(MotionChange(md)) =>
      s.(currentEmotion := md.emotion, animationIntensity := md.intensity, animationName := md.name)
    case Some(InteractionChange(md)) =>
      s.(animationIntensity := md.intensity, animationName := md.name)
  }

  /** `listeners.forEach((l) => l(change))`: one call per registration, in list order. */
  function NotifyAll(listeners: seq<ListenerId>, c: ChangeEvent): (ns: seq<Notification>)
    ensures |ns| == |listeners|
    ensures forall i :: 0 <= i < |ns| ==> ns[i] == Notification(listeners[i], c)
  {
    seq(|listeners|, i requires 0 <= i < |listeners| => Notification(listeners[i], c))
  }

  /** The listener calls `_onExpressionUpdate(e)` makes. */
  function UpdateNotifications(listeners: seq<ListenerId>, e: ExpressionEvent): seq<Notification> {
    match ChangeOf(e)
    case None => []
    case Some(c) => NotifyAll(listeners, c)
  }

  /** The state after a run of events, handled in order. */
  function AfterUpdates(s: CharacterState, es: seq<ExpressionEvent>): CharacterState {
    if |es| == 0 then s else AfterUpdate(AfterUpdates(s, es[..|es| - 1]), es[|es| - 1])
  }

  /** The listener calls a run of events makes, in order. */
  function NotificationsFor(listeners: seq<ListenerId>, es: seq<ExpressionEvent>): seq<Notification> {
    if |es| == 0 then []
    else NotificationsFor(listeners, es[..|es| - 1]) + UpdateNotifications(listeners, es[|es| - 1])
  }

  /** Handling one more event of a run extends the state fold and the call log by that event. */
  lemma {:induction false} UpdatesStep(s: CharacterState, listeners: seq<ListenerId>, es: seq<ExpressionEvent>, i: nat)
    requires i < |es|
    ensures AfterUpdates(s, es[..i + 1]) == AfterUpdate(AfterUpdates(s, es[..i]), es[i])
    ensures NotificationsFor(listeners, es[..i + 1]) == NotificationsFor(listeners, es[..i]) + UpdateNotifications(listeners, es[i])
  {
    assert es[..i + 1][..i] == es[..i];
  }

  /** What `_onExpressionUpdate` does, case by case. A motion event takes emotion, tier and
      name from its metadata; an interaction event takes tier and name and keeps the
      emotion; any other event changes nothing and calls nobody. The target emotion is
      never written. */
  lemma {:induction false} UpdateEffects(s: CharacterState, listeners: seq<ListenerId>, e: ExpressionEvent)
    ensures AfterUpdate(s, e).targetEmotion == s.targetEmotion
    ensures e.metadata.Some? && e.metadata.value.metaType == "motion" ==>
      var md := e.metadata.value;
      AfterUpdate(s, e) == s.(currentEmotion := md.emotion, animationIntensity := md.intensity, animationName := md.name) &&
      UpdateNotifications(listeners, e) == NotifyAll(listeners, MotionChange(md))
    ensures e.metadata.Some? && e.metadata.value.metaType == "interaction" ==>
      var md := e.metadata.value;
      AfterUpdate(s, e) == s.(animationIntensity := md.intensity, animationName := md.name) &&
      AfterUpdate(s, e).currentEmotion == s.currentEmotion &&
      UpdateNotifications(listeners, e) == NotifyAll(listeners, InteractionChange(md))
    ensures e.metadata.None? || e.metadata.value.metaType !in {"motion", "interaction"} ==>
      AfterUpdate(s, e) == s && UpdateNotifications(listeners, e) == []
  {
  }

  /** No run of events writes the target emotion. */
  lemma {:induction false} UpdatesKeepTarget(s: CharacterState, es: seq<ExpressionEvent>)
    ensures AfterUpdates(s, es).targetEmotion == s.targetEmotion
  {
    if |es| > 0 {
      UpdatesKeepTarget(s, es[..|es| - 1]);
    }
  }

  /** One link of `_getEmotionMotionChain`: the closest viable entry of one motion type,
      loaded and tagged with the catalog entry it came from. */
  function ResolveMotion(topo: Topology, cat: EmotionCatalog, loader: MotionLoader, emotion: string,
                         tier: Tier, motionType: MotionType, rnd: real): (h: MotionHandle)
    requires Resolver.WellFormed(topo, cat) && 0.0 <= rnd < 1.0
    ensures h.metadata.Some? && h.metadata.value.motionType == motionType
    ensures h.format == h.metadata.value.meta.format && h.url == h.metadata.value.meta.url
    ensures Consistent(cat) ==> h.metadata.value.meta.intensity <= tier
    ensures h.metadata == Some(ClosestViable(topo, cat, Query(emotion, tier, motionType, false), rnd))
    ensures var clip := loader(h.format, h.url);
      h.duration == clip.duration && h.clipSeconds == clip.clipSeconds
  {
    var a := ClosestViable(topo, cat, Query(emotion, tier, motionType, false), rnd);
    Materialize(loader, a.meta.format, a.meta.url).(metadata := Some(a))
  }

  /** `_getEmotionMotionChain`: a gesture then a loop, each resolved independently at the
      tier of the raw intensity. */
  function EmotionMotionChain(topo: Topology, cat: EmotionCatalog, loader: MotionLoader, emotion: string,
                              intensity: real, rndGesture: real, rndLoop: real): (chain: seq<MotionHandle>)
    requires Resolver.WellFormed(topo, cat)
    requires 0.0 <= rndGesture < 1.0 && 0.0 <= rndLoop < 1.0
    ensures |chain| == 2
    ensures chain[0].metadata.Some? && chain[0].metadata.value.motionType == Gesture
    ensures chain[1].metadata.Some? && chain[1].metadata.value.motionType == Loop
    ensures Consistent(cat) ==>
      chain[0].metadata.value.meta.intensity <= Normalize(intensity) &&
      chain[1].metadata.value.meta.intensity <= Normalize(intensity)
    ensures chain[0].metadata == Some(ClosestViable(topo, cat, Query(emotion, Normalize(intensity), Gesture, false), rndGesture))
    ensures chain[1].metadata == Some(ClosestViable(topo, cat, Query(emotion, Normalize(intensity), Loop, false), rndLoop))
  {
    var tier := Normalize(intensity);
    [ResolveMotion(topo, cat, loader, emotion, tier, Gesture, rndGesture),
     ResolveMotion(topo, cat, loader, emotion, tier, Loop, rndLoop)]
  }

  class Character {
    const uid: string
    var voiceName: string
    var currentEmotion: string
    var currentTargetEmotion: string
    var currentAnimationIntensity: Tier
    var currentFaceIntensity: real
    var currentAnimationName: string
    /** `_eventListeners`: event type -> listeners in registration order. */
    var listeners: map<string, seq<ListenerId>>
    /** Every listener call made so far, in order. */
    var notified: seq<Notification>

    function State(): CharacterState
      reads this
    {
      CharacterState(currentEmotion, currentTargetEmotion, currentAnimationIntensity,
                     currentAnimationName, currentFaceIntensity, voiceName)
    }

    /** The uid stands for the `crypto.randomUUID()` the source draws. */
    constructor(uid: string, voiceName: Option<string>)
      ensures this.uid == uid && this.voiceName == voiceName.GetOr("yui")
      ensures currentEmotion == "neutral" && currentTargetEmotion == "neutral"
      ensures currentFaceIntensity == 0.5 && currentAnimationIntensity == 1
      ensures currentAnimationName == "none"
      ensures listeners == map[] && notified == []
    {
      this.uid := uid;
      this.voiceName := voiceName.GetOr("yui");
      currentEmotion := "neutral";
      currentFaceIntensity := 0.5;
      currentAnimationIntensity := 1;
      currentAnimationName := "none";
      currentTargetEmotion := "neutral";
      listeners := map[];
      notified := [];
    }

    /** The `currentEmotion` setter. */
    method AssignCurrentEmotion(emotion: string)
      modifies this
      ensures State() == old(State()).(currentEmotion := emotion)
      ensures listeners == old(listeners) && notified == old(notified)
    {
      currentEmotion := emotion;
    }

    /** `addEventListener`: appends, keeping earlier registrations of the same listener. */
    method AddEventListener(eventType: string, listener: ListenerId)
      modifies this
      ensures listeners == old(listeners)[eventType := Registered(old(listeners), eventType) + [listener]]
      ensures State() == old(State()) && notified == old(notified)
    {
      if eventType !in listeners {
        listeners := listeners[eventType := []];
      }
      listeners := listeners[eventType := listeners[eventType] + [listener]];
    }

    /** `removeEventListener`: drops every registration of the listener under that type;
        a type never registered is left alone. */
    method RemoveEventListener(eventType: string, listener: ListenerId)
      modifies this
      ensures eventType !in old(listeners) ==> listeners == old(listeners)
      ensures eventType in old(listeners) ==> listeners == old(listeners)[eventType := Without(old(listeners)[eventType], listener)]
      ensures State() == old(State()) && notified == old(notified)
    {
      if eventType !in listeners {
        return;
      }
      listeners := listeners[eventType := Without(listeners[eventType], listener)];
    }

    /** Calls every `"change"` listener once, in list order. */
    method NotifyChange(c: ChangeEvent)
      modifies this`notified
      ensures notified == old(notified) + NotifyAll(Registered(listeners, ChangeType), c)
    {
      var ls := Registered(listeners, ChangeType);
      for i := 0 to |ls|
        invariant notified == old(notified) + NotifyAll(ls[..i], c)
      {
        assert NotifyAll(ls[..i + 1], c) == NotifyAll(ls[..i], c) + [Notification(ls[i], c)];
        notified := notified + [Notification(ls[i], c)];
      }
      assert ls[..|ls|] == ls;
    }

    /** `_onExpressionUpdate`. */
    method OnExpressionUpdate(e: ExpressionEvent)
      modifies this
      ensures State() == AfterUpdate(old(State()), e)
      ensures notified == old(notified) + UpdateNotifications(Registered(old(listeners), ChangeType), e)
      ensures listeners == old(listeners)
    {
      if e.metadata.Some? {
        var md := e.metadata.value;
        if md.metaType == Tag(Motion) {
          currentEmotion := md.emotion;
          currentAnimationIntensity := md.intensity;
          currentAnimationName := md.name;
          NotifyChange(MotionChange(md));
        } else if md.metaType == Tag(Interaction) {
          currentAnimationIntensity := md.intensity;
          currentAnimationName := md.name;
          NotifyChange(InteractionChange(md));
        }
      }
    }

    /** One delivery: the `i`-th event goes through `_onExpressionUpdate`, extending the
        folds over the events handled so far. */
    method HandleNext(ghost s0: CharacterState, ghost ls: seq<ListenerId>, ghost log: seq<Notification>,
                      delivered: seq<ExpressionEvent>, i: nat)
      requires i < |delivered|
      requires State() == AfterUpdates(s0, delivered[..i])
      requires notified == log + NotificationsFor(ls, delivered[..i])
      requires Registered(listeners, ChangeType) == ls
      modifies this
      ensures State() == AfterUpdates(s0, delivered[..i + 1])
      ensures notified == log + NotificationsFor(ls, delivered[..i + 1])
      ensures listeners == old(listeners)
    {
      UpdatesStep(s0, ls, delivered, i);
      OnExpressionUpdate(delivered[i]);
    }

    /** The `next` handler `setEmotion` subscribes: every delivered event goes through
        `_onExpressionUpdate`, and the first one resolves the promise. */
    method HandleStream(events: seq<StreamEvent>) returns (started: PromiseState)
      modifies this
      ensures started == Settled(events, false) && !started.Rejected?
      ensures State() == AfterUpdates(old(State()), Delivered(events))
      ensures notified == old(notified) + NotificationsFor(Registered(old(listeners), ChangeType), Delivered(events))
      ensures listeners == old(listeners)
    {
      ghost var s0 := State();
      ghost var ls := Registered(listeners, ChangeType);
      var delivered := Delivered(events);
      started := Pending;
      for i := 0 to |delivered|
        invariant started == if i == 0 then Pending else Resolved
        invariant State() == AfterUpdates(s0, delivered[..i])
        invariant notified == old(notified) + NotificationsFor(ls, delivered[..i])
        invariant listeners == old(listeners) && Registered(listeners, ChangeType) == ls
      {
        if started == Pending {
          started := Resolved;
        }
        HandleNext(s0, ls, old(notified), delivered, i);
      }
      assert delivered[..|delivered|] == delivered;
    }

    /** `setEmotion`: records the target at once, builds the default gesture-then-loop
        chain and face expression unless overridden, makes one `express` call and
        handles the stream's events. Only a `next` handler is subscribed: the promise
        resolves on the first event and never rejects. The random draws `rndGesture`
        and `rndLoop` are the two `Math.random()` results of the chain's resolution. */
    method SetEmotion(newEmotion: string, intensity: Option<real>,
                      faceOverride: Option<seq<FaceHandle>>, motionOverride: Option<seq<MotionHandle>>,
                      topo: Topology, cat: EmotionCatalog, loader: MotionLoader,
                      rndGesture: real, rndLoop: real, events: seq<StreamEvent>)
      returns (started: PromiseState, call: ExpressCall)
      requires motionOverride.None? ==>
        Resolver.WellFormed(topo, cat) && 0.0 <= rndGesture < 1.0 && 0.0 <= rndLoop < 1.0
      modifies this
      ensures var raw := intensity.GetOr(old(currentAnimationIntensity) as real);
        call == ExpressCall(uid,
          if motionOverride.Some? then motionOverride.value
          else EmotionMotionChain(topo, cat, loader, newEmotion, raw, rndGesture, rndLoop),
          faceOverride.GetOr([FaceHandle(Some(newEmotion), Some(raw), EmotionFaceDurationMs)]),
          FastForward)
      ensures started == Settled(events, false) && !started.Rejected?
      ensures State() == AfterUpdates(old(State()).(targetEmotion := newEmotion), Delivered(events))
      ensures currentTargetEmotion == newEmotion
      ensures notified == old(notified) + NotificationsFor(Registered(old(listeners), ChangeType), Delivered(events))
      ensures listeners == old(listeners)
    {
      currentTargetEmotion := newEmotion;
      var raw := if intensity.Some? then intensity.value else currentAnimationIntensity as real;
      var motions := if motionOverride.Some? then motionOverride.value
                     else EmotionMotionChain(topo, cat, loader, newEmotion, raw, rndGesture, rndLoop);
      var faces := if faceOverride.Some? then faceOverride.value
                   else [FaceHandle(Some(newEmotion), Some(raw), EmotionFaceDurationMs)];
      call := ExpressCall(uid, motions, faces, FastForward);

      started := HandleStream(events);
      UpdatesKeepTarget(old(State()).(targetEmotion := newEmotion), Delivered(events));
    }

    /** `setEmotionIntensity`: replays the target emotion (falling back to the current one
        when the target is empty) at the raw value `tier * 0.332` of the requested tier. */
    method SetEmotionIntensity(intensity: real, topo: Topology, cat: EmotionCatalog, loader: MotionLoader,
                               rndGesture: real, rndLoop: real, events: seq<StreamEvent>)
      returns (started: PromiseState, call: ExpressCall, requested: real)
      requires Resolver.WellFormed(topo, cat) && 0.0 <= rndGesture < 1.0 && 0.0 <= rndLoop < 1.0
      modifies this
      ensures requested == Normalize(intensity) as real * TierScale
      ensures Normalize(requested) == Normalize(intensity)
      ensures var target := if old(currentTargetEmotion) == "" then old(currentEmotion) else old(currentTargetEmotion);
        call == ExpressCall(uid, EmotionMotionChain(topo, cat, loader, target, requested, rndGesture, rndLoop),
                            [FaceHandle(Some(target), Some(requested), EmotionFaceDurationMs)], FastForward) &&
        currentTargetEmotion == target &&
        State() == AfterUpdates(old(State()).(targetEmotion := target), Delivered(events))
      ensures started == Settled(events, false)
      ensures notified == old(notified) + NotificationsFor(Registered(old(listeners), ChangeType), Delivered(events))
      ensures listeners == old(listeners)
    {
      var tier := Normalize(intensity);
      if currentTargetEmotion == "" {
        currentTargetEmotion := currentEmotion;
      }
      requested := tier as real * TierScale;
      ScaledTierRoundTrip(intensity);
      started, call := SetEmotion(currentTargetEmotion, Some(requested), None, None,
                                  topo, cat, loader, rndGesture, rndLoop, events);
    }
  }
}
