/**
 * The boundary to the playback subsystem, which this core only hands things to:
 * motion handles from the loader (`x2motion`), face handles from the face factory
 * (`fromDistilbertGoEmotions`), `express` calls, and the finite event streams those
 * calls answer with. Handles are records of the arguments that produced them.
 */
module Playback {
  import opened Wrappers
  import opened AnimationMetadata
  import opened Catalog

  datatype LoopType = Repeat | Once | FastForward

  /** What the loader reports about a clip: its natural duration, if it has one, and
      the clip's own length in seconds. */
  datatype Clip = Clip(duration: Option<real>, clipSeconds: real)

  /** `x2motion(type, url)`, an external call. */
  type MotionLoader = (AssetFormat, string) -> Clip

  /** A motion expression: the asset it was loaded from, its duration (milliseconds)
      and the catalog entry attached as its `metadata`, if any. */
  datatype MotionHandle = MotionHandle(
    format: AssetFormat,
    url: string,
    duration: Option<real>,
    clipSeconds: real,
    metadata: Option<EmotionAnimation>)

  function Materialize(loader: MotionLoader, format: AssetFormat, url: string): (h: MotionHandle)
    ensures h.format == format && h.url == url && h.metadata.None?
    ensures h.duration == loader(format, url).duration && h.clipSeconds == loader(format, url).clipSeconds
  {
    var clip := loader(format, url);
    MotionHandle(format, url, clip.duration, clip.clipSeconds, None)
  }

  /** `fromDistilbertGoEmotions({label, score}, duration)`; an absent label or score is
      the JavaScript `undefined` the caller passed. */
  datatype FaceHandle = FaceHandle(emotionLabel: Option<string>, score: Option<real>, durationMs: real)

  /** One `expressionManager.express({motionExpressions, faceExpressions, loopMotion})`
      call, made on the character whose uid is `owner`. */
  datatype ExpressCall = ExpressCall(owner: string, motions: seq<MotionHandle>, faces: seq<FaceHandle>, loop: LoopType)

  /** The `metadata` an emitted expression carries, read as the listener payload:
      `metaType` is whatever string the emitter put there. */
  datatype EventMetadata = EventMetadata(metaType: string, emotion: string, intensity: Tier, name: string)

  /** A value emitted by the stream: an expression, with or without metadata. */
  datatype ExpressionEvent = ExpressionEvent(metadata: Option<EventMetadata>)

  datatype StreamEvent = Next(value: ExpressionEvent) | Error(reason: string) | Complete

  /** How a stream's observed prefix ends. */
  datatype Termination = Completed | Errored(reason: string) | Open

  /** The values a subscriber's `next` handler receives: the leading `Next` events,
      since nothing is delivered after an error or a completion. */
  function Delivered(events: seq<StreamEvent>): (vs: seq<ExpressionEvent>)
    ensures |vs| <= |events|
    ensures forall i :: 0 <= i < |vs| ==> events[i] == Next(vs[i])
    ensures |vs| < |events| ==> !events[|vs|].Next?
  {
    if |events| == 0 then []
    else match events[0]
      case Next(v) => [v] + Delivered(events[1..])
      case _ => []
  }

  /** The first terminal signal of the stream, or `Open` when none arrived. */
  function Terminal(events: seq<StreamEvent>): (t: Termination)
    ensures t == Open <==> |Delivered(events)| == |events|
    ensures t == Completed <==> |Delivered(events)| < |events| && events[|Delivered(events)|] == Complete
    ensures t.Errored? <==> |Delivered(events)| < |events| && events[|Delivered(events)|].Error?
    ensures t.Errored? ==> events[|Delivered(events)|] == Error(t.reason)
  {
    if |events| == 0 then Open
    else match events[0]
      case Next(_) => Terminal(events[1..])
      case Error(reason) => Errored(reason)
      case Complete => Completed
  }

  datatype PromiseState = Pending | Resolved | Rejected(reason: string)

  /** The state of a promise that a stream subscription resolves on the first `next`
      and, when `rejectsOnError`, rejects on `error`; whichever comes first wins. */
  function Settled(events: seq<StreamEvent>, rejectsOnError: bool): (p: PromiseState)
    ensures p == Resolved <==> |Delivered(events)| > 0
    ensures p.Rejected? <==> rejectsOnError && |Delivered(events)| == 0 && Terminal(events).Errored?
    ensures p.Rejected? ==> Terminal(events) == Errored(p.reason)
  {
    if |events| == 0 then Pending
    else match events[0]
      case Next(_) => Resolved
      case Error(reason) => if rejectsOnError then Rejected(reason) else Pending
      case Complete => Pending
  }
}
