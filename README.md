# ai-character: emotion-to-animation resolution and sequencing, in Dafny

This project models the core of the `ai-character` library. An `AICharacterManager`
drives a VRM avatar. It turns an emotion label and a raw intensity into a gesture
animation and a loop animation, which it picks from a catalog of emotion animations,
and it tracks what the avatar currently shows. A `ChainManager` indexes every
animation by name and turns a chain of named animations into prepared nodes. It then
plays them batch by batch, one batch per run of nodes that belong to the same character.

Modules, one per concern:

- `Wrappers`: `Option` and `Result`.
- `AnimationMetadata` (`src/repo/animations/AnimationMetadataType.ts`): the metadata
  record, with its tier (1, 2 or 3), its `motion`/`interaction` tag, the 28 viable
  emotions and the `bvh`/`fbx`/`vrma` asset formats.
- `Intensity`: `_normalizeIntensity`, which maps a raw number to a tier, and the
  0.332 scale that `setEmotionIntensity` and `prepareChain` multiply a tier by.
- `EmotionTopology`: the emotion table, as an ordered sequence of (name, sentiment)
  pairs, and `_getNearestEmotion`, the step toward `neutral`.
- `Catalog`: the emotion animation table (emotion → tier → entries), the interaction
  table's entry shape, and `_getExactViableEmotionAnimations`.
- `Resolver`: `_getClosestViableAnimation`, the recursive fallback search.
  `Math.random()` is a parameter `rnd` in [0, 1).
- `Playback`: opaque stand-ins for the playback engine. These are the motion loader
  (`x2motion`), motion and face handles, `express` calls, and the stream of
  `next`/`error`/`complete` events an `express` call returns. The module also gives
  what a subscriber sees of such a stream.
- `CharacterManager`: the `Character` class, with the `_current*` fields and the
  listener registry. It models `addEventListener`, `removeEventListener`,
  `_onExpressionUpdate`, `setEmotion`, `setEmotionIntensity` and
  `_getEmotionMotionChain`.
- `Chains`: the `ChainManager` class. It models the name index that the constructor
  builds, `prepareChain`, `playPreparedChain`, `playChain`, and the `chainManager`
  getter.

The character's listeners are identified by ids. A listener call is recorded as a
`Notification` in the character's `notified` log, so the order and number of calls
can be stated. A stream is a finite sequence of events that is handled in order. The
catalogs are parameters.

## Model

| member | source | states |
|---|---|---|
| AnimationMetadata.TagsDistinct | src/repo/animations/AnimationMetadataType.ts:2 | the two `metaType` tags are distinct strings, so `motion` and `interaction` metadata never mix |
| AnimationMetadata.NeutralIsViable | src/repo/animations/AnimationMetadataType.ts:12-40 | the enumeration lists every one of the 28 emotions exactly once, their labels are pairwise distinct, and `neutral` is one of them |
| AnimationMetadata.EmotionOf | src/repo/animations/AnimationMetadataType.ts:12-40 | reading a string as an emotion gives, when it gives anything, the emotion whose label is that string |
| AnimationMetadata.LabelRoundTrip | src/repo/animations/AnimationMetadataType.ts:12-40 | every emotion's label reads back as that emotion, so no two emotions share a label |
| Intensity.Ceil | src/AICharacterManager.ts:520-528 | `Math.ceil` as `-((-x).Floor)`: the least integer at or above x |
| Intensity.ClampToTier | src/AICharacterManager.ts:521-523 | `Math.min(3, Math.max(1, n))`: n itself inside 1..3, 1 below that range, 3 above it |
| Intensity.Normalize | src/AICharacterManager.ts:519-529 | a raw value whose triple is at most 1 gives tier 1; other values below 1 give the tier their triple rounds up to; values from 1 up to 3 are rounded up; values from 3 give 3 |
| Intensity.NormalizeFixesTiers | src/AICharacterManager.ts:519-523 | an input of 1, 2 or 3 comes back unchanged |
| Intensity.NormalizeCharacterization | src/AICharacterManager.ts:519-529 | for every real input, the exact set of inputs that gives each tier (both directions) |
| Intensity.NormalizeExtremes | src/AICharacterManager.ts:519-529 | inputs at or below 1/3 (including 0 and negatives) give 1; inputs at or above 3 give 3 |
| Intensity.NormalizeNotMonotone | src/AICharacterManager.ts:519-529 | the normaliser is not monotone: 0.9 gives 3 while 1 gives 1 |
| Intensity.TierRoundTrip | src/AICharacterManager.ts:222-231 | for every tier t, t × 0.332 normalises back to t |
| Intensity.ScaledTierRoundTrip | src/AICharacterManager.ts:222-231 | the raw value `setEmotionIntensity(x)` requests normalises back to the tier of x |
| Intensity.MetadataIntensityIsNormal | src/repo/animations/AnimationMetadataType.ts:6 | a metadata record's intensity is a fixed point of the normaliser |
| EmotionTopology.Position | src/AICharacterManager.ts:365 | the lookup `emotions[name]` finds the first row with that name, or reports that no row has it |
| EmotionTopology.Sentiment | src/AICharacterManager.ts:365 | `emotions[emotion]?.sentiment` is undefined exactly when no row has that name, and otherwise is the sentiment of the first row with that name |
| EmotionTopology.FirstBelow | src/AICharacterManager.ts:376-378 | the first row whose sentiment is strictly below s, or none if there is no such row |
| EmotionTopology.LastAbove | src/AICharacterManager.ts:372-374 | the last row whose sentiment is strictly above s, or none if there is no such row |
| EmotionTopology.NearestEmotion | src/AICharacterManager.ts:364-381 | `neutral` for a missing emotion or a zero sentiment; otherwise `neutral` or a table name whose sentiment is strictly greater than the input's when the input is below neutral, and strictly smaller when it is at or above neutral |
| EmotionTopology.LastAboveIsPrevious | src/AICharacterManager.ts:372-374 | in a descending table, the last row above a row's sentiment is the row just before it |
| EmotionTopology.FirstBelowIsNext | src/AICharacterManager.ts:376-378 | in a descending table, the first row below a row's sentiment is the row just after it |
| EmotionTopology.NearestFromBelow | src/AICharacterManager.ts:370-374 | an emotion listed after `neutral` (negative sentiment) steps to the row just before it, whose sentiment is strictly greater |
| EmotionTopology.NearestFromAbove | src/AICharacterManager.ts:375-379 | an emotion listed before `neutral` (positive sentiment) steps to the row just after it, whose sentiment is strictly smaller |
| EmotionTopology.NearestDecreases | src/AICharacterManager.ts:364-381 | in a well-formed table, every step from an emotion other than `neutral` moves strictly closer to `neutral` |
| EmotionTopology.WalkToNeutral | src/AICharacterManager.ts:364-381 | the repeated steps from an emotion form a finite walk that starts at that emotion and ends at `neutral` |
| Catalog.Group | src/AICharacterManager.ts:509 | `emotionAnimations[emotion]` is present exactly when some group has that name, and then is the group of the first entry with that name |
| Catalog.ExactViable | src/AICharacterManager.ts:504-511 | the bucket exists exactly when the emotion has a group and that group has the normalised tier; it is that tier's list |
| Catalog.ExactViableAtTier | src/AICharacterManager.ts:504-511 | asked with a tier itself, the lookup reads exactly that tier's bucket |
| Catalog.BucketEntriesMatch | src/AICharacterManager.ts:504-511 | in a consistent catalog, each entry of a bucket carries that bucket's emotion and tier and the `motion` tag |
| Resolver.FilterViable | src/AICharacterManager.ts:393-396 | the filter keeps exactly the bucket entries of the requested motion type, and also requires `useAsFallback` in fallback mode |
| Resolver.Candidates | src/AICharacterManager.ts:389-397 | the entries one call may choose from are exactly the viable entries of the exact bucket |
| Resolver.DrawIndex | src/AICharacterManager.ts:402-404 | `Math.floor(Math.random() * n)` is an index below n |
| Resolver.DrawReachesEvery | src/AICharacterManager.ts:402-405 | every index below n is drawn by some value of `Math.random()` |
| Resolver.Pick | src/AICharacterManager.ts:398-405 | the chosen entry is one of the candidates |
| Resolver.PickReachesEvery | src/AICharacterManager.ts:398-405 | every candidate can be the one chosen |
| Resolver.NeutralNeverMisses | src/AICharacterManager.ts:407-415 | under the catalog precondition, the `neutral` tier-1 search always has a candidate |
| Resolver.ClosestViable | src/AICharacterManager.ts:383-434 | the result has the requested motion type; it is an exact-bucket candidate when one exists; at tier 1 in fallback mode or after a miss it has `useAsFallback`; in a consistent catalog its tier is never above the requested tier |
| Resolver.SameEmotionFirst | src/AICharacterManager.ts:427-432 | above tier 1 the answer comes from the highest tier at or below the request, of the same emotion, that has a match |
| Resolver.SameEmotionKept | src/AICharacterManager.ts:427-432 | in a consistent catalog, while a weaker tier of the same emotion matches, the answer keeps the emotion and has that tier |
| Resolver.OneTierDown | src/AICharacterManager.ts:426-431 | a miss above tier 1 gives the answer of the same emotion one tier lower, out of fallback mode |
| Resolver.DropsToTierOne | src/AICharacterManager.ts:407-432 | when no tier of the emotion at or below the request has a match, the answer is the tier-1 search's, and it is a fallback entry |
| Resolver.TierOneFollowsWalk | src/AICharacterManager.ts:407-415 | at tier 1 the answer comes from the first emotion on the walk toward `neutral` that has a match, and every step after the first is a fallback step |
| Playback.Materialize | src/AICharacterManager.ts:354-361 | a loaded motion keeps the asset format and url it was loaded from and the loader's duration and clip length, and (by assumption about the opaque loader) has no metadata until the caller attaches it |
| Playback.Delivered | src/managers/ChainManager.ts:184-199 | a subscriber's `next` handler receives exactly the leading `next` events, and nothing after an error or a completion |
| Playback.Terminal | src/managers/ChainManager.ts:191-199 | a stream ends open, completed or errored, according to the first event that is not `next` |
| Playback.Settled | src/managers/ChainManager.ts:184-194 | the promise resolves exactly when some event was delivered; it rejects only when errors reject it, nothing was delivered first, and the stream errored, and then with that error |
| CharacterManager.Without | src/AICharacterManager.ts:113-115 | filtering removes every occurrence of the listener, keeps every other listener, and never grows the list |
| CharacterManager.WithoutDistributes | src/AICharacterManager.ts:113-115 | filtering distributes over concatenation, so the kept listeners stay in their original order |
| CharacterManager.WithoutCounts | src/AICharacterManager.ts:113-115 | the removed listener has no occurrence left, and every other listener keeps all of its occurrences |
| CharacterManager.NotifyAll | src/AICharacterManager.ts:128-135 | `forEach` calls each registered listener once, in list order, with the same change |
| CharacterManager.AfterUpdate | src/AICharacterManager.ts:118-153 | one update never writes the target emotion, the face intensity or the voice; an event that is neither `motion` nor `interaction` changes nothing; a recognised event sets the tier and name it carries; only a `motion` event can change the current emotion |
| CharacterManager.UpdateEffects | src/AICharacterManager.ts:118-153 | a motion event sets emotion, tier and name and notifies with `motion`; an interaction event sets tier and name, keeps the emotion and notifies with `interaction`; any other event changes nothing and notifies nobody; the target emotion is never written |
| CharacterManager.UpdatesKeepTarget | src/AICharacterManager.ts:118-153 | no sequence of expression updates writes the target emotion |
| CharacterManager.ResolveMotion | src/AICharacterManager.ts:338-361 | one link's metadata is exactly the closest viable entry for the emotion, tier and motion type (not in fallback mode); the motion is loaded from that entry's format and url and keeps the loaded duration and clip length |
| CharacterManager.EmotionMotionChain | src/AICharacterManager.ts:334-362 | the chain is a gesture then a loop; each carries exactly the closest viable entry of its motion type at the normalised tier; in a consistent catalog neither is above that tier |
| CharacterManager.Character.constructor | src/AICharacterManager.ts:81-94 | defaults: voice `yui` unless one is given, emotion and target `neutral`, face intensity 0.5, tier 1, name `none`, no listeners |
| CharacterManager.Character.AssignCurrentEmotion | src/AICharacterManager.ts:77-79 | the setter writes the current emotion and nothing else |
| CharacterManager.Character.AddEventListener | src/AICharacterManager.ts:96-104 | the listener is appended to the end of that type's list, with duplicates kept; other types are untouched |
| CharacterManager.Character.RemoveEventListener | src/AICharacterManager.ts:106-116 | removing from an unregistered type changes nothing; otherwise the type's list becomes its filtered list |
| CharacterManager.Character.NotifyChange | src/AICharacterManager.ts:128-135 | the log grows by one call per registered `change` listener, in order |
| CharacterManager.Character.OnExpressionUpdate | src/AICharacterManager.ts:118-153 | the new state is the specified update of the old one, and the log grows by that update's listener calls |
| CharacterManager.Character.HandleStream | src/AICharacterManager.ts:203-209 | the subscription resolves on the first event, never rejects, and applies every delivered event in order |
| CharacterManager.Character.SetEmotion | src/AICharacterManager.ts:176-210 | the target is written before any event; the intensity defaults to the current tier; the `express` call has the given or built motions and faces, with FastForward; the promise resolves on the first event and never rejects |
| CharacterManager.Character.SetEmotionIntensity | src/AICharacterManager.ts:222-231 | an empty target falls back to the current emotion and is written back as the target; the `express` call is the `setEmotion` call for that target with the requested raw value, which normalises to the same tier as the argument; every delivered event is applied in order and notifies the `change` listeners; the listeners are unchanged |
| Chains.RegisterInteraction | src/managers/ChainManager.ts:68-76 | an interaction is stored in the one `undefined` slot, named entries are untouched, and a warning is logged when the slot was taken |
| Chains.RegisterEmotion | src/managers/ChainManager.ts:82-88 | the entry is stored under its name, every other name keeps its entry, and a warning is logged exactly when the name was taken |
| Chains.BuildIndex | src/managers/ChainManager.ts:65-91 | every named entry of the index is stored under its own name |
| Chains.InteractionsCollapse | src/managers/ChainManager.ts:68-76 | all interaction entries share the one undefined key: the last one is kept, named entries are untouched, and every insertion after the first warns |
| Chains.LastNamed | src/managers/ChainManager.ts:81-88 | the position of the last entry with a given name, or none when no entry has it |
| Chains.LastWriterWins | src/managers/ChainManager.ts:77-90 | a name is indexed exactly when it was indexed before or some entry has it; it maps to the last entry with that name |
| Chains.NamesPlusWarnings | src/managers/ChainManager.ts:81-88 | each insertion either adds a new name or logs one warning, never both |
| Chains.GroupEntriesCover | src/managers/ChainManager.ts:79-81 | one group's entries, in tier order, are exactly the entries of its buckets |
| Chains.CatalogEntriesCover | src/managers/ChainManager.ts:77-81 | the entries visited are exactly the entries of the catalog's buckets |
| Chains.IndexedNames | src/managers/ChainManager.ts:65-91 | a name is indexed exactly when some catalog entry has it, and maps to a catalog entry with that name; the undefined key holds the last interaction |
| Chains.ChainManager.RegisterBucket | src/managers/ChainManager.ts:81-89 | the loop over one tier's list leaves the index that registering the list's entries in order gives |
| Chains.ChainManager.RegisterGroup | src/managers/ChainManager.ts:79-90 | the loop over one group's tiers, 1 to 3, leaves the index that registering the group's entries in tier order gives |
| Chains.RoundHalfUp | src/managers/ChainManager.ts:144 | `Math.round`: the integer within half a unit, with halves rounding up |
| Chains.PrepareNode | src/managers/ChainManager.ts:125-155 | defaults: manager is the owner, loop is FastForward, duration is the loaded motion's, emotion is the entry's, score is tier × 0.332; the motion is loaded from the entry's format and url, keeps the loaded clip length and carries no metadata; the face lasts as long as the motion, or round(clip × 1000) ms when the motion has no duration |
| Chains.DefaultScoreKeepsTier | src/managers/ChainManager.ts:137 | the default face score normalises back to the entry's tier |
| Chains.PrepareChain | src/managers/ChainManager.ts:124-156 | preparation succeeds exactly when every name is indexed, and then keeps the chain's length and order node by node; otherwise it fails at the first unknown name |
| Chains.MotionsOf | src/managers/ChainManager.ts:164-170 | the motions of a run of nodes, in order |
| Chains.FacesOf | src/managers/ChainManager.ts:165-170 | the faces of a run of nodes, in order |
| Chains.BatchEnd | src/managers/ChainManager.ts:164-173 | the batch is the longest non-empty prefix whose managers share the head's uid; the remainder starts at a different uid |
| Chains.CollectBatch | src/managers/ChainManager.ts:164-173 | the loop collects the batch's motions and faces in chain order, and leaves the remainder of the chain |
| Chains.Runs | src/managers/ChainManager.ts:168 | a non-empty chain has between 1 and its length maximal same-uid runs |
| Chains.RunsCountsChanges | src/managers/ChainManager.ts:164-173 | the number of runs is one more than the number of adjacent nodes whose managers differ in uid |
| Chains.Play | src/managers/ChainManager.ts:158-199 | playing a non-empty chain makes at least one `express` call |
| Chains.PlayShape | src/managers/ChainManager.ts:158-199 | the first call uses the caller's loop on the head's character and later calls use FastForward; consecutive calls go to different characters; one call exactly when the chain is one batch or the first stream does not complete; never more calls than runs |
| Chains.MotionsOfSplit | src/managers/ChainManager.ts:164-173 | a batch followed by its remainder gives back the whole chain's motions and faces |
| Chains.PlayCoversChain | src/managers/ChainManager.ts:164-199 | if every stream completes, there is one call per run, and the calls together play every motion and face in chain order |
| Chains.Observe | src/managers/ChainManager.ts:181-201 | the delivered events go, in order, to the head's character and to no other; the first resolves; an error rejects unless already resolved; only `complete` continues; every tracked character's state, listeners and notification log follow the events delivered to it; the head's log is its old log plus the `change` listener calls of the delivered events |
| Chains.Deliver | src/managers/ChainManager.ts:184-190 | the `next` handler alone: the first event resolves and nothing rejects; the events go to the head's character alone; every tracked character's state, listeners and notification log follow the events delivered to it, and the head's log is its old log plus the `change` listener calls of the delivered events |
| Chains.EventsForDeliveries | src/managers/ChainManager.ts:184-190 | forwarding a stream's events to one character extends that character's events by them and no other character's |
| Chains.PlayBatch | src/managers/ChainManager.ts:163-201 | one round makes the batch's `express` call, observes its stream, and continues with the remainder only on completion; the stream's events are delivered to the head's character alone, and every tracked character's state, listeners and notification log follow the events delivered to it |
| Chains.ChainManager.constructor | src/managers/ChainManager.ts:65-91 | the index is the one built from the interactions first, then emotions, tiers and lists in order |
| Chains.ChainManager.PlayPreparedChain | src/managers/ChainManager.ts:158-203 | the calls are the batch-by-batch play of the chain; the promise settles on the first stream; each character ends in the state its delivered events lead to, keeps its listeners, and has its notification log grown by exactly the `change` listener calls of those events |
| Chains.ChainManager.PlayChain | src/managers/ChainManager.ts:205-208 | an unknown name rejects before any call and leaves every character's state, listeners and notification log as they were; otherwise the prepared chain is played, and each named character (and the owner) ends in the state its delivered events lead to, keeps its listeners, and has its notification log grown by exactly the `change` listener calls of those events |
| Chains.PreparedManagers | src/managers/ChainManager.ts:153 | a prepared chain's managers are the items' own managers or the owner |
| Chains.PlayTargetsManagers | src/managers/ChainManager.ts:184-199 | playing a chain delivers events only to the managers of its nodes |
| Chains.PlayOnlyTouchesManagers | src/managers/ChainManager.ts:184-199 | a character that manages no node of the chain receives no event |
| Chains.EventsForAbsent | src/managers/ChainManager.ts:189 | a character that no delivery targets receives no event |
| Chains.ChainManagerOf | src/AICharacterManager.ts:55-57 | every access to the getter builds a fresh manager owned by the character, with a freshly built index |

## Left out

- `say` (src/AICharacterManager.ts:259-332): speech synthesis, audio playback and mouth animation are I/O and foreign calls.
- `_setAnimation` (src/AICharacterManager.ts:451-491): it repeats the motion branch of `_onExpressionUpdate` around an external stream.
- Playback.Materialize: a freshly loaded motion is taken to carry no metadata. `x2motion` is opaque, so this is an assumption about it, not something the repository shows.
- `x2motion`, `express` and `fromDistilbertGoEmotions` are opaque. One loader function stands for the `x2motion` of every character's expression manager. An `express` call is recorded as a value, and its stream is a parameter.
- Promise and Observable timing are left out. The model has no concurrency, and overlapping calls do not race. The continuation that `playPreparedChain` starts on `complete` is not awaited by anyone, and the model runs it to the end of the given streams.
- `prepareChain` prepares the next node only after the current node's motion has loaded. This ordering has no effect on any modelled state, so the model does not state it.
- `Math.random()` is a parameter in [0, 1). The `uid` that `crypto.randomUUID()` makes is a constructor argument.
- NaN, infinities and floating-point rounding are left out. Raw intensities and durations are reals.
- Listener bodies are left out. A listener is an id, and a call to it is a `Notification`. A listener that throws would stop the `forEach`; the model does not capture this.
- `console.warn` and `console.error` are left out. The index keeps only a count of duplicate-name warnings.
- src/repo/animations/emotions.ts and src/repo/voices.ts are not part of this model. The emotion table and the emotion animation catalog are parameters. An emotion animation entry's shape (`motionType`, `useAsFallback`) follows how the resolver reads it.
- src/repo/animations/interactions.ts is data only. It contributes only the shape of an interaction entry (`key`, `url`, `motion`, `type`), which has no `name`. Its individual entries, such as `squatting` with key `airSquat`, are not modelled.
- EmotionTopology.NearestEmotion: requires that `neutral` be in the table. The source throws on a missing `neutral` only when the emotion has a nonzero sentiment.
- Resolver.ClosestViable: requires a well-formed emotion table and a `neutral` tier-1 bucket with a fallback entry of each motion type. Without this, the source's recursion need not end.
- Resolver.ClosestViable: the second-nearest-emotion branch (src/AICharacterManager.ts:417-425) runs only when the recursive call returns nothing. That call always returns an entry, so the branch is unreachable and is not modelled.
- CharacterManager.Character.SetEmotion: the requires asks for well-formed tables only when no motion override is given. Those tables are what `_getEmotionMotionChain` needs in order to return.
- CharacterManager.Character.SetEmotionIntensity: the `?? "neutral"` default is not modelled. The current emotion is always a string, so that default never applies.
- Chains.PrepareChain: an unknown name fails with a fixed reason that stands for the runtime `TypeError` of reading `.type` from `undefined`.
- Chains.PrepareNode: the per-item `loop` is stored in the prepared node, but playback ignores it, as the source does.
- An object literal with a repeated key keeps the last value. The catalog and the emotion table are sequences read by first match, so they agree with the object only when names are distinct, as the repository's tables are.
- Interaction metadata on a stream event is read with the same fields as motion metadata. The event's tier and name are the values the emitter attached.
