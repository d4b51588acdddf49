# modular-motion keyframe bookkeeping, in Dafny

modular-motion is a Blender add-on. A user script moves "mobjects" (groups
of prefixed Blender objects) around a stage. The add-on records those moves
as keyframes on Blender's timeline. This project models the keyframe
bookkeeping that sits between the user calls and Blender, and proves what it
does.

It covers four parts:

- **Action segmentation** (`generate_actions`). The keyed span of a base
  animation is cut into `floor((last - first) / width)` windows of equal
  width. A channel (fcurve) is an *actor* of a window when a scan finds two
  of its keyframes inside the closed window. The scan skips points before
  the window and stops at the first point past it.
- **Action retargeting** (`ActionAnimation.apply_animation`). For every
  actor, keyframes before the window start are skipped. Every remaining
  keyframe, up to the end of the curve, is then copied: the base value is
  assigned first, then a keyframe is inserted at the time `interp` maps it
  to.
- **Two-phase staging** (`Mobject.animate`, `set_prop_value`, `customize`,
  `dump_planned_keyframes`, the custom properties, and `Stage.play` /
  `Stage.wait`).
  - In direct mode a write keys the property one frame before the current
    time, assigns it, and keys it again at the current time.
  - In animate mode a write queues a capturing *start* entry and a valued
    *end* entry instead.
  - `play` dumps each animatable in turn. It commits that animatable's
    start entries at the current time, then its end entries `duration`
    later, and advances the clock once.
- **Prefix reservation** (`reserve_original_prefix`) and the stage's two
  naming conventions: the ` [stage_prefix]` collection suffix, and the
  `\[.+\]` marker name.

Blender itself is the class `Timeline.Host`. It holds a map from channel
(data-block and property path) to current value, and an append-only log of
keyframe insert calls. Each log entry records the channel, the frame and the
value the property held when the insert was made. The log is not Blender's
set of keys: a later insert on the same channel at the same frame replaces
Blender's key but adds a second log entry. `set_value_by_prop_path` and
`keyframe_insert` are its two methods. Everything the core writes goes
through them, so every stateful method is specified as `Run(old state,
<ops>)`, where `<ops>` is a function of the inputs. What those operations leave in the log is proved
separately.

The model follows the code where the code and the intended design differ:

- Retargeting copies every keyframe from the window start to the end of the
  curve. Keyframes after the window end are copied too, and land after the
  target window (`Actions.RemappedPlacement`). Tangent handles are not
  copied.
- The actor scan is modelled exactly, including its early exits. The
  channels are not assumed sorted: `Actions.ScanSound` holds for any
  channel, and `Actions.ScanComplete` / `Actions.ActorsInSorted` need
  sorted channels.
- `play` orders start before end per animatable, not across all
  animatables.
- An animatable passed to `play` twice yields its queue only on the first
  dump (`Scene.Dumps`).
- `shift` calls `move_to`, which adds the stage origin once more. The
  origin is a class attribute that a stage subclass may override
  (core/stage.py:31), so the stage constructor takes it as an argument.
  With a non-zero origin, `shift` writes current location + offset +
  origin, counting the origin a second time (`Scene.Mobject.Shift`). Only
  the default zero origin makes `shift` a plain offset.
- Every mobject keeps its queue well staged (`Scene.Mobject.Valid`): each
  start entry captures and each end entry carries a value. `play` requires
  this of its arguments, so every queue it commits is logged as
  `Planning.CommitLog` states.

Module layout:

| file | module | source |
|---|---|---|
| wrappers.dfy | Wrappers | `Option`, and `Outcome` for methods that can fail |
| strings.dfy | Strings | `str(n)`, `zfill(2)`, `startswith` |
| timeline.dfy | Timeline | the host: values, keyframe log, the two host operations |
| utils.dfy | Utils | core/utils.py: `interp` (assumed linear), `reserve_original_prefix` |
| planning.dfy | Planning | planned keyframes and the order `play` commits them in |
| actions.dfy | Actions | core/mobject/action.py (also core/mobject.py:480-680) |
| stage_names.dfy | StageNames | the string conventions of core/stage.py |
| staging.dfy | Staging | what one mobject write does, as values; the marker index |
| scene.dfy | Scene | the classes `Stage`, `Mobject`, `SimpleCustomMobjectProperty` |

The staging methods exist in three copies: core/mobject/mobject.py,
core/mobject/__init__.py:57-250 and core/mobject.py:171-355. The custom
properties exist in three copies too: core/mobject/custom_mobject_prop.py,
core/mobject/__init__.py:252-371 and core/mobject.py:358-477. Segmentation
and retargeting exist twice: core/mobject/action.py and
core/mobject.py:518-680. Each is modelled once, and the table below cites
the first file.

## Model

| member | source | states |
|---|---|---|
| Strings.NatToStringDigits | core/utils.py:52 | `str(counter)` consists of decimal digits only |
| Strings.NatToStringLength | core/utils.py:54-56 | a counter of at least 10^k has more than k digits, so its candidate outgrows every line of length k |
| Strings.ZFill2Shape | core/utils.py:52 | `zfill(2)` pads with '0' up to width two and keeps the digits as the tail |
| Timeline.Host.SetValueByPropPath | core/mobject/action.py:73 | assigning a property changes that property only and adds no log entry |
| Timeline.Host.KeyframeInsert | core/mobject/action.py:74-84 | an insert appends one log entry holding the property's current value and changes no value |
| Utils.Interp | core/mobject/custom_mobject_prop.py:97-98 | ASSUMED linear map: sends `a` to `c` and `b` to `d` (the body of `interp` is not part of this model) |
| Utils.InterpMonotone | core/mobject/action.py:77-83 | with an increasing base window the re-mapping is monotone, and strictly monotone for an increasing target window |
| Utils.IsPrefixReservedMeans | core/utils.py:48-49 | `is_prefix_reserved(p)` holds exactly when some registry line starts with `p` |
| Utils.CandidateShape | core/utils.py:52 | a candidate starts with the base prefix and ends in at least two decimal digits |
| Utils.LongCandidateIsFree | core/utils.py:54-56 | some counter's candidate is free, so the search terminates |
| Utils.FindOriginalPrefix | core/utils.py:51-56 | the search returns `base + zfill2(str(counter))`, which no line starts with, while every smaller counter's candidate is reserved |
| Utils.ReservationExcludes | core/utils.py:48-58 | once a prefix is appended, a later search can return neither it nor any prefix of it, so two calls never return the same prefix |
| Utils.PrefixRegistry.ReserveOriginalPrefix | core/utils.py:17-60 | the header is written only when the registry is absent; exactly one line, the result, is appended; the result is free and minimal in the registry as it was before |
| Planning.StagedChangeWellStaged | core/mobject/mobject.py:204-211 | appending a start/None entry then an end/value entry keeps a queue well staged |
| Planning.OfKindPartition | core/stage.py:104-105 | the start filter and the end filter together hold every queue entry exactly once |
| Planning.OfKindValues | core/stage.py:108-116 | in a well-staged queue every start entry captures and every end entry carries a value |
| Planning.CapturesRun | core/stage.py:108-116 | committing start entries assigns nothing and logs, in queue order, the value each property held before |
| Planning.RecordsRun | core/stage.py:110-116 | committing end entries logs, in queue order, each entry's own value at the end frame |
| Planning.CommitLog | core/stage.py:99-116 | one animatable's commit logs all start captures at `t0` (values from before the commit) and then all end values at `t1`; no end assignment reaches a start capture |
| Planning.EntryOpsInserts | core/stage.py:113-116 | each committed entry issues exactly one keyframe insert |
| Planning.PlayLogGrows | core/stage.py:95-117 | `play` appends exactly one insert log entry per dumped entry and leaves earlier log entries untouched |
| Actions.FirstTimeIsEarliest | core/mobject/action.py:163-166 | the first time is at most every channel's first keyframe time and is one of them or the sentinel 9999999 |
| Actions.LastTimeIsLatest | core/mobject/action.py:168-170 | the last time is at least every channel's last keyframe time and is one of them or the sentinel -9999999 |
| Actions.NoChannelsNoWindows | core/mobject/action.py:127-178 | with no animated channel the sentinels make the window count negative, so no action is produced |
| Actions.ScanSound | core/mobject/action.py:193-202 | a channel the scan selects has at least two keyframe times in the closed window, sorted or not |
| Actions.ScanComplete | core/mobject/action.py:193-202 | on a sorted channel the early exits lose nothing: two points in the window make the scan succeed |
| Actions.ScanChannel | core/mobject/action.py:184-202 | the counting loop with `continue` and `break` computes the scan; it implies two points in the window, and is equivalent to it on a sorted channel |
| Actions.ActorsInSorted | core/mobject/action.py:183-215 | for sorted channels the actors are exactly the channels with two keyframe times in the window, in channel order, each with data path `path[index]` |
| Actions.WindowsAbut | core/mobject/action.py:180-181 | window i has width `width` and ends where window i + 1 starts |
| Actions.KeyedSpan | core/mobject/action.py:163-170 | the first loop computes the running minimum of first times and the running maximum of last times |
| Actions.WindowActors | core/mobject/action.py:183-215 | the channel loop collects the actors of one window in channel order |
| Actions.GenerateActions | core/mobject/action.py:126-217 | exactly `max(0, floor((last - first) / width))` actions, action i covering `[first + width*i, first + width*(i+1)]` with that window's actors, empty windows included (also core/mobject.py:518-609) |
| Actions.CopyStart | core/mobject/action.py:62-70 | the copy starts at the first keyframe whose time is not before the window start; every earlier one is before it |
| Actions.SkipBefore | core/mobject/action.py:62-70 | the skip loop stops exactly at that first keyframe |
| Actions.Remapped | core/mobject/action.py:72-85 | one insert log entry per copied point, at its re-mapped time, holding its base value |
| Actions.CopyRun | core/mobject/action.py:72-85 | running the copy appends exactly the re-mapped log entries and leaves the property at the last copied value |
| Actions.RemappedPlacement | core/mobject/action.py:77-83 | points inside the base window land inside the target window, points after it land after it, and sorted points stay sorted |
| Actions.CopyKeyframes | core/mobject/action.py:72-85 | the copy loop issues, per point to the end of the curve, the assignment of its value then the insert at its re-mapped time |
| Actions.ApplyAnimation | core/mobject/action.py:51-85 | per actor in order, on data-block `prefix + "." + name` of the actor's scope, the copy from the first point not before the window start (also core/mobject.py:646-680) |
| StageNames.StagePrefixCollectionName | core/stage.py:77 | the recording collection is the prefix followed by the 15-character suffix ` [stage_prefix]` |
| StageNames.StagePrefixRoundTrip | core/stage.py:69-77 | `name[:-15]` of the collection a stage records gives its prefix back |
| StageNames.StagePrefixRecovered | core/stage.py:69-71 | a name yields a prefix exactly when it is some prefix's collection name, and then that collection's |
| StageNames.MatchAt | core/stage.py:51-53 | at a position the greedy `\[.+\]` match ends at the last `]` on the line at least two places on, or there is none |
| StageNames.FirstMatch | core/stage.py:51-53 | `re.search` finds the leftmost match, longest at that start |
| StageNames.PreviousStagePrefix | core/stage.py:69-71 | a collection yields a previous prefix exactly when its name ends with ` [stage_prefix]`, and that prefix followed by the suffix is the name |
| StageNames.MarkerName | core/stage.py:53-58 | with no `\[.+\]` match the whole object name is used; otherwise the name is either the object name or the text inside some match |
| StageNames.MarkerNameMatch | core/stage.py:53-58 | the marker name is the text inside the leftmost match, running to the farthest `]` the greedy `.+` reaches from that start, or the whole object name when nothing matches |
| StageNames.NoBracketWholeName | core/stage.py:57-58 | a name without `[` is used whole |
| StageNames.TaggedName | core/stage.py:55-56 | `head[tag]` with no bracket in `head` is filed under `tag` |
| Staging.DirectWriteRun | core/mobject/mobject.py:213-217 | a direct write keys the old value one frame before the current time and the new value at it, and leaves the new value assigned |
| Staging.WriteEffectModes | core/mobject/mobject.py:202-218 | animate mode appends exactly [start/None, end/value] and writes nothing; direct mode queues nothing and performs the direct write |
| Staging.MappedValue | core/mobject/custom_mobject_prop.py:104-108 | mapping i is used only when it exists and is present; it sends the domain ends to the range ends, otherwise the raw value is used |
| Staging.PlannedForShape | core/mobject/custom_mobject_prop.py:114-131 | animate mode returns 2n entries, start/None then end/mapped value per path in path order, on object `prefix + "." + path[0]` at `path[1:]` |
| Staging.DirectOpsForRun | core/mobject/custom_mobject_prop.py:133-137 | direct mode keys every path twice in path order, at `t - 1` and at `t` with the mapped value |
| Staging.MarkerIndexKeys | core/stage.py:52-59 | every marker object is reachable under its marker name |
| Staging.MarkerIndexLast | core/stage.py:52-59 | each marker name holds the last object carrying that name |
| Scene.IndexMarkers | core/stage.py:50-59 | the marker loop builds that index |
| Scene.WriteEntry | core/stage.py:113-116 | one entry: assign only when it carries a value, then insert |
| Scene.CommitKind | core/stage.py:105-116 | the entries of one kind, in queue order, all at one frame |
| Scene.Commit | core/stage.py:104-116 | all start entries at `t0`, then all end entries at `t1` |
| Scene.DirectWrite | core/mobject/mobject.py:215-217 | insert at `t - 1`, assign, insert at `t` |
| Scene.DumpAndCommit | core/stage.py:97-116 | one iteration of `play`: the dumped queue is committed and the mobject is left flushed |
| Scene.CommitAll | core/stage.py:95-116 | every argument is dumped once, in order; every dumped queue is well staged; the host receives the commits of the dumped queues one after the other; every argument ends with an empty queue and animate mode off |
| Scene.Stage.constructor | core/stage.py:31-78 | origin as given (the class attribute or a subclass override); markers indexed by marker name; prefix reserved from `_M.S` (free and minimal); its collection named with the suffix; clock at zero |
| Scene.Stage.Play | core/stage.py:85-117 | the commits as above at `curr_time` and `curr_time + duration`, each of a well-staged queue; the clock advances by `duration` once; nothing else of the stage changes |
| Scene.Stage.Wait | core/stage.py:119-120 | the clock advances by `duration`; nothing else changes |
| Scene.Mobject.constructor | core/mobject/mobject.py:54-56 | prefix reserved from `<stage prefix>.MOB`; empty queue, animate mode off; the queue invariant `Valid()` holds |
| Scene.Mobject.Animate | core/mobject/mobject.py:155-165 | animate mode on, same mobject returned, queue unchanged |
| Scene.Mobject.DumpPlannedKeyframes | core/mobject/mobject.py:167-181 | returns the queue, which is well staged, leaves it empty and animate mode off, so a second dump returns nothing (also core/mobject/__init__.py:174-188, core/mobject.py:280-294) |
| Scene.Mobject.SetPropValue | core/mobject/mobject.py:183-218 | the write on `prefix + "." + obj_name` in the current mode; the queue stays well staged (also core/mobject/__init__.py:190-225, core/mobject.py:296-331) |
| Scene.Mobject.MoveTo | core/mobject/mobject.py:58-72 | writes location plus stage origin to the origin object |
| Scene.Mobject.Shift | core/mobject/mobject.py:74-88 | writes current location + offset + stage origin |
| Scene.Mobject.SetRotation | core/mobject/mobject.py:90-104 | writes the Euler rotation |
| Scene.Mobject.Rotate | core/mobject/mobject.py:106-120 | writes the given rotation added to the current one |
| Scene.Mobject.SetScale | core/mobject/mobject.py:122-136 | writes the scale |
| Scene.Mobject.Scale | core/mobject/mobject.py:138-153 | writes the current scale multiplied component-wise by the given one |
| Scene.Mobject.Customize | core/mobject/mobject.py:220-242 | unknown name fails; in animate mode an unanimatable property fails before anything is queued, otherwise its planned entries are appended (the queue stays well staged) and its mode is back off; no custom property's paths, mappings, animatability or mobject change, and no other property's mode changes; in direct mode the property writes in its own mode (also core/mobject/__init__.py:227-250, core/mobject.py:333-355) |
| Scene.SimpleCustomMobjectProperty.constructor | core/mobject/custom_mobject_prop.py:65-81 | paths and animatability as given, no mapping, animate mode off |
| Scene.SimpleCustomMobjectProperty.SetAnimateMode | core/mobject/custom_mobject_prop.py:52-55 | fails whenever the property is unanimatable, even for `mode=False`, leaving the mode; otherwise sets it (also core/mobject.py:392-396) |
| Scene.SimpleCustomMobjectProperty.SetMappings | core/mobject/custom_mobject_prop.py:83-95 | replaces the mappings and returns the same property |
| Scene.SimpleCustomMobjectProperty.SetValue | core/mobject/custom_mobject_prop.py:100-137 | animate mode returns the planned entries, well staged, and writes nothing; direct mode returns nothing and writes every path (also core/mobject/__init__.py:334-371, core/mobject.py:440-477) |

## Left out

- Blender object construction is not modelled: duplication, parenting,
  renaming and clearing keys, in core/mobject/based_mobject.py and
  core/mobject.py:93-167. Walking objects and shape keys to collect fcurves
  (core/mobject/action.py:131-160) is replaced by the `anims` argument of
  `GenerateActions`.
- Deleting the stage collection's objects and sub-collections
  (core/stage.py:61-74) is host-side scene mutation and is not modelled.
  Only the suffix test and the `[:-15]` strip are kept.
- Timeline.Host: the log records insert calls, not Blender's keys. In
  Blender a later insert on the same channel at the same frame supersedes
  the earlier key, so two writes to one property in a single animate block
  leave one end key (the second value), and a direct write at the end frame
  after `play` replaces the animation's end key. The model does not merge
  such entries: its log keeps both.
- Scene.Mobject.constructor: `custom_properties` is only annotated, never
  assigned, in the original (core/mobject/mobject.py:29). A subclass
  declares its properties; the constructor's empty map stands for a
  subclass that declares none, and a model client adds properties by
  assigning the field.
- Scene.Stage.Play and Actions.GenerateActions: the Python defaults
  `duration=24` (core/stage.py:85) and `width=30`
  (core/mobject/action.py:126) are not modelled; callers pass both
  explicitly.
- Scene.Stage.constructor: `release_prefix` is not part of this model. The
  constructor's `registry` argument stands for the registry after
  `Stage.__init__` has released the prefixes recorded by earlier stages
  (core/stage.py:69-72). The model therefore does not show a released
  prefix such as `_M.S00` being reserved again.
- Timeline.Host: a vector property and its component paths (`location` and
  `location[0]`) are separate channels, and writing one leaves the other
  unchanged. Blender aliases them. After an action copies a value into
  `location[0]`, a later direct write on `location` keys, at `t - 1`, a
  vector holding that component in Blender, where the model logs the
  vector's earlier value. Component aliasing is not modelled.
- `Marker` geometry (core/stage.py:132-135) needs world matrices. A marker
  is represented by its object name.
- `rotate` in core/mobject/__init__.py:109-127 composes rotation matrices and
  is not modelled. `Scene.Mobject.Rotate` follows the additive
  core/mobject/mobject.py version.
- `data_path_to_prop_path` and `prop_path_to_data_path` are not part of
  this model. `ApplyAnimation` takes the conversion as a function argument.
  A data path and its property path address the same channel, and no round
  trip is claimed.
- Utils.Interp: the body of `interp` is not part of this model. It is
  assumed to be the linear map through (a, c) and (b, d), and it requires
  `a != b`.
- Actions.ApplyAnimation requires `baseStart != baseEnd` and
  Scene.SimpleCustomMobjectProperty.SetValue requires `Valid()` for the
  same reason: the division inside `interp`. `Valid()` asks this only of
  the mappings `set_value` reads, one per extended path; mappings past the
  last path may be anything.
- Scene.SimpleCustomMobjectProperty.SetValue: `Valid()` also requires every
  extended path to be non-empty. The original fails with an `IndexError`
  on `e_prop_path[0]` there, and that error path is not modelled.
- Scene.Mobject.Customize requires the named property to be `Valid()`, for
  the same reasons.
- Actions.GenerateActions requires every channel to have a keyframe. The
  original reads `keyframe_points[0]` and fails on an empty curve. It also
  requires `width > 0`.
- Scene.Mobject.Shift, Scene.Mobject.Rotate and Scene.Mobject.Scale require
  the origin object's current value to be present and a vector. Blender
  objects always have one, and the host map only knows values the core
  wrote or was started with.
- Lookups of `bpy.data.objects[...]` that raise `KeyError` are not
  modelled: every named object is assumed to exist.
- The `UndefinedStageColl` check of `Stage.__init__` is not modelled.
- The `post` argument of `reserve_original_prefix` is never read by its
  body, so it is not modelled.
- Blender keeps an empty last line in the text block after `from_string`.
  No non-empty prefix is a prefix of it, so it is left out of the
  registry lines.
- Custom property values are reals, and property values are reals or
  3-vectors. Floating-point rounding is not modelled: times and values are
  exact reals.
- Python class attributes shared across instances (`markers`, `_mappings`,
  `_in_animate_mode`) are modelled as fresh per-instance fields.
- The `Mobject.__init__` of core/mobject/mobject.py and
  core/mobject/__init__.py never assigns `_planned_keyframes`.
  The model starts the queue empty, as core/mobject.py:89 and
  core/mobject/based_mobject.py:44 do.
- `CustomPropertyUnanimatable` is not defined in core/errors.py. It is
  modelled as the `CustomPropertyUnanimatable` failure of `Outcome`.
- `dumped` in `Play`, `CommitAll` and `DumpAndCommit` is ghost. It names
  what each dump returned, for the specification only.
