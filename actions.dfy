/** Actions: fixed-width windows of a base animation, the channels ("actors")
    that move inside each window, and the replay of a window onto a new time
    range (`generate_actions` and `ActionAnimation.apply_animation` in
    core/mobject/action.py, the same code as in core/mobject.py). */
module Actions {
  import opened Strings
  import opened Timeline
  import opened Utils
  import opened Wrappers

  /** A keyframe point's `co`: (time, value). */
  datatype KeyPoint = KeyPoint(time: real, value: real)

  /** An fcurve: the animated data path, its component index and its points. */
  datatype FCurve = FCurve(dataPath: string, arrayIndex: nat, points: seq<KeyPoint>)

  /** `_AnimData`: an fcurve with the data-block that owns it. */
  datatype AnimData = AnimData(root: Target, fcurve: FCurve)

  /** `Actor`: an fcurve that moves inside an action's window. */
  datatype Actor = Actor(root: Target, baseFcurve: FCurve, dataPath: string)

  /** `ActionAnimation`: the window [baseStart, baseEnd] and its actors. */
  datatype Action = Action(actors: seq<Actor>, baseStart: real, baseEnd: real)

  /** The accumulators' initial values in `generate_actions`. */
  const NoFirstTime: real := 9999999.0
  const NoLastTime: real := -9999999.0

  predicate Sorted(points: seq<KeyPoint>) {
    forall i, j :: 0 <= i < j < |points| ==> points[i].time <= points[j].time
  }

  predicate AllKeyed(anims: seq<AnimData>) {
    forall k :: 0 <= k < |anims| ==> |anims[k].fcurve.points| > 0
  }

  /** The running minimum of the channels' first keyframe times, starting from
      the sentinel. */
  function FirstTime(anims: seq<AnimData>): real
    requires AllKeyed(anims)
  {
    if anims == [] then NoFirstTime
    else
      var t := anims[|anims| - 1].fcurve.points[0].time;
      var m := FirstTime(anims[..|anims| - 1]);
      if t < m then t else m
  }

  /** The running maximum of the channels' last keyframe times, starting from
      the sentinel. */
  function LastTime(anims: seq<AnimData>): real
    requires AllKeyed(anims)
  {
    if anims == [] then NoLastTime
    else
      var pts := anims[|anims| - 1].fcurve.points;
      var t := pts[|pts| - 1].time;
      var m := LastTime(anims[..|anims| - 1]);
      if t > m then t else m
  }

  /** The first time is the earliest first keyframe over all channels (or the
      sentinel when it is earlier than all of them). */
  lemma {:induction false} FirstTimeIsEarliest(anims: seq<AnimData>)
    requires AllKeyed(anims)
    ensures FirstTime(anims) <= NoFirstTime
    ensures forall k :: 0 <= k < |anims| ==> FirstTime(anims) <= anims[k].fcurve.points[0].time
    ensures FirstTime(anims) == NoFirstTime
         || exists k :: 0 <= k < |anims| && FirstTime(anims) == anims[k].fcurve.points[0].time
  {
    if anims != [] {
      var init := anims[..|anims| - 1];
      FirstTimeIsEarliest(init);
      assert forall k :: 0 <= k < |init| ==> init[k] == anims[k];
    }
  }

  /** The last time is the latest last keyframe over all channels (or the
      sentinel when it is later than all of them). */
  lemma {:induction false} LastTimeIsLatest(anims: seq<AnimData>)
    requires AllKeyed(anims)
    ensures LastTime(anims) >= NoLastTime
    ensures forall k :: 0 <= k < |anims| ==>
      LastTime(anims) >= anims[k].fcurve.points[|anims[k].fcurve.points| - 1].time
    ensures LastTime(anims) == NoLastTime
         || exists k :: 0 <= k < |anims| && LastTime(anims) == anims[k].fcurve.points[|anims[k].fcurve.points| - 1].time
  {
    if anims != [] {
      var init := anims[..|anims| - 1];
      LastTimeIsLatest(init);
      assert forall k :: 0 <= k < |init| ==> init[k] == anims[k];
    }
  }

  /** `floor((last - first) / width)`; negative when there is nothing to cut. */
  function WindowCount(anims: seq<AnimData>, width: real): int
    requires AllKeyed(anims) && width > 0.0
  {
    ((LastTime(anims) - FirstTime(anims)) / width).Floor
  }

  /** With no animated channel the sentinels make the count negative, so no
      action is produced. */
  lemma NoChannelsNoWindows(width: real)
    requires width > 0.0
    ensures WindowCount([], width) < 0
  {
    assert (NoLastTime - NoFirstTime) / width < 0.0;
  }

  /** How many keyframe times lie in the closed window [start, end]. */
  function CountIn(points: seq<KeyPoint>, start: real, end: real): nat {
    if points == [] then 0
    else (if start <= points[0].time <= end then 1 else 0) + CountIn(points[1..], start, end)
  }

  /** The actor scan of `generate_actions`, having already counted `seen`
      points in the window: skip points before the window, stop at the first
      point past it, succeed at the second point inside it. */
  function Scan(points: seq<KeyPoint>, start: real, end: real, seen: nat): bool
    decreases |points|
  {
    if points == [] then false
    else if points[0].time < start then Scan(points[1..], start, end, seen)
    else if points[0].time > end then false
    else if seen + 1 >= 2 then true
    else Scan(points[1..], start, end, seen + 1)
  }

  /** An actor always has two points in its window, sorted or not. */
  lemma {:induction false} ScanSound(points: seq<KeyPoint>, start: real, end: real, seen: nat)
    requires Scan(points, start, end, seen)
    ensures seen + CountIn(points, start, end) >= 2
    decreases |points|
  {
    if points[0].time < start {
      ScanSound(points[1..], start, end, seen);
    } else if seen + 1 < 2 {
      ScanSound(points[1..], start, end, seen + 1);
    }
  }

  lemma {:induction false} NoneInWindowAfterEnd(points: seq<KeyPoint>, start: real, end: real)
    requires Sorted(points) && points != [] && points[0].time > end
    ensures CountIn(points, start, end) == 0
    decreases |points|
  {
    if |points| > 1 {
      assert points[1].time >= points[0].time;
      NoneInWindowAfterEnd(points[1..], start, end);
    }
  }

  /** On a sorted channel the early exits lose nothing: the scan finds every
      channel that has two points in the window. */
  lemma {:induction false} ScanComplete(points: seq<KeyPoint>, start: real, end: real, seen: nat)
    requires Sorted(points) && seen <= 1 && seen + CountIn(points, start, end) >= 2
    ensures Scan(points, start, end, seen)
    decreases |points|
  {
    if points[0].time < start {
      ScanComplete(points[1..], start, end, seen);
    } else if points[0].time > end {
      NoneInWindowAfterEnd(points, start, end);
    } else if seen + 1 < 2 {
      ScanComplete(points[1..], start, end, seen + 1);
    }
  }

  /** The actor loop of `generate_actions` for one channel and one window. */
  method ScanChannel(points: seq<KeyPoint>, start: real, end: real) returns (isActor: bool)
    ensures isActor == Scan(points, start, end, 0)
    ensures isActor ==> CountIn(points, start, end) >= 2
    ensures Sorted(points) ==> (isActor <==> CountIn(points, start, end) >= 2)
  {
    isActor := false;
    var count: nat := 0;
    var k := 0;
    while k < |points|
      invariant 0 <= k <= |points| && count <= 1 && !isActor
      invariant Scan(points, start, end, 0) == Scan(points[k..], start, end, count)
    {
      if points[k].time < start {
        k := k + 1;
        continue;
      }
      if points[k].time > end {
        break;
      }
      count := count + 1;
      if count >= 2 {
        isActor := true;
        break;
      }
      k := k + 1;
    }
    if isActor {
      ScanSound(points, start, end, 0);
    } else if Sorted(points) && CountIn(points, start, end) >= 2 {
      ScanComplete(points, start, end, 0);
    }
  }

  /** The actor recorded for a channel: its owner, the fcurve, and the data
      path with the component index appended as `[<index>]`. */
  function ActorOf(a: AnimData): Actor {
    Actor(a.root, a.fcurve, a.fcurve.dataPath + "[" + NatToString(a.fcurve.arrayIndex) + "]")
  }

  /** The actors of window [start, end], in channel order, as the scan picks them. */
  function ActorsIn(anims: seq<AnimData>, start: real, end: real): seq<Actor> {
    if anims == [] then []
    else
      var a := anims[|anims| - 1];
      ActorsIn(anims[..|anims| - 1], start, end)
        + (if Scan(a.fcurve.points, start, end, 0) then [ActorOf(a)] else [])
  }

  /** The actors by the plain rule: the channels with at least two keyframe
      times in the closed window, in channel order. */
  function ActorsByCount(anims: seq<AnimData>, start: real, end: real): seq<Actor> {
    if anims == [] then []
    else
      var a := anims[|anims| - 1];
      ActorsByCount(anims[..|anims| - 1], start, end)
        + (if CountIn(a.fcurve.points, start, end) >= 2 then [ActorOf(a)] else [])
  }

  /** For sorted channels the scan selects exactly the channels with at least
      two keyframe times in the window. */
  lemma {:induction false} ActorsInSorted(anims: seq<AnimData>, start: real, end: real)
    requires forall k :: 0 <= k < |anims| ==> Sorted(anims[k].fcurve.points)
    ensures ActorsIn(anims, start, end) == ActorsByCount(anims, start, end)
  {
    if anims != [] {
      var a := anims[|anims| - 1];
      ActorsInSorted(anims[..|anims| - 1], start, end);
      if CountIn(a.fcurve.points, start, end) >= 2 {
        ScanComplete(a.fcurve.points, start, end, 0);
      } else if Scan(a.fcurve.points, start, end, 0) {
        ScanSound(a.fcurve.points, start, end, 0);
      }
    }
  }

  /** The action of window `i`. */
  function WindowAction(anims: seq<AnimData>, width: real, i: nat): Action
    requires AllKeyed(anims)
  {
    var start := FirstTime(anims) + width * (i as real);
    Action(ActorsIn(anims, start, start + width), start, start + width)
  }

  /** Consecutive windows abut: window i ends where window i + 1 starts. */
  lemma WindowsAbut(anims: seq<AnimData>, width: real, i: nat)
    requires AllKeyed(anims)
    ensures WindowAction(anims, width, i).baseEnd == WindowAction(anims, width, i + 1).baseStart
    ensures WindowAction(anims, width, i).baseEnd - WindowAction(anims, width, i).baseStart == width
  {
  }

  /** The first loop of `generate_actions`: the earliest first and the
      latest last keyframe time over all channels. */
  method KeyedSpan(anims: seq<AnimData>) returns (first: real, last: real)
    requires AllKeyed(anims)
    ensures first == FirstTime(anims) && last == LastTime(anims)
  {
    first := NoFirstTime;
    last := NoLastTime;
    for k := 0 to |anims|
      invariant first == FirstTime(anims[..k]) && last == LastTime(anims[..k])
    {
      assert anims[..k + 1][..k] == anims[..k];
      var pts := anims[k].fcurve.points;
      if pts[0].time < first {
        first := pts[0].time;
      }
      if pts[|pts| - 1].time > last {
        last := pts[|pts| - 1].time;
      }
    }
    assert anims[..|anims|] == anims;
  }

  /** The channel loop of `generate_actions` for one window. */
  method WindowActors(anims: seq<AnimData>, start: real, end: real) returns (actors: seq<Actor>)
    ensures actors == ActorsIn(anims, start, end)
  {
    actors := [];
    for k := 0 to |anims|
      invariant actors == ActorsIn(anims[..k], start, end)
    {
      assert anims[..k + 1][..k] == anims[..k];
      var isActor := ScanChannel(anims[k].fcurve.points, start, end);
      if isActor {
        actors := actors + [ActorOf(anims[k])];
      }
    }
    assert anims[..|anims|] == anims;
  }

  /** `generate_actions(mobject, width)` over the animation data gathered from
      the base collection: one action per whole window of the keyed span,
      including windows without actors. */
  method GenerateActions(anims: seq<AnimData>, width: real) returns (actions: seq<Action>)
    requires AllKeyed(anims) && width > 0.0
    ensures |actions| == if WindowCount(anims, width) > 0 then WindowCount(anims, width) else 0
    ensures forall i :: 0 <= i < |actions| ==> actions[i] == WindowAction(anims, width, i)
  {
    var first, last := KeyedSpan(anims);
    var amount := ((last - first) / width).Floor;
    assert amount == WindowCount(anims, width);
    actions := [];
    var i: nat := 0;
    while i < amount
      invariant |actions| == i && i <= (if amount > 0 then amount else 0)
      invariant forall j :: 0 <= j < i ==> actions[j] == WindowAction(anims, width, j)
    {
      var start := first + width * (i as real);
      var actors := WindowActors(anims, start, start + width);
      assert Action(actors, start, start + width) == WindowAction(anims, width, i);
      actions := actions + [Action(actors, start, start + width)];
      i := i + 1;
    }
  }

  // ---- Retargeting ----

  /** Where the copy starts: the first index whose time is not before `t`. */
  function CopyStart(points: seq<KeyPoint>, t: real): (i: nat)
    ensures i <= |points|
    ensures forall j :: 0 <= j < i ==> points[j].time < t
    ensures i < |points| ==> points[i].time >= t
  {
    if points == [] || points[0].time >= t then 0 else 1 + CopyStart(points[1..], t)
  }

  /** The target property of an actor: the data-block of the same scope named
      `prefix + "." + <base name>`, at the actor's data path. How a data path
      becomes a property path (`data_path_to_prop_path`) is a parameter. */
  function TargetChannel(prefix: string, actor: Actor, toPropPath: string -> PropPath): Channel {
    Channel(Target(actor.root.scope, prefix + "." + actor.root.name), toPropPath(actor.dataPath))
  }

  /** The writes for copying `pts` in order: assign the base value, then insert
      at the re-mapped time. */
  function CopyOps(ch: Channel, pts: seq<KeyPoint>, bs: real, be: real, s: real, e: real): seq<HostOp>
    requires bs != be
  {
    if pts == [] then []
    else
      var p := pts[|pts| - 1];
      CopyOps(ch, pts[..|pts| - 1], bs, be, s, e) + [SetOp(ch, Num(p.value)), InsertOp(ch, Interp(p.time, bs, be, s, e))]
  }

  /** All writes of `apply_animation(s, e)`: per actor in order, every
      keyframe from the copy start to the end of the curve. */
  function RetargetOps(prefix: string, actors: seq<Actor>, bs: real, be: real, s: real, e: real,
                       toPropPath: string -> PropPath): seq<HostOp>
    requires bs != be
  {
    if actors == [] then []
    else
      var a := actors[|actors| - 1];
      var pts := a.baseFcurve.points;
      RetargetOps(prefix, actors[..|actors| - 1], bs, be, s, e, toPropPath)
        + CopyOps(TargetChannel(prefix, a, toPropPath), pts[CopyStart(pts, bs)..], bs, be, s, e)
  }

  /** The keyframes a copy leaves: one per copied point, at its re-mapped time,
      holding its base value. */
  function Remapped(ch: Channel, pts: seq<KeyPoint>, bs: real, be: real, s: real, e: real): (r: seq<KeyInsert>)
    requires bs != be
    ensures |r| == |pts|
    ensures forall k :: 0 <= k < |r| ==> r[k] == KeyInsert(ch, Interp(pts[k].time, bs, be, s, e), Some(Num(pts[k].value)))
  {
    seq(|pts|, k requires 0 <= k < |pts| => KeyInsert(ch, Interp(pts[k].time, bs, be, s, e), Some(Num(pts[k].value))))
  }

  lemma CopyOpsSnoc(ch: Channel, pts: seq<KeyPoint>, p: KeyPoint, bs: real, be: real, s: real, e: real)
    requires bs != be
    ensures CopyOps(ch, pts + [p], bs, be, s, e)
         == CopyOps(ch, pts, bs, be, s, e) + [SetOp(ch, Num(p.value)), InsertOp(ch, Interp(p.time, bs, be, s, e))]
  {
    assert (pts + [p])[..|pts|] == pts;
  }

  /** Running a copy writes exactly the re-mapped keyframes, each holding the
      base value just assigned, and leaves the property at the last copied
      value. */
  lemma {:induction false} CopyRun(st: HostState, ch: Channel, pts: seq<KeyPoint>, bs: real, be: real, s: real, e: real)
    requires bs != be
    ensures Run(st, CopyOps(ch, pts, bs, be, s, e)).log == st.log + Remapped(ch, pts, bs, be, s, e)
    ensures pts != [] ==> Run(st, CopyOps(ch, pts, bs, be, s, e)).values == st.values[ch := Num(pts[|pts| - 1].value)]
    decreases |pts|
  {
    if pts == [] {
      assert st.log + Remapped(ch, pts, bs, be, s, e) == st.log;
    } else {
      var init, p := pts[..|pts| - 1], pts[|pts| - 1];
      CopyRun(st, ch, init, bs, be, s, e);
      var mid := Run(st, CopyOps(ch, init, bs, be, s, e));
      var set1, ins := SetOp(ch, Num(p.value)), InsertOp(ch, Interp(p.time, bs, be, s, e));
      RunAppend(st, CopyOps(ch, init, bs, be, s, e), [set1, ins]);
      assert [set1, ins] == [set1] + [ins];
      RunAppend(mid, [set1], [ins]);
      assert [set1][..0] == [] && [ins][..0] == [];
      assert Remapped(ch, pts, bs, be, s, e) == Remapped(ch, init, bs, be, s, e) + [KeyInsert(ch, Interp(p.time, bs, be, s, e), Some(Num(p.value)))];
    }
  }

  /** Where the copies land: a point inside the base window lands inside the
      target window, a point past the base window (which the copy loop still
      writes) lands past the target window, and sorted points stay sorted. */
  lemma RemappedPlacement(ch: Channel, pts: seq<KeyPoint>, bs: real, be: real, s: real, e: real)
    requires bs < be && s < e
    ensures forall k :: 0 <= k < |pts| && bs <= pts[k].time <= be ==>
      s <= Remapped(ch, pts, bs, be, s, e)[k].time <= e
    ensures forall k :: 0 <= k < |pts| && pts[k].time > be ==> Remapped(ch, pts, bs, be, s, e)[k].time > e
    ensures Sorted(pts) ==> forall i, j :: 0 <= i < j < |pts| ==>
      Remapped(ch, pts, bs, be, s, e)[i].time <= Remapped(ch, pts, bs, be, s, e)[j].time
  {
    forall k | 0 <= k < |pts| && bs <= pts[k].time <= be
      ensures s <= Interp(pts[k].time, bs, be, s, e) <= e
    {
      InterpMonotone(bs, pts[k].time, bs, be, s, e);
      InterpMonotone(pts[k].time, be, bs, be, s, e);
    }
    forall k | 0 <= k < |pts| && pts[k].time > be
      ensures Interp(pts[k].time, bs, be, s, e) > e
    {
      InterpMonotone(be, pts[k].time, bs, be, s, e);
    }
    if Sorted(pts) {
      forall i, j | 0 <= i < j < |pts|
        ensures Interp(pts[i].time, bs, be, s, e) <= Interp(pts[j].time, bs, be, s, e)
      {
        InterpMonotone(pts[i].time, pts[j].time, bs, be, s, e);
      }
    }
  }

  /** The skip loop of `apply_animation`: the first keyframe not before `t`. */
  method SkipBefore(points: seq<KeyPoint>, t: real) returns (i: nat)
    ensures i == CopyStart(points, t)
  {
    i := 0;
    while i < |points|
      invariant i <= |points|
      invariant forall j :: 0 <= j < i ==> points[j].time < t
    {
      if points[i].time >= t {
        break;
      }
      i := i + 1;
    }
    CopyStartUnique(points, t, i);
  }

  /** The copy loop of `apply_animation` for one actor: from index `from` to
      the end of the curve, assign the base value and insert a keyframe at the
      re-mapped time. */
  method CopyKeyframes(host: Host, ch: Channel, kp: seq<KeyPoint>, from: nat, bs: real, be: real, s: real, e: real)
    requires from <= |kp| && bs != be
    modifies host
    ensures host.State() == Run(old(host.State()), CopyOps(ch, kp[from..], bs, be, s, e))
  {
    ghost var sa := host.State();
    var i := from;
    while i < |kp|
      invariant from <= i <= |kp|
      invariant host.State() == Run(sa, CopyOps(ch, kp[from..i], bs, be, s, e))
    {
      ghost var done := CopyOps(ch, kp[from..i], bs, be, s, e);
      ghost var set1, ins := SetOp(ch, Num(kp[i].value)), InsertOp(ch, Interp(kp[i].time, bs, be, s, e));
      assert kp[from..i + 1] == kp[from..i] + [kp[i]];
      CopyOpsSnoc(ch, kp[from..i], kp[i], bs, be, s, e);
      ghost var before := host.State();
      host.SetValueByPropPath(ch, Num(kp[i].value));
      host.KeyframeInsert(ch, Interp(kp[i].time, bs, be, s, e));
      TwoOps(before, set1, ins);
      RunAppend(sa, done, [set1, ins]);
      i := i + 1;
    }
    assert kp[from..|kp|] == kp[from..];
  }

  /** `ActionAnimation.apply_animation(start, end)` of an action of the mobject
      with prefix `prefix`. */
  method ApplyAnimation(host: Host, prefix: string, action: Action, start: real, end: real,
                        toPropPath: string -> PropPath)
    requires action.baseStart != action.baseEnd
    modifies host
    ensures host.State() == Run(old(host.State()),
      RetargetOps(prefix, action.actors, action.baseStart, action.baseEnd, start, end, toPropPath))
  {
    ghost var s0 := host.State();
    var bs, be := action.baseStart, action.baseEnd;
    for a := 0 to |action.actors|
      invariant host.State() == Run(s0, RetargetOps(prefix, action.actors[..a], bs, be, start, end, toPropPath))
    {
      var actor := action.actors[a];
      var ch := TargetChannel(prefix, actor, toPropPath);
      var kp := actor.baseFcurve.points;
      ghost var done := RetargetOps(prefix, action.actors[..a], bs, be, start, end, toPropPath);
      var from := SkipBefore(kp, bs);
      CopyKeyframes(host, ch, kp, from, bs, be, start, end);
      RunAppend(s0, done, CopyOps(ch, kp[from..], bs, be, start, end));
      assert action.actors[..a + 1][..a] == action.actors[..a];
    }
    assert action.actors[..|action.actors|] == action.actors;
  }

  lemma {:induction false} CopyStartUnique(points: seq<KeyPoint>, t: real, i: nat)
    requires i <= |points|
    requires forall j :: 0 <= j < i ==> points[j].time < t
    requires i < |points| ==> points[i].time >= t
    ensures i == CopyStart(points, t)
    decreases i
  {
    if i > 0 {
      CopyStartUnique(points[1..], t, i - 1);
    }
  }
}
