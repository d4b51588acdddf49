/** The stateful objects of a scene: the stage with its clock, the mobjects
    with their animate mode and planned-keyframe queue, and the custom
    properties a mobject exposes (core/stage.py, core/mobject/mobject.py,
    core/mobject/custom_mobject_prop.py; the same methods are repeated in
    core/mobject/__init__.py and core/mobject.py). */
module Scene {
  import opened Wrappers
  import opened Timeline
  import opened Planning
  import opened Utils
  import opened StageNames
  import opened Staging

  /** The exceptions `customize` can end with: the `KeyError` of an unknown
      property name, and `CustomPropertyUnanimatable`. */
  datatype CustomizeError = UnknownCustomProperty | CustomPropertyUnanimatable

  /** The fields of a mobject, as one value. */
  datatype MobjectView = MobjectView(stage: Stage, prefix: string, inAnimateMode: bool,
                                     planned: seq<PlannedKeyframe>,
                                     customProperties: map<string, SimpleCustomMobjectProperty>)
  {
    /** The same mobject after a dump: queue empty, animate mode off. */
    function Flushed(): MobjectView {
      this.(inAnimateMode := false, planned := [])
    }
  }

  /** The marker loop of `Stage.__init__`: every marker object filed under its
      marker name. */
  method IndexMarkers(objNames: seq<string>) returns (markers: map<string, string>)
    ensures markers == MarkerIndex(objNames)
  {
    markers := map[];
    for k := 0 to |objNames|
      invariant markers == MarkerIndex(objNames[..k])
    {
      assert objNames[..k + 1][..k] == objNames[..k];
      markers := markers[MarkerName(objNames[k]) := objNames[k]];
    }
    assert objNames[..|objNames|] == objNames;
  }

  /** One committed entry: assign its value when it carries one, then insert. */
  method WriteEntry(host: Host, e: PlannedKeyframe, frame: real)
    modifies host
    ensures host.State() == Run(old(host.State()), WriteOps(e, frame))
  {
    ghost var s0 := host.State();
    if e.value.Some? {
      host.SetValueByPropPath(e.channel, e.value.value);
      host.KeyframeInsert(e.channel, frame);
      assert WriteOps(e, frame) == [SetOp(e.channel, e.value.value), InsertOp(e.channel, frame)];
      TwoOps(s0, SetOp(e.channel, e.value.value), InsertOp(e.channel, frame));
    } else {
      host.KeyframeInsert(e.channel, frame);
      assert WriteOps(e, frame) == [InsertOp(e.channel, frame)];
      RunSingle(s0, InsertOp(e.channel, frame));
    }
  }

  lemma EntryOpsSnoc(entries: seq<PlannedKeyframe>, e: PlannedKeyframe, frame: real)
    ensures EntryOps(entries + [e], frame) == EntryOps(entries, frame) + WriteOps(e, frame)
  {
    assert (entries + [e])[..|entries|] == entries;
  }

  /** One pass of `play`'s inner loop: the entries of one kind, in queue order,
      all at `frame`. */
  method CommitKind(host: Host, q: seq<PlannedKeyframe>, kind: Kind, frame: real)
    modifies host
    ensures host.State() == Run(old(host.State()), EntryOps(OfKind(q, kind), frame))
  {
    ghost var s0 := host.State();
    for i := 0 to |q|
      invariant host.State() == Run(s0, EntryOps(OfKind(q[..i], kind), frame))
    {
      ghost var done := OfKind(q[..i], kind);
      assert q[..i + 1] == q[..i] + [q[i]];
      OfKindSnoc(q[..i], q[i], kind);
      if q[i].kind == kind {
        WriteEntry(host, q[i], frame);
        EntryOpsSnoc(done, q[i], frame);
        RunAppend(s0, EntryOps(done, frame), WriteOps(q[i], frame));
        assert OfKind(q[..i + 1], kind) == done + [q[i]];
      } else {
        assert OfKind(q[..i + 1], kind) == done;
      }
    }
    assert q[..|q|] == q;
  }

  /** One animatable's commit in `play`: its start entries at `t0`, then its
      end entries at `t1`. */
  method Commit(host: Host, q: seq<PlannedKeyframe>, t0: real, t1: real)
    modifies host
    ensures host.State() == Run(old(host.State()), CommitOps(q, t0, t1))
  {
    ghost var s0 := host.State();
    CommitKind(host, q, Start, t0);
    CommitKind(host, q, End, t1);
    RunAppend(s0, EntryOps(OfKind(q, Start), t0), EntryOps(OfKind(q, End), t1));
  }

  /** The direct write of `set_prop_value` and `set_value`: insert one frame
      before `t`, assign, insert at `t`. */
  method DirectWrite(host: Host, ch: Channel, v: Value, t: real)
    modifies host
    ensures host.State() == Run(old(host.State()), DirectOps(ch, v, t))
  {
    ghost var s0 := host.State();
    host.KeyframeInsert(ch, t - 1.0);
    host.SetValueByPropPath(ch, v);
    host.KeyframeInsert(ch, t);
    DirectWriteRun(s0, ch, v, t);
  }

  /** One iteration of `play`: dump `m` and commit what it returned. */
  method DumpAndCommit(host: Host, m: Mobject, t0: real, t1: real) returns (ghost q: seq<PlannedKeyframe>)
    requires m.Valid()
    modifies host, m
    ensures q == old(m.planned) && m.View() == old(m.View()).Flushed()
    ensures host.State() == Run(old(host.State()), CommitOps(q, t0, t1))
  {
    var p := m.DumpPlannedKeyframes();
    Commit(host, p, t0, t1);
    q := p;
  }

  /** What dumping `anims` in order returns: each animatable's queue at its
      first occurrence, and an empty list at every later one. */
  function Dumps(anims: seq<Mobject>): (r: seq<seq<PlannedKeyframe>>)
    reads anims
    ensures |r| == |anims|
  {
    seq(|anims|, k requires 0 <= k < |anims| reads anims =>
      if anims[k] in anims[..k] then [] else anims[k].planned)
  }

  /** The loop of `play` over its arguments, in order: dump each animatable
      and commit what the dump returned. Every queue committed is one animate
      mode built, so each commits in the order `CommitLog` describes. */
  method CommitAll(host: Host, anims: seq<Mobject>, t0: real, t1: real) returns (ghost dumped: seq<seq<PlannedKeyframe>>)
    requires forall m :: m in anims ==> m.Valid()
    modifies host, anims
    ensures dumped == old(Dumps(anims))
    ensures forall k :: 0 <= k < |dumped| ==> WellStaged(dumped[k])
    ensures host.State() == Run(old(host.State()), PlayOps(dumped, t0, t1))
    ensures forall m :: m in anims ==> m.View() == old(m.View()).Flushed()
  {
    ghost var s0 := host.State();
    ghost var all := Dumps(anims);
    assert forall k :: 0 <= k < |all| ==> WellStaged(all[k]) by {
      forall k | 0 <= k < |all|
        ensures WellStaged(all[k])
      {
        assert anims[k].Valid();
      }
    }
    dumped := [];
    for k := 0 to |anims|
      invariant dumped == all[..k]
      invariant forall m :: m in anims ==> m.Valid()
      invariant forall m :: m in anims ==>
        m.View() == if m in anims[..k] then old(m.View()).Flushed() else old(m.View())
      invariant host.State() == Run(s0, PlayOps(dumped, t0, t1))
    {
      ghost var done := PlayOps(dumped, t0, t1);
      ghost var expected := all[k];
      assert anims[k].planned == expected;
      label Before:
      ghost var q := DumpAndCommit(host, anims[k], t0, t1);
      TakeSnoc(anims, k);
      forall m | m in anims
        ensures m.View() == if m in anims[..k + 1] then old(m.View()).Flushed() else old(m.View())
      {
        if m != anims[k] {
          assert m.View() == old@Before(m.View());
        }
      }
      RunAppend(s0, done, CommitOps(q, t0, t1));
      dumped := dumped + [q];
      TakeSnoc(all, k);
    }
    assert anims[..|anims|] == anims;
    assert all[..|anims|] == all;
  }

  /** A stage: the clock animations are placed on, the origin mobjects are
      placed relative to, and the prefix naming its objects. */
  class Stage {
    var origin: Vec3
    var prefix: string
    /** Name of the collection recording `prefix` for the next stage. */
    var prefixCollection: string
    /** Marker name to marker object name. */
    var markers: map<string, string>
    var startTime: real
    var currTime: real

    /** `Stage.__init__`: index the marker objects, reserve a prefix from base
        "_M.S" and name the collection that records it. */
    constructor (origin: Vec3, registry: PrefixRegistry, markerObjectNames: seq<string>)
      modifies registry
      ensures this.origin == origin && startTime == 0.0 && currTime == 0.0
      ensures markers == MarkerIndex(markerObjectNames)
      ensures prefixCollection == StagePrefixCollectionName(prefix)
      ensures registry.created
      ensures var before := if old(registry.created) then old(registry.lines) else RegistryHeader;
        && registry.lines == before + [prefix]
        && !IsPrefixReserved(before, prefix)
        && exists c: nat :: prefix == Candidate("_M.S", c)
             && forall c' :: 0 <= c' < c ==> IsPrefixReserved(before, Candidate("_M.S", c'))
    {
      var index := IndexMarkers(markerObjectNames);
      var p;
      ghost var c;
      p, c := registry.ReserveOriginalPrefix("_M.S");
      this.origin := origin;
      prefix := p;
      prefixCollection := StagePrefixCollectionName(p);
      markers := index;
      startTime := 0.0;
      currTime := 0.0;
    }

    /** `play(*anims, duration)`: commit every animatable's queue, starts at
        the current time and ends `duration` later, then advance the clock
        once. `dumped` is what each dump returned: an animatable passed twice
        yields its queue the first time only. */
    method Play(host: Host, anims: seq<Mobject>, duration: real) returns (ghost dumped: seq<seq<PlannedKeyframe>>)
      requires forall m :: m in anims ==> m.Valid()
      modifies this, host, anims
      ensures currTime == old(currTime) + duration
      ensures origin == old(origin) && prefix == old(prefix) && prefixCollection == old(prefixCollection)
      ensures markers == old(markers) && startTime == old(startTime)
      ensures dumped == old(Dumps(anims))
      ensures forall k :: 0 <= k < |dumped| ==> WellStaged(dumped[k])
      ensures host.State() == Run(old(host.State()), PlayOps(dumped, old(currTime), old(currTime) + duration))
      ensures forall m :: m in anims ==> m.View() == old(m.View()).Flushed()
    {
      var t0, t1 := currTime, currTime + duration;
      dumped := CommitAll(host, anims, t0, t1);
      ghost var after := host.State();
      assert after == Run(old(host.State()), PlayOps(dumped, t0, t1));
      currTime := t1;
      assert t0 == old(currTime) && t1 == old(currTime) + duration;
      assert host.State() == after;
    }

    /** `wait(duration)`: advance the clock only. */
    method Wait(duration: real)
      modifies this
      ensures currTime == old(currTime) + duration
      ensures origin == old(origin) && prefix == old(prefix) && prefixCollection == old(prefixCollection)
      ensures markers == old(markers) && startTime == old(startTime)
    {
      currTime := currTime + duration;
    }
  }

  /** A mobject: a prefixed group of objects on a stage, written either
      directly (keyed around the current time) or, in animate mode, by
      planning keyframes that the next `play` commits. */
  class Mobject {
    var stage: Stage
    var prefix: string
    var inAnimateMode: bool
    var planned: seq<PlannedKeyframe>
    var customProperties: map<string, SimpleCustomMobjectProperty>

    /** `Mobject.__init__`: reserve a prefix from base `<stage prefix>.MOB`;
        the queue starts empty and animate mode off. */
    constructor (stage: Stage, registry: PrefixRegistry)
      modifies registry
      ensures this.stage == stage && planned == [] && !inAnimateMode && customProperties == map[]
      ensures Valid()
      ensures registry.created
      ensures var before := if old(registry.created) then old(registry.lines) else RegistryHeader;
        && registry.lines == before + [prefix]
        && !IsPrefixReserved(before, prefix)
        && exists c: nat :: prefix == Candidate(stage.prefix + ".MOB", c)
             && forall c' :: 0 <= c' < c ==> IsPrefixReserved(before, Candidate(stage.prefix + ".MOB", c'))
    {
      var p;
      ghost var c;
      p, c := registry.ReserveOriginalPrefix(stage.prefix + ".MOB");
      this.stage := stage;
      prefix := p;
      inAnimateMode := false;
      planned := [];
      customProperties := map[];
    }

    /** The queue has the shape animate mode gives it: every start entry
        captures and every end entry carries a value. */
    predicate Valid()
      reads this
    {
      WellStaged(planned)
    }

    function View(): MobjectView
      reads this
    {
      MobjectView(stage, prefix, inAnimateMode, planned, customProperties)
    }

    /** The property `path` of the origin object, named `prefix + "."`. */
    function OriginChannel(path: PropPath): Channel
      reads this
    {
      ObjectChannel(prefix, "", path)
    }

    /** The `animate` property: switch animate mode on and return the mobject. */
    method Animate() returns (r: Mobject)
      requires Valid()
      modifies this
      ensures Valid()
      ensures r == this && inAnimateMode && planned == old(planned)
      ensures prefix == old(prefix) && stage == old(stage) && customProperties == old(customProperties)
    {
      inAnimateMode := true;
      r := this;
    }

    /** Hand over the queue, empty it and switch animate mode off. */
    method DumpPlannedKeyframes() returns (p: seq<PlannedKeyframe>)
      requires Valid()
      modifies this
      ensures Valid() && WellStaged(p)
      ensures p == old(planned) && View() == old(View()).Flushed()
    {
      p := planned;
      planned := [];
      inAnimateMode := false;
    }

    /** `set_prop_value(obj_name, prop_path, value)` on the object
        `prefix + "." + obj_name`. */
    method SetPropValue(host: Host, objName: string, path: PropPath, value: Value) returns (r: Mobject)
      requires Valid()
      modifies this, host
      ensures Valid()
      ensures r == this
      ensures Staged(planned, host.State())
           == WriteEffect(old(inAnimateMode), old(planned), old(host.State()), ObjectChannel(prefix, objName, path), value, stage.currTime)
      ensures inAnimateMode == old(inAnimateMode)
      ensures prefix == old(prefix) && stage == old(stage) && customProperties == old(customProperties)
    {
      var ch := ObjectChannel(prefix, objName, path);
      if inAnimateMode {
        StagedChangeWellStaged(planned, ch, value);
        planned := planned + [PlannedKeyframe(Start, ch, None)];
        planned := planned + [PlannedKeyframe(End, ch, Some(value))];
        return this;
      }
      DirectWrite(host, ch, value, stage.currTime);
      r := this;
    }

    /** `move_to(location)`: writes the location relative to the stage origin. */
    method MoveTo(host: Host, location: Vec3) returns (r: Mobject)
      requires Valid()
      modifies this, host
      ensures Valid()
      ensures r == this
      ensures Staged(planned, host.State())
           == WriteEffect(old(inAnimateMode), old(planned), old(host.State()), OriginChannel(["location"]),
                          Vector(location.Add(stage.origin)), stage.currTime)
      ensures inAnimateMode == old(inAnimateMode)
      ensures prefix == old(prefix) && stage == old(stage) && customProperties == old(customProperties)
    {
      r := SetPropValue(host, "", ["location"], Vector(location.Add(stage.origin)));
    }

    /** `shift(offset)`: `move_to(current location + offset)`, which adds the
        stage origin once more. */
    method Shift(host: Host, offset: Vec3) returns (r: Mobject)
      requires Current(host.values, OriginChannel(["location"])).Some?
      requires Current(host.values, OriginChannel(["location"])).value.Vector?
      requires Valid()
      modifies this, host
      ensures Valid()
      ensures r == this
      ensures Staged(planned, host.State())
           == WriteEffect(old(inAnimateMode), old(planned), old(host.State()), OriginChannel(["location"]),
                          Vector(old(host.values[OriginChannel(["location"])].v).Add(offset).Add(stage.origin)), stage.currTime)
      ensures inAnimateMode == old(inAnimateMode)
      ensures prefix == old(prefix) && stage == old(stage) && customProperties == old(customProperties)
    {
      var location := host.values[OriginChannel(["location"])].v;
      r := MoveTo(host, location.Add(offset));
    }

    /** `set_rotation(rotation_euler)`. */
    method SetRotation(host: Host, rotation: Vec3) returns (r: Mobject)
      requires Valid()
      modifies this, host
      ensures Valid()
      ensures r == this
      ensures Staged(planned, host.State())
           == WriteEffect(old(inAnimateMode), old(planned), old(host.State()), OriginChannel(["rotation_euler"]),
                          Vector(rotation), stage.currTime)
      ensures inAnimateMode == old(inAnimateMode)
      ensures prefix == old(prefix) && stage == old(stage) && customProperties == old(customProperties)
    {
      r := SetPropValue(host, "", ["rotation_euler"], Vector(rotation));
    }

    /** `rotate(rotation_euler)`: adds to the current Euler rotation. */
    method Rotate(host: Host, rotation: Vec3) returns (r: Mobject)
      requires Current(host.values, OriginChannel(["rotation_euler"])).Some?
      requires Current(host.values, OriginChannel(["rotation_euler"])).value.Vector?
      requires Valid()
      modifies this, host
      ensures Valid()
      ensures r == this
      ensures Staged(planned, host.State())
           == WriteEffect(old(inAnimateMode), old(planned), old(host.State()), OriginChannel(["rotation_euler"]),
                          Vector(rotation.Add(old(host.values[OriginChannel(["rotation_euler"])].v))), stage.currTime)
      ensures inAnimateMode == old(inAnimateMode)
      ensures prefix == old(prefix) && stage == old(stage) && customProperties == old(customProperties)
    {
      var current := host.values[OriginChannel(["rotation_euler"])].v;
      r := SetRotation(host, rotation.Add(current));
    }

    /** `set_scale(scale)`. */
    method SetScale(host: Host, scale: Vec3) returns (r: Mobject)
      requires Valid()
      modifies this, host
      ensures Valid()
      ensures r == this
      ensures Staged(planned, host.State())
           == WriteEffect(old(inAnimateMode), old(planned), old(host.State()), OriginChannel(["scale"]),
                          Vector(scale), stage.currTime)
      ensures inAnimateMode == old(inAnimateMode)
      ensures prefix == old(prefix) && stage == old(stage) && customProperties == old(customProperties)
    {
      r := SetPropValue(host, "", ["scale"], Vector(scale));
    }

    /** `scale(scale)`: multiplies the current scale component-wise. */
    method Scale(host: Host, scale: Vec3) returns (r: Mobject)
      requires Current(host.values, OriginChannel(["scale"])).Some?
      requires Current(host.values, OriginChannel(["scale"])).value.Vector?
      requires Valid()
      modifies this, host
      ensures Valid()
      ensures r == this
      ensures Staged(planned, host.State())
           == WriteEffect(old(inAnimateMode), old(planned), old(host.State()), OriginChannel(["scale"]),
                          Vector(old(host.values[OriginChannel(["scale"])].v).Mul(scale)), stage.currTime)
      ensures inAnimateMode == old(inAnimateMode)
      ensures prefix == old(prefix) && stage == old(stage) && customProperties == old(customProperties)
    {
      var current := host.values[OriginChannel(["scale"])].v;
      r := SetScale(host, current.Mul(scale));
    }

    /** `customize(property, value)`. In animate mode the property is switched
        into animate mode (which fails, before anything is queued, when it is
        unanimatable), its planned entries are appended to the queue, and it is
        switched back. Otherwise the property writes in its own mode and
        whatever it returns is dropped. */
    method Customize(host: Host, name: string, value: real) returns (outcome: Outcome<CustomizeError>)
      requires Valid() && (name in customProperties ==> customProperties[name].Valid())
      modifies this, host, customProperties.Values
      ensures Valid()
      ensures customProperties == old(customProperties) && inAnimateMode == old(inAnimateMode)
      ensures prefix == old(prefix) && stage == old(stage)
      ensures forall q :: q in old(customProperties.Values) ==>
        && q.ePropPaths == old(q.ePropPaths) && q.mappings == old(q.mappings)
        && q.isAnimatable == old(q.isAnimatable) && q.mobject == old(q.mobject)
      ensures forall q :: q in old(customProperties.Values) && (name !in customProperties || q != customProperties[name]) ==>
        q.inAnimateMode == old(q.inAnimateMode)
      ensures name !in customProperties ==>
        outcome == Fail(UnknownCustomProperty) && planned == old(planned) && host.State() == old(host.State())
      ensures name in customProperties && inAnimateMode && !old(customProperties[name].isAnimatable) ==>
        outcome == Fail(CustomPropertyUnanimatable) && planned == old(planned) && host.State() == old(host.State())
        && customProperties[name].inAnimateMode == old(customProperties[name].inAnimateMode)
      ensures name in customProperties && inAnimateMode && old(customProperties[name].isAnimatable) ==>
        var p := customProperties[name];
        && outcome == Pass && host.State() == old(host.State()) && !p.inAnimateMode
        && planned == old(planned) + old(PlannedFor(p.mobject.prefix, p.ePropPaths, p.mappings, value))
      ensures name in customProperties && !inAnimateMode ==>
        var p := customProperties[name];
        && outcome == Pass && planned == old(planned) && p.inAnimateMode == old(p.inAnimateMode)
        && (p.inAnimateMode ==> host.State() == old(host.State()))
        && (!p.inAnimateMode ==> host.State() == Run(old(host.State()),
              old(DirectOpsFor(p.mobject.prefix, p.ePropPaths, p.mappings, value, p.mobject.stage.currTime))))
    {
      if name !in customProperties {
        return Fail(UnknownCustomProperty);
      }
      var prop := customProperties[name];
      if inAnimateMode {
        outcome := prop.SetAnimateMode(true);
        if outcome.Fail? {
          return;
        }
        var q := prop.SetValue(host, value);
        WellStagedAppend(planned, q);
        planned := planned + q;
        outcome := prop.SetAnimateMode(false);
      } else {
        var _ := prop.SetValue(host, value);
        outcome := Pass;
      }
    }
  }

  /** `SimpleCustomMobjectProperty` together with its base class
      `CustomMobjectProperty`: a user-facing value written to several
      properties of the mobject's objects, each through an optional mapping. */
  class SimpleCustomMobjectProperty {
    var mobject: Mobject
    var isAnimatable: bool
    var inAnimateMode: bool
    var ePropPaths: seq<ExtendedPropPath>
    var mappings: seq<Option<DomainRangeMap>>

    /** Every extended path names an object, and every mapping `interp` is
        given (one per path, mappings past the last path are never read) has
        a non-empty domain. */
    predicate Valid()
      reads this
    {
      AllNamed(ePropPaths) && NonDegenerate(mappings, |ePropPaths|)
    }

    constructor (mobject: Mobject, ePropPaths: seq<ExtendedPropPath>, animatable: bool)
      ensures this.mobject == mobject && this.ePropPaths == ePropPaths && isAnimatable == animatable
      ensures !inAnimateMode && mappings == []
    {
      this.mobject := mobject;
      this.ePropPaths := ePropPaths;
      isAnimatable := animatable;
      inAnimateMode := false;
      mappings := [];
    }

    /** `set_animate_mode(mode)`: refused, whatever `mode` is, when the
        property is not animatable. */
    method SetAnimateMode(mode: bool) returns (outcome: Outcome<CustomizeError>)
      modifies this
      ensures !isAnimatable ==> outcome == Fail(CustomPropertyUnanimatable) && inAnimateMode == old(inAnimateMode)
      ensures isAnimatable ==> outcome == Pass && inAnimateMode == mode
      ensures isAnimatable == old(isAnimatable) && mobject == old(mobject)
      ensures ePropPaths == old(ePropPaths) && mappings == old(mappings)
    {
      if !isAnimatable {
        return Fail(CustomPropertyUnanimatable);
      }
      inAnimateMode := mode;
      outcome := Pass;
    }

    /** `set_mappings(mappings)`: replace the mapping list, return the property. */
    method SetMappings(mappings: seq<Option<DomainRangeMap>>) returns (r: SimpleCustomMobjectProperty)
      modifies this
      ensures r == this && this.mappings == mappings
      ensures isAnimatable == old(isAnimatable) && inAnimateMode == old(inAnimateMode)
      ensures mobject == old(mobject) && ePropPaths == old(ePropPaths)
    {
      this.mappings := mappings;
      r := this;
    }

    /** `set_value(value)`: per extended path, in order, the mapped value goes
        to property `path[1:]` of object `<mobject prefix>.<path[0]>`; planned
        in animate mode, written directly otherwise. */
    method SetValue(host: Host, value: real) returns (planned: seq<PlannedKeyframe>)
      requires Valid()
      modifies host
      ensures inAnimateMode ==>
        planned == PlannedFor(mobject.prefix, ePropPaths, mappings, value) && host.State() == old(host.State())
      ensures !inAnimateMode ==> planned == []
      ensures WellStaged(planned)
      ensures !inAnimateMode ==>
        host.State() == Run(old(host.State()), DirectOpsFor(mobject.prefix, ePropPaths, mappings, value, mobject.stage.currTime))
    {
      planned := [];
      ghost var s0 := host.State();
      var t := mobject.stage.currTime;
      for i := 0 to |ePropPaths|
        invariant AllNamed(ePropPaths[..i])
        invariant inAnimateMode ==>
          planned == PlannedFor(mobject.prefix, ePropPaths[..i], mappings, value) && host.State() == s0
        invariant !inAnimateMode ==>
          planned == [] && host.State() == Run(s0, DirectOpsFor(mobject.prefix, ePropPaths[..i], mappings, value, t))
      {
        var mapping := if i < |mappings| then mappings[i] else None;
        var x := if mapping.Some? then Interp(value, mapping.value.a, mapping.value.b, mapping.value.c, mapping.value.d) else value;
        assert x == MappedValue(mappings, i, value);
        var ch := ObjectChannel(mobject.prefix, ePropPaths[i][0], ePropPaths[i][1..]);
        assert ePropPaths[..i + 1][..i] == ePropPaths[..i];
        assert ePropPaths[..i + 1][i] == ePropPaths[i];
        if inAnimateMode {
          planned := planned + [PlannedKeyframe(Start, ch, None)];
          planned := planned + [PlannedKeyframe(End, ch, Some(Num(x)))];
          continue;
        }
        ghost var done := DirectOpsFor(mobject.prefix, ePropPaths[..i], mappings, value, t);
        DirectWrite(host, ch, Num(x), t);
        RunAppend(s0, done, DirectOps(ch, Num(x), t));
      }
      assert ePropPaths[..|ePropPaths|] == ePropPaths;
      if inAnimateMode {
        PlannedForShape(mobject.prefix, ePropPaths, mappings, value);
      }
    }
  }
}
