/** What a Mobject write does, as values: the pair of planned entries animate
    mode queues, the three host writes of direct mode, the value a custom
    property writes through its mapping, and the marker index a stage builds.
    The classes of module Scene are specified by these functions. */
module Staging {
  import opened Wrappers
  import opened Timeline
  import opened Planning
  import opened Utils
  import opened StageNames

  /** An object name followed by a property path: ["Cube", "location"]. */
  type ExtendedPropPath = seq<string>

  /** The arguments of `interp(value, *mapping)`: domain [a, b], range [c, d]. */
  datatype DomainRangeMap = DomainRangeMap(a: real, b: real, c: real, d: real)

  /** The property `path` of object `prefix + "." + objName`. */
  function ObjectChannel(prefix: string, objName: string, path: PropPath): Channel {
    Channel(Target("objects", prefix + "." + objName), path)
  }

  /** Direct mode: insert at `t - 1`, assign, insert at `t`. */
  function DirectOps(ch: Channel, v: Value, t: real): seq<HostOp> {
    [InsertOp(ch, t - 1.0), SetOp(ch, v), InsertOp(ch, t)]
  }

  /** A direct write holds the old value one frame before `t` and the new one
      at `t`, and leaves the property at the new value. */
  lemma DirectWriteRun(s: HostState, ch: Channel, v: Value, t: real)
    ensures Run(s, DirectOps(ch, v, t))
         == HostState(s.values[ch := v], s.log + [KeyInsert(ch, t - 1.0, Current(s.values, ch)), KeyInsert(ch, t, Some(v))])
  {
    var ops := DirectOps(ch, v, t);
    assert ops[..2][..1][..0] == [];
    assert Run(s, ops[..2][..1]) == Apply(s, ops[0]);
    assert Run(s, ops[..2]) == Apply(Apply(s, ops[0]), ops[1]);
    assert Run(s, ops) == Apply(Apply(Apply(s, ops[0]), ops[1]), ops[2]);
  }

  /** The queue and host state after one `set_prop_value`. */
  datatype Staged = Staged(planned: seq<PlannedKeyframe>, host: HostState)

  /** `set_prop_value` on `ch`: in animate mode the queue gains the start/end
      pair and the host is untouched; otherwise the queue is untouched and the
      host receives the direct write at the stage's current time. */
  function WriteEffect(animate: bool, planned: seq<PlannedKeyframe>, st: HostState, ch: Channel, v: Value, t: real): Staged {
    if animate then Staged(planned + StagedChange(ch, v), st)
    else Staged(planned, Run(st, DirectOps(ch, v, t)))
  }

  /** Both modes of a write, stated on their result: animate mode keeps the
      queue well staged, appends exactly the capturing start and the valued
      end, and writes nothing; direct mode queues nothing and keys the old and
      the new value around the current time. */
  lemma WriteEffectModes(animate: bool, planned: seq<PlannedKeyframe>, st: HostState, ch: Channel, v: Value, t: real)
    requires WellStaged(planned)
    ensures WellStaged(WriteEffect(animate, planned, st, ch, v, t).planned)
    ensures animate ==> WriteEffect(animate, planned, st, ch, v, t).host == st
    ensures animate ==> WriteEffect(animate, planned, st, ch, v, t).planned
                        == planned + [PlannedKeyframe(Start, ch, None), PlannedKeyframe(End, ch, Some(v))]
    ensures !animate ==> WriteEffect(animate, planned, st, ch, v, t).planned == planned
    ensures !animate ==> WriteEffect(animate, planned, st, ch, v, t).host.values == st.values[ch := v]
    ensures !animate ==> WriteEffect(animate, planned, st, ch, v, t).host.log
                         == st.log + [KeyInsert(ch, t - 1.0, Current(st.values, ch)), KeyInsert(ch, t, Some(v))]
  {
    if animate {
      StagedChangeWellStaged(planned, ch, v);
    } else {
      DirectWriteRun(st, ch, v, t);
    }
  }

  /** Every present mapping among the first `count`, the ones `set_value`
      reads for `count` paths, has a non-empty domain, so `interp` is
      defined. Mappings past the last path are never read. */
  predicate NonDegenerate(mappings: seq<Option<DomainRangeMap>>, count: nat) {
    forall i :: 0 <= i < |mappings| && i < count && mappings[i].Some? ==> mappings[i].value.a != mappings[i].value.b
  }

  /** The value written for path `i`: mapped through mapping `i` when there is
      one and it is present, the raw value otherwise. */
  function MappedValue(mappings: seq<Option<DomainRangeMap>>, i: nat, value: real): (x: real)
    requires NonDegenerate(mappings, i + 1)
    ensures (i >= |mappings| || mappings[i].None?) ==> x == value
    ensures i < |mappings| && mappings[i].Some? && value == mappings[i].value.a ==> x == mappings[i].value.c
    ensures i < |mappings| && mappings[i].Some? && value == mappings[i].value.b ==> x == mappings[i].value.d
  {
    if i < |mappings| && mappings[i].Some? then
      var m := mappings[i].value;
      Interp(value, m.a, m.b, m.c, m.d)
    else value
  }

  predicate AllNamed(paths: seq<ExtendedPropPath>) {
    forall i :: 0 <= i < |paths| ==> |paths[i]| > 0
  }

  /** The property an extended path names on the mobject with `prefix`. */
  function PathChannel(prefix: string, e: ExtendedPropPath): Channel
    requires |e| > 0
  {
    ObjectChannel(prefix, e[0], e[1..])
  }

  /** The entries `set_value` returns in animate mode. */
  function PlannedFor(prefix: string, paths: seq<ExtendedPropPath>, mappings: seq<Option<DomainRangeMap>>, value: real): seq<PlannedKeyframe>
    requires AllNamed(paths) && NonDegenerate(mappings, |paths|)
  {
    if paths == [] then []
    else
      var n := |paths| - 1;
      PlannedFor(prefix, paths[..n], mappings, value)
        + StagedChange(PathChannel(prefix, paths[n]), Num(MappedValue(mappings, n, value)))
  }

  /** Animate mode plans two entries per path, in path order: a capturing
      start, then an end carrying the mapped value. */
  lemma {:induction false} PlannedForShape(prefix: string, paths: seq<ExtendedPropPath>, mappings: seq<Option<DomainRangeMap>>, value: real)
    requires AllNamed(paths) && NonDegenerate(mappings, |paths|)
    ensures |PlannedFor(prefix, paths, mappings, value)| == 2 * |paths|
    ensures forall i :: 0 <= i < |paths| ==>
      && PlannedFor(prefix, paths, mappings, value)[2 * i] == PlannedKeyframe(Start, PathChannel(prefix, paths[i]), None)
      && PlannedFor(prefix, paths, mappings, value)[2 * i + 1]
         == PlannedKeyframe(End, PathChannel(prefix, paths[i]), Some(Num(MappedValue(mappings, i, value))))
    ensures WellStaged(PlannedFor(prefix, paths, mappings, value))
  {
    if paths != [] {
      var n := |paths| - 1;
      PlannedForShape(prefix, paths[..n], mappings, value);
      StagedChangeWellStaged(PlannedFor(prefix, paths[..n], mappings, value),
        PathChannel(prefix, paths[n]), Num(MappedValue(mappings, n, value)));
    }
  }

  /** The host writes `set_value` issues in direct mode. */
  function DirectOpsFor(prefix: string, paths: seq<ExtendedPropPath>, mappings: seq<Option<DomainRangeMap>>, value: real, t: real): seq<HostOp>
    requires AllNamed(paths) && NonDegenerate(mappings, |paths|)
  {
    if paths == [] then []
    else
      var n := |paths| - 1;
      DirectOpsFor(prefix, paths[..n], mappings, value, t)
        + DirectOps(PathChannel(prefix, paths[n]), Num(MappedValue(mappings, n, value)), t)
  }

  /** Direct mode keys every path twice, in path order: once one frame before
      `t` and once at `t` holding the mapped value. */
  lemma {:induction false} DirectOpsForRun(s: HostState, prefix: string, paths: seq<ExtendedPropPath>,
                                           mappings: seq<Option<DomainRangeMap>>, value: real, t: real)
    requires AllNamed(paths) && NonDegenerate(mappings, |paths|)
    ensures |Run(s, DirectOpsFor(prefix, paths, mappings, value, t)).log| == |s.log| + 2 * |paths|
    ensures Run(s, DirectOpsFor(prefix, paths, mappings, value, t)).log[..|s.log|] == s.log
    ensures forall i :: 0 <= i < |paths| ==>
      && Run(s, DirectOpsFor(prefix, paths, mappings, value, t)).log[|s.log| + 2 * i].channel == PathChannel(prefix, paths[i])
      && Run(s, DirectOpsFor(prefix, paths, mappings, value, t)).log[|s.log| + 2 * i].time == t - 1.0
      && Run(s, DirectOpsFor(prefix, paths, mappings, value, t)).log[|s.log| + 2 * i + 1]
         == KeyInsert(PathChannel(prefix, paths[i]), t, Some(Num(MappedValue(mappings, i, value))))
  {
    if paths != [] {
      var n := |paths| - 1;
      var ops := DirectOpsFor(prefix, paths[..n], mappings, value, t);
      var ch, v := PathChannel(prefix, paths[n]), Num(MappedValue(mappings, n, value));
      DirectOpsForRun(s, prefix, paths[..n], mappings, value, t);
      var mid := Run(s, ops);
      RunAppend(s, ops, DirectOps(ch, v, t));
      DirectWriteRun(mid, ch, v, t);
      assert Run(s, DirectOpsFor(prefix, paths, mappings, value, t)).log
          == mid.log + [KeyInsert(ch, t - 1.0, Current(mid.values, ch)), KeyInsert(ch, t, Some(v))];
    }
  }

  /** The markers a stage indexes: each marker object under its marker name,
      a later object replacing an earlier one of the same name. */
  function MarkerIndex(objNames: seq<string>): map<string, string> {
    if objNames == [] then map[]
    else
      var n := |objNames| - 1;
      MarkerIndex(objNames[..n])[MarkerName(objNames[n]) := objNames[n]]
  }

  /** Object `i` is the last one filed under `key`. */
  predicate LastNamed(objNames: seq<string>, key: string, i: int) {
    0 <= i < |objNames| && MarkerName(objNames[i]) == key
    && forall j :: i < j < |objNames| ==> MarkerName(objNames[j]) != key
  }

  /** Every marker object is reachable under its name. */
  lemma {:induction false} MarkerIndexKeys(objNames: seq<string>)
    ensures forall i :: 0 <= i < |objNames| ==> MarkerName(objNames[i]) in MarkerIndex(objNames)
  {
    if objNames != [] {
      MarkerIndexKeys(objNames[..|objNames| - 1]);
    }
  }

  /** Each name holds the last object carrying it. */
  lemma {:induction false} MarkerIndexLast(objNames: seq<string>, key: string)
    requires key in MarkerIndex(objNames)
    ensures exists i :: LastNamed(objNames, key, i) && MarkerIndex(objNames)[key] == objNames[i]
  {
    var n := |objNames| - 1;
    if key == MarkerName(objNames[n]) {
      assert LastNamed(objNames, key, n);
    } else {
      var init := objNames[..n];
      MarkerIndexLast(init, key);
      var i :| LastNamed(init, key, i) && MarkerIndex(init)[key] == init[i];
      forall j | i < j < |objNames|
        ensures MarkerName(objNames[j]) != key
      {
        if j < n {
          assert objNames[j] == init[j];
        }
      }
      assert objNames[i] == init[i];
    }
  }
}
