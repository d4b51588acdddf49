/** The host application's animation storage, reduced to what the core uses:
    the current value of every addressed property, and an append-only log of
    the keyframes inserted, each recording the value the property held at
    the moment of the insert. `keyframe_insert` and `set_value_by_prop_path`
    are the two operations; everything the core writes goes through them. */
module Timeline {
  import opened Wrappers

  /** A three-component vector (location, Euler rotation, scale). */
  datatype Vec3 = Vec3(x: real, y: real, z: real) {
    /** Component-wise sum, as `Vector + Vector`. */
    function Add(o: Vec3): Vec3 {
      Vec3(x + o.x, y + o.y, z + o.z)
    }

    /** Component-wise product, as `Vector * Vector`. */
    function Mul(o: Vec3): Vec3 {
      Vec3(x * o.x, y * o.y, z * o.z)
    }
  }

  /** A property value: a scalar (an fcurve value, a custom property) or a vector. */
  datatype Value = Num(r: real) | Vector(v: Vec3)

  /** A property path such as ["modifiers", "[Array]", "count"]. */
  type PropPath = seq<string>

  /** A data-block: `bpy.data.<scope>[name]`, e.g. scope "objects" or "shape_keys". */
  datatype Target = Target(scope: string, name: string)

  /** One animatable property of one data-block. */
  datatype Channel = Channel(target: Target, path: PropPath)

  /** A keyframe inserted on `channel` at `time`, holding the property's value
      at that moment (None when the property had never been assigned). */
  datatype KeyInsert = KeyInsert(channel: Channel, time: real, value: Option<Value>)

  datatype HostState = HostState(values: map<Channel, Value>, log: seq<KeyInsert>)

  /** The two host operations the core issues. */
  datatype HostOp = SetOp(channel: Channel, value: Value) | InsertOp(channel: Channel, time: real)

  function Current(values: map<Channel, Value>, ch: Channel): Option<Value> {
    if ch in values then Some(values[ch]) else None
  }

  function Apply(s: HostState, op: HostOp): HostState {
    match op
    case SetOp(ch, v) => HostState(s.values[ch := v], s.log)
    case InsertOp(ch, t) => HostState(s.values, s.log + [KeyInsert(ch, t, Current(s.values, ch))])
  }

  /** The state after issuing `ops` in order. */
  function Run(s: HostState, ops: seq<HostOp>): HostState
    decreases |ops|
  {
    if ops == [] then s else Apply(Run(s, ops[..|ops| - 1]), ops[|ops| - 1])
  }

  function InsertCount(ops: seq<HostOp>): (n: nat)
    ensures n <= |ops|
  {
    if ops == [] then 0 else InsertCount(ops[..|ops| - 1]) + (if ops[|ops| - 1].InsertOp? then 1 else 0)
  }

  /** Running `ops` adds one log entry per insert operation and never
      removes or rewrites an earlier entry. */
  lemma {:induction false} RunLogGrows(s: HostState, ops: seq<HostOp>)
    ensures |Run(s, ops).log| == |s.log| + InsertCount(ops)
    ensures Run(s, ops).log[..|s.log|] == s.log
    decreases |ops|
  {
    if ops != [] {
      RunLogGrows(s, ops[..|ops| - 1]);
    }
  }

  lemma {:induction false} RunAppend(s: HostState, a: seq<HostOp>, b: seq<HostOp>)
    ensures Run(s, a + b) == Run(Run(s, a), b)
    decreases |b|
  {
    if b == [] {
      assert a + b == a;
    } else {
      assert (a + b)[..|a + b| - 1] == a + b[..|b| - 1];
      RunAppend(s, a, b[..|b| - 1]);
    }
  }

  lemma RunSingle(s: HostState, op: HostOp)
    ensures Run(s, [op]) == Apply(s, op)
  {
    assert [op][..0] == [];
  }

  lemma TwoOps(st: HostState, op1: HostOp, op2: HostOp)
    ensures Run(st, [op1, op2]) == Apply(Apply(st, op1), op2)
  {
    assert [op1, op2][..1] == [op1];
    assert [op1][..0] == [];
    assert Run(st, [op1]) == Apply(Run(st, []), op1);
  }

  /** The host: `bpy.data` property values and the keyframes inserted so far. */
  class Host {
    var values: map<Channel, Value>
    var log: seq<KeyInsert>

    function State(): HostState
      reads this
    {
      HostState(values, log)
    }

    constructor (initial: map<Channel, Value>)
      ensures values == initial && log == []
    {
      values := initial;
      log := [];
    }

    /** `set_value_by_prop_path`: assigns the property; inserts no keyframe. */
    method SetValueByPropPath(ch: Channel, v: Value)
      modifies this
      ensures values == old(values)[ch := v] && log == old(log)
      ensures State() == Apply(old(State()), SetOp(ch, v))
    {
      values := values[ch := v];
    }

    /** `keyframe_insert`: records the property's current value at time `t`. */
    method KeyframeInsert(ch: Channel, t: real)
      modifies this
      ensures values == old(values)
      ensures log == old(log) + [KeyInsert(ch, t, Current(old(values), ch))]
      ensures State() == Apply(old(State()), InsertOp(ch, t))
    {
      log := log + [KeyInsert(ch, t, Current(values, ch))];
    }
  }
}
