/** Planned keyframes, the deferred half of animate mode, and the order in
    which `Stage.play` commits them to the host (core/stage.py). */
module Planning {
  import opened Wrappers
  import opened Timeline

  datatype Kind = Start | End

  /** `{"object", "type", "prop_path", "value"}`: a keyframe to insert when the
      owning animation is played. A `None` value means "capture whatever the
      property holds at commit time". */
  datatype PlannedKeyframe = PlannedKeyframe(kind: Kind, channel: Channel, value: Option<Value>)

  /** The pair animate mode plans for one property change: a capturing start
      entry, then an end entry carrying the new value. */
  function StagedChange(ch: Channel, v: Value): seq<PlannedKeyframe> {
    [PlannedKeyframe(Start, ch, None), PlannedKeyframe(End, ch, Some(v))]
  }

  /** The shape every queue built by animate mode has: start entries capture,
      end entries carry a value. */
  predicate WellStaged(q: seq<PlannedKeyframe>) {
    forall k :: 0 <= k < |q| ==> (q[k].kind == Start <==> q[k].value == None)
  }

  lemma StagedChangeWellStaged(q: seq<PlannedKeyframe>, ch: Channel, v: Value)
    requires WellStaged(q)
    ensures WellStaged(q + StagedChange(ch, v))
  {
  }

  /** Appending one well-staged queue to another keeps the shape. */
  lemma WellStagedAppend(a: seq<PlannedKeyframe>, b: seq<PlannedKeyframe>)
    requires WellStaged(a) && WellStaged(b)
    ensures WellStaged(a + b)
  {
    forall k | 0 <= k < |a + b|
      ensures (a + b)[k].kind == Start <==> (a + b)[k].value == None
    {
      if k >= |a| {
        assert (a + b)[k] == b[k - |a|];
      }
    }
  }

  /** `filter(lambda k: k["type"] == kind, q)` */
  function OfKind(q: seq<PlannedKeyframe>, kind: Kind): seq<PlannedKeyframe> {
    if q == [] then []
    else OfKind(q[..|q| - 1], kind) + (if q[|q| - 1].kind == kind then [q[|q| - 1]] else [])
  }

  lemma OfKindSnoc(init: seq<PlannedKeyframe>, e: PlannedKeyframe, kind: Kind)
    ensures OfKind(init + [e], kind) == OfKind(init, kind) + (if e.kind == kind then [e] else [])
  {
    assert (init + [e])[..|init|] == init;
  }

  lemma MultisetSnoc<T>(picked: seq<T>, rest: seq<T>, all: seq<T>, e: T)
    requires multiset(picked) + multiset(rest) == multiset(all)
    ensures multiset(picked + [e]) + multiset(rest) == multiset(all + [e])
    ensures multiset(rest) + multiset(picked + [e]) == multiset(all + [e])
  {
  }

  lemma PartitionSnoc(init: seq<PlannedKeyframe>, e: PlannedKeyframe)
    requires multiset(OfKind(init, Start)) + multiset(OfKind(init, End)) == multiset(init)
    ensures multiset(OfKind(init + [e], Start)) + multiset(OfKind(init + [e], End)) == multiset(init + [e])
  {
    var starts, ends := OfKind(init, Start), OfKind(init, End);
    OfKindSnoc(init, e, Start);
    OfKindSnoc(init, e, End);
    if e.kind == Start {
      MultisetSnoc(starts, ends, init, e);
    } else {
      assert multiset(ends) + multiset(starts) == multiset(init);
      MultisetSnoc(ends, starts, init, e);
    }
  }

  /** A prefix one longer is the shorter prefix plus the next element. */
  lemma TakeSnoc<T>(s: seq<T>, k: nat)
    requires k < |s|
    ensures s[..k + 1] == s[..k] + [s[k]]
  {
  }

  /** Every entry of the queue is committed exactly once: the start entries
      and the end entries together are the whole queue. */
  lemma {:induction false} OfKindPartition(q: seq<PlannedKeyframe>)
    ensures multiset(OfKind(q, Start)) + multiset(OfKind(q, End)) == multiset(q)
  {
    if q != [] {
      var init, e := q[..|q| - 1], q[|q| - 1];
      OfKindPartition(init);
      PartitionSnoc(init, e);
      TakeSnoc(q, |q| - 1);
      assert q[..|q|] == q;
    }
  }

  /** In a well-staged queue the start entries all capture and the end
      entries all carry a value. */
  lemma {:induction false} OfKindValues(q: seq<PlannedKeyframe>)
    requires WellStaged(q)
    ensures forall k :: 0 <= k < |OfKind(q, Start)| ==> OfKind(q, Start)[k].value == None
    ensures forall k :: 0 <= k < |OfKind(q, End)| ==> OfKind(q, End)[k].value.Some?
  {
    if q != [] {
      OfKindValues(q[..|q| - 1]);
    }
  }

  /** The host operations for one committed entry: assign the value when the
      entry carries one, then insert a keyframe at `frame`. */
  function WriteOps(e: PlannedKeyframe, frame: real): seq<HostOp> {
    (if e.value.Some? then [SetOp(e.channel, e.value.value)] else []) + [InsertOp(e.channel, frame)]
  }

  function EntryOps(entries: seq<PlannedKeyframe>, frame: real): seq<HostOp> {
    if entries == [] then []
    else EntryOps(entries[..|entries| - 1], frame) + WriteOps(entries[|entries| - 1], frame)
  }

  /** One animatable's commit in `play`: every start entry at `t0`, then every
      end entry at `t1`, each kind in queue order. */
  function CommitOps(q: seq<PlannedKeyframe>, t0: real, t1: real): seq<HostOp> {
    EntryOps(OfKind(q, Start), t0) + EntryOps(OfKind(q, End), t1)
  }

  /** The whole of `play`: the animatables' commits one after the other. */
  function PlayOps(queues: seq<seq<PlannedKeyframe>>, t0: real, t1: real): seq<HostOp> {
    if queues == [] then []
    else PlayOps(queues[..|queues| - 1], t0, t1) + CommitOps(queues[|queues| - 1], t0, t1)
  }

  /** The keyframes capturing start entries leave: the value each property
      holds in `values`. */
  function Captures(entries: seq<PlannedKeyframe>, frame: real, values: map<Channel, Value>): (r: seq<KeyInsert>)
    ensures |r| == |entries|
    ensures forall k :: 0 <= k < |r| ==> r[k] == KeyInsert(entries[k].channel, frame, Current(values, entries[k].channel))
  {
    seq(|entries|, k requires 0 <= k < |entries| => KeyInsert(entries[k].channel, frame, Current(values, entries[k].channel)))
  }

  /** The keyframes value-carrying entries leave: each entry's own value. */
  function Records(entries: seq<PlannedKeyframe>, frame: real): (r: seq<KeyInsert>)
    ensures |r| == |entries|
    ensures forall k :: 0 <= k < |r| ==> r[k] == KeyInsert(entries[k].channel, frame, entries[k].value)
  {
    seq(|entries|, k requires 0 <= k < |entries| => KeyInsert(entries[k].channel, frame, entries[k].value))
  }

  /** Committing capturing entries changes no property and logs, in order,
      one keyframe per entry holding the value the property had before. */
  lemma {:induction false} CapturesRun(s: HostState, entries: seq<PlannedKeyframe>, frame: real)
    requires forall k :: 0 <= k < |entries| ==> entries[k].value == None
    ensures Run(s, EntryOps(entries, frame)) == HostState(s.values, s.log + Captures(entries, frame, s.values))
    decreases |entries|
  {
    if entries == [] {
      assert s.log + Captures(entries, frame, s.values) == s.log;
    } else {
      var init, e := entries[..|entries| - 1], entries[|entries| - 1];
      CapturesRun(s, init, frame);
      RunAppend(s, EntryOps(init, frame), WriteOps(e, frame));
      assert WriteOps(e, frame) == [InsertOp(e.channel, frame)];
      RunSingle(Run(s, EntryOps(init, frame)), InsertOp(e.channel, frame));
      assert Captures(entries, frame, s.values) == Captures(init, frame, s.values) + [KeyInsert(e.channel, frame, Current(s.values, e.channel))];
    }
  }

  /** Committing value-carrying entries logs, in order, one keyframe per entry
      holding that entry's value: each assignment immediately precedes its
      insert on the same property. */
  lemma {:induction false} RecordsRun(s: HostState, entries: seq<PlannedKeyframe>, frame: real)
    requires forall k :: 0 <= k < |entries| ==> entries[k].value.Some?
    ensures Run(s, EntryOps(entries, frame)).log == s.log + Records(entries, frame)
    decreases |entries|
  {
    if entries == [] {
      assert s.log + Records(entries, frame) == s.log;
    } else {
      var init, e := entries[..|entries| - 1], entries[|entries| - 1];
      RecordsRun(s, init, frame);
      var mid := Run(s, EntryOps(init, frame));
      RunAppend(s, EntryOps(init, frame), WriteOps(e, frame));
      var set1 := SetOp(e.channel, e.value.value);
      assert WriteOps(e, frame) == [set1] + [InsertOp(e.channel, frame)];
      RunAppend(mid, [set1], [InsertOp(e.channel, frame)]);
      RunSingle(mid, set1);
      RunSingle(Run(mid, [set1]), InsertOp(e.channel, frame));
      assert Records(entries, frame) == Records(init, frame) + [KeyInsert(e.channel, frame, e.value)];
    }
  }

  /** What one animatable's commit logs, for a queue animate mode built: first
      one keyframe per start entry at `t0`, in queue order, each holding the
      value the property had BEFORE the commit; then one keyframe per end
      entry at `t1`, in queue order, each holding the entry's value. No end
      assignment can leak into a start capture. */
  lemma CommitLog(s: HostState, q: seq<PlannedKeyframe>, t0: real, t1: real)
    requires WellStaged(q)
    ensures Run(s, CommitOps(q, t0, t1)).log
         == s.log + Captures(OfKind(q, Start), t0, s.values) + Records(OfKind(q, End), t1)
  {
    var starts, ends := OfKind(q, Start), OfKind(q, End);
    OfKindValues(q);
    RunAppend(s, EntryOps(starts, t0), EntryOps(ends, t1));
    CapturesRun(s, starts, t0);
    RecordsRun(Run(s, EntryOps(starts, t0)), ends, t1);
  }

  lemma {:induction false} InsertCountAppend(a: seq<HostOp>, b: seq<HostOp>)
    ensures InsertCount(a + b) == InsertCount(a) + InsertCount(b)
    decreases |b|
  {
    if b == [] {
      assert a + b == a;
    } else {
      assert (a + b)[..|a + b| - 1] == a + b[..|b| - 1];
      InsertCountAppend(a, b[..|b| - 1]);
    }
  }

  /** Each committed entry issues exactly one insert. */
  lemma {:induction false} EntryOpsInserts(entries: seq<PlannedKeyframe>, frame: real)
    ensures InsertCount(EntryOps(entries, frame)) == |entries|
    decreases |entries|
  {
    if entries != [] {
      var init, e := entries[..|entries| - 1], entries[|entries| - 1];
      EntryOpsInserts(init, frame);
      InsertCountAppend(EntryOps(init, frame), WriteOps(e, frame));
      var w := WriteOps(e, frame);
      assert w[..|w| - 1] == (if e.value.Some? then [SetOp(e.channel, e.value.value)] else []);
      if e.value.Some? {
        assert w[..|w| - 1][..0] == [];
      }
    }
  }

  /** The total number of entries over several queues. */
  function TotalEntries(queues: seq<seq<PlannedKeyframe>>): nat {
    if queues == [] then 0 else TotalEntries(queues[..|queues| - 1]) + |queues[|queues| - 1]|
  }

  /** `play` leaves exactly one keyframe per dumped entry, appended after
      every keyframe already in the log. */
  lemma PlayLogGrows(s: HostState, queues: seq<seq<PlannedKeyframe>>, t0: real, t1: real)
    ensures |Run(s, PlayOps(queues, t0, t1)).log| == |s.log| + TotalEntries(queues)
    ensures Run(s, PlayOps(queues, t0, t1)).log[..|s.log|] == s.log
  {
    RunLogGrows(s, PlayOps(queues, t0, t1));
    PlayInserts(queues, t0, t1);
  }

  lemma {:induction false} PlayInserts(queues: seq<seq<PlannedKeyframe>>, t0: real, t1: real)
    ensures InsertCount(PlayOps(queues, t0, t1)) == TotalEntries(queues)
    decreases |queues|
  {
    if queues != [] {
      var init, q := queues[..|queues| - 1], queues[|queues| - 1];
      PlayInserts(init, t0, t1);
      InsertCountAppend(PlayOps(init, t0, t1), CommitOps(q, t0, t1));
      InsertCountAppend(EntryOps(OfKind(q, Start), t0), EntryOps(OfKind(q, End), t1));
      EntryOpsInserts(OfKind(q, Start), t0);
      EntryOpsInserts(OfKind(q, End), t1);
      OfKindPartition(q);
      assert |multiset(OfKind(q, Start))| + |multiset(OfKind(q, End))| == |multiset(q)|;
    }
  }
}
