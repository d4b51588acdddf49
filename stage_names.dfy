/** The two name conventions of the stage (core/stage.py): the collection
    that records a stage's prefix, and the name a marker object is filed
    under. */
module StageNames {
  import opened Wrappers

  /** Appended to a stage prefix to name the collection that records it. */
  const StagePrefixSuffix: string := " [stage_prefix]"

  /** The collection name recording stage prefix `prefix`. */
  function StagePrefixCollectionName(prefix: string): (r: string)
    ensures |r| == |prefix| + 15 && r[..|prefix|] == prefix && r[|prefix|..] == StagePrefixSuffix
  {
    prefix + StagePrefixSuffix
  }

  /** For a collection whose name ends with the suffix, the previous stage's
      prefix: the name without its last 15 characters. */
  function PreviousStagePrefix(name: string): (r: Option<string>)
    ensures r.Some? <==> |name| >= |StagePrefixSuffix| && name[|name| - |StagePrefixSuffix|..] == StagePrefixSuffix
    ensures r.Some? ==> r.value + StagePrefixSuffix == name
  {
    if |name| >= |StagePrefixSuffix| && name[|name| - |StagePrefixSuffix|..] == StagePrefixSuffix
    then Some(name[..|name| - 15])
    else None
  }

  /** The prefix a stage records is the one a later stage recovers. */
  lemma StagePrefixRoundTrip(prefix: string)
    ensures PreviousStagePrefix(StagePrefixCollectionName(prefix)) == Some(prefix)
  {
    var n := StagePrefixCollectionName(prefix);
    assert n[|n| - 15..] == StagePrefixSuffix;
  }

  /** Every recovered prefix names back the collection it came from; other
      collections yield nothing. */
  lemma StagePrefixRecovered(name: string)
    ensures PreviousStagePrefix(name).Some? <==> exists p :: StagePrefixCollectionName(p) == name
    ensures PreviousStagePrefix(name).Some? ==> StagePrefixCollectionName(PreviousStagePrefix(name).value) == name
  {
    if PreviousStagePrefix(name).Some? {
      var p := name[..|name| - 15];
      assert StagePrefixCollectionName(p) == name;
    }
  }

  // ---- Marker names: the first match of the regular expression \[.+\] ----

  /** `s[i..j + 1]` is a match of `\[.+\]`: an opening bracket, at least one
      character other than a line break, and a closing bracket. */
  predicate IsMatch(s: string, i: int, j: int) {
    0 <= i && i + 2 <= j < |s| && s[i] == '[' && s[j] == ']'
    && forall k :: i < k < j ==> s[k] != '\n'
  }

  /** The end of the line that position `p` is on. */
  function LineEnd(s: string, p: nat): (e: nat)
    requires p <= |s|
    ensures p <= e <= |s|
    ensures forall k :: p <= k < e ==> s[k] != '\n'
    ensures e < |s| ==> s[e] == '\n'
    decreases |s| - p
  {
    if p == |s| || s[p] == '\n' then p else LineEnd(s, p + 1)
  }

  /** The last closing bracket in `s[lo..hi]`. */
  function LastClose(s: string, lo: nat, hi: nat): (r: Option<nat>)
    requires hi <= |s|
    ensures r.Some? ==> lo <= r.value < hi && s[r.value] == ']'
    ensures r.Some? ==> forall k :: r.value < k < hi ==> s[k] != ']'
    ensures r.None? ==> forall k :: lo <= k < hi ==> s[k] != ']'
    decreases hi
  {
    if hi <= lo then None
    else if s[hi - 1] == ']' then Some(hi - 1)
    else LastClose(s, lo, hi - 1)
  }

  /** The longest match starting at `i`, as the greedy `.+` finds it: the last
      closing bracket on the line, at least two positions after `i`. */
  function MatchAt(s: string, i: nat): (r: Option<nat>)
    requires i < |s|
    ensures r.Some? ==> IsMatch(s, i, r.value)
    ensures r.Some? ==> forall j :: IsMatch(s, i, j) ==> j <= r.value
    ensures r.None? ==> forall j :: !IsMatch(s, i, j)
  {
    if s[i] != '[' then None
    else
      var e := LineEnd(s, i + 1);
      var r := LastClose(s, i + 2, e);
      r
  }

  /** The leftmost match at or after `from`, as `re.search` finds it. */
  function FirstMatch(s: string, from: nat): (r: Option<(nat, nat)>)
    ensures r.Some? ==> from <= r.value.0 && IsMatch(s, r.value.0, r.value.1)
    ensures r.Some? ==> forall j :: IsMatch(s, r.value.0, j) ==> j <= r.value.1
    ensures r.Some? ==> forall i, j :: from <= i < r.value.0 ==> !IsMatch(s, i, j)
    ensures r.None? ==> forall i, j :: from <= i ==> !IsMatch(s, i, j)
    decreases |s| - from
  {
    if from >= |s| then None
    else match MatchAt(s, from)
      case Some(j) => Some((from, j))
      case None => FirstMatch(s, from + 1)
  }

  /** The name a marker object is filed under: the text between the brackets
      of the first match when there is one, otherwise the whole object name. */
  function MarkerName(objName: string): (r: string)
    ensures (forall i, j :: !IsMatch(objName, i, j)) ==> r == objName
    ensures r == objName || exists i, j :: IsMatch(objName, i, j) && r == objName[i + 1..j]
  {
    match FirstMatch(objName, 0)
    case Some((i, j)) => objName[i + 1..j]
    case None => objName
  }

  /** Without a match the whole name is used; with one, the text inside the
      leftmost match, taken as long as the greedy `.+` makes it. */
  lemma MarkerNameMatch(objName: string)
    ensures (forall i, j :: !IsMatch(objName, i, j)) ==> MarkerName(objName) == objName
    ensures (exists i, j :: IsMatch(objName, i, j)) ==>
      exists i, j :: IsMatch(objName, i, j) && MarkerName(objName) == objName[i + 1..j]
        && (forall i', j' :: 0 <= i' < i ==> !IsMatch(objName, i', j'))
        && (forall j' :: IsMatch(objName, i, j') ==> j' <= j)
  {
  }

  /** A name without an opening bracket is used whole. */
  lemma NoBracketWholeName(objName: string)
    requires forall k :: 0 <= k < |objName| ==> objName[k] != '['
    ensures MarkerName(objName) == objName
  {
    assert forall i, j :: !IsMatch(objName, i, j);
    MarkerNameMatch(objName);
  }

  /** A name ending in a bracketed tag, with no bracket before it, is filed
      under the tag. */
  lemma TaggedName(head: string, tag: string)
    requires forall k :: 0 <= k < |head| ==> head[k] != '['
    requires |tag| > 0 && forall k :: 0 <= k < |tag| ==> tag[k] != ']' && tag[k] != '\n'
    ensures MarkerName(head + "[" + tag + "]") == tag
  {
    var s := head + "[" + tag + "]";
    var i, j := |head|, |head| + |tag| + 1;
    assert IsMatch(s, i, j);
    var m := FirstMatch(s, 0);
    assert m.value.0 == i by {
      assert s[m.value.0] == '[';
      assert m.value.0 <= i;
    }
    assert m.value.1 == j by {
      assert m.value.1 >= j;
      assert m.value.1 < |s|;
    }
    assert s[i + 1..j] == tag;
  }
}
