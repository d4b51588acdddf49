/** Helpers of `core/utils.py`: the linear re-mapping `interp` and the
    reserved-prefix registry. */
module Utils {
  import opened Strings

  /** `interp(x, a, b, c, d)`. Its body is not part of this model; it is
      ASSUMED to be the linear map sending `a` to `c` and `b` to `d`, which is
      how every caller uses it. A degenerate domain (`a == b`) is excluded. */
  function Interp(x: real, a: real, b: real, c: real, d: real): (r: real)
    requires a != b
    ensures x == a ==> r == c
    ensures x == b ==> r == d
  {
    assert (b - a) * (d - c) / (b - a) == d - c;
    c + (x - a) * (d - c) / (b - a)
  }

  /** With an increasing domain and a non-decreasing range the map is monotone;
      with an increasing range it is strictly monotone, so a point past `b`
      lands past `d`. */
  lemma InterpMonotone(x: real, y: real, a: real, b: real, c: real, d: real)
    requires a < b && c <= d && x <= y
    ensures Interp(x, a, b, c, d) <= Interp(y, a, b, c, d)
    ensures c < d && x < y ==> Interp(x, a, b, c, d) < Interp(y, a, b, c, d)
  {
    var k := (d - c) / (b - a);
    assert k >= 0.0;
    assert (x - a) * (d - c) / (b - a) == (x - a) * k;
    assert (y - a) * (d - c) / (b - a) == (y - a) * k;
    assert (y - a) * k - (x - a) * k == (y - x) * k;
    assert (y - x) * k >= 0.0;
    assert Interp(x, a, b, c, d) == c + (x - a) * k;
    assert Interp(y, a, b, c, d) == c + (y - a) * k;
    assert Interp(y, a, b, c, d) - Interp(x, a, b, c, d) == (y - x) * k;
    if c < d && x < y {
      assert k > 0.0;
      assert (y - x) * k > 0.0;
    }
  }

  const RegistryHeader: seq<string> := [
    "# List of reserved prefixes in use by modular_motion.",
    "# Do not delete or change the contents of this text."
  ]

  /** `is_prefix_reserved`: some registry line starts with `p`. */
  predicate IsPrefixReserved(lines: seq<string>, p: string)
    decreases |lines|
  {
    lines != [] && (IsPrefixReserved(lines[..|lines| - 1], p) || IsPrefix(p, lines[|lines| - 1]))
  }

  /** The recursive test agrees with "there is a line that starts with `p`". */
  lemma {:induction false} IsPrefixReservedMeans(lines: seq<string>, p: string)
    ensures IsPrefixReserved(lines, p) <==> exists k :: 0 <= k < |lines| && IsPrefix(p, lines[k])
    decreases |lines|
  {
    if lines != [] {
      var init := lines[..|lines| - 1];
      IsPrefixReservedMeans(init, p);
      if exists k :: 0 <= k < |lines| && IsPrefix(p, lines[k]) {
        var k :| 0 <= k < |lines| && IsPrefix(p, lines[k]);
        if k < |init| {
          assert init[k] == lines[k];
        }
      }
      if IsPrefixReserved(init, p) {
        var k :| 0 <= k < |init| && IsPrefix(p, init[k]);
        assert lines[k] == init[k];
      }
    }
  }

  /** The candidate for counter `c`: `base + str(c).zfill(2)`. */
  function Candidate(base: string, c: nat): string {
    base + ZFill2(NatToString(c))
  }

  /** A candidate starts with the base and ends in at least two decimal digits. */
  lemma CandidateShape(base: string, c: nat)
    ensures var p := Candidate(base, c);
      && |p| >= |base| + 2 && p[..|base|] == base
      && forall i :: |base| <= i < |p| ==> IsDigit(p[i])
  {
    var digits := NatToString(c);
    NatToStringDigits(c);
    var s := ZFill2(digits);
    ZFill2Shape(digits);
    forall i | 0 <= i < |s| ensures IsDigit(s[i]) {
      if i >= |s| - |digits| {
        assert s[i] == s[|s| - |digits|..][i - (|s| - |digits|)];
      }
    }
  }

  function MaxLength(lines: seq<string>): (m: nat)
    ensures forall k :: 0 <= k < |lines| ==> |lines[k]| <= m
  {
    if lines == [] then 0
    else var m := MaxLength(lines[1..]); if |lines[0]| > m then |lines[0]| else m
  }

  /** A candidate longer than every line is free, so the search stops at
      10^(longest line) at the latest. */
  lemma LongCandidateIsFree(lines: seq<string>, base: string) returns (bound: nat)
    ensures !IsPrefixReserved(lines, Candidate(base, bound))
  {
    bound := Pow10(MaxLength(lines));
    NatToStringLength(bound, MaxLength(lines));
    ZFill2Shape(NatToString(bound));
    IsPrefixReservedMeans(lines, Candidate(base, bound));
  }

  /** Every counter below `n` has a reserved candidate. */
  predicate AllReservedBelow(lines: seq<string>, base: string, n: nat) {
    n == 0 || (AllReservedBelow(lines, base, n - 1) && IsPrefixReserved(lines, Candidate(base, n - 1)))
  }

  lemma {:induction false} AllReservedBelowAt(lines: seq<string>, base: string, n: nat, c: nat)
    requires AllReservedBelow(lines, base, n) && c < n
    ensures IsPrefixReserved(lines, Candidate(base, c))
  {
    if c < n - 1 {
      AllReservedBelowAt(lines, base, n - 1, c);
    }
  }

  /** The counter search of `reserve_original_prefix`: the smallest counter
      whose candidate is not a prefix of any registry line. */
  method FindOriginalPrefix(lines: seq<string>, base: string) returns (counter: nat, prefix: string)
    ensures prefix == Candidate(base, counter)
    ensures |prefix| >= |base| + 2 && prefix[..|base|] == base
    ensures forall i :: |base| <= i < |prefix| ==> IsDigit(prefix[i])
    ensures !IsPrefixReserved(lines, prefix)
    ensures forall c :: 0 <= c < counter ==> IsPrefixReserved(lines, Candidate(base, c))
  {
    ghost var bound := LongCandidateIsFree(lines, base);
    ghost var free := Candidate(base, bound);
    counter := 0;
    prefix := Candidate(base, counter);
    while IsPrefixReserved(lines, prefix)
      invariant counter <= bound
      invariant !IsPrefixReserved(lines, free)
      invariant prefix == Candidate(base, counter)
      invariant AllReservedBelow(lines, base, counter)
      decreases bound - counter
    {
      if counter == bound {
        assert false;
      }
      counter := counter + 1;
      prefix := Candidate(base, counter);
    }
    assert |prefix| >= |base| + 2 && prefix[..|base|] == base
      && forall i :: |base| <= i < |prefix| ==> IsDigit(prefix[i]) by {
      CandidateShape(base, counter);
    }
    assert forall c :: 0 <= c < counter ==> IsPrefixReserved(lines, Candidate(base, c)) by {
      forall c | 0 <= c < counter
        ensures IsPrefixReserved(lines, Candidate(base, c))
      {
        AllReservedBelowAt(lines, base, counter, c);
      }
    }
  }

  /** A reserved prefix blocks itself: after it is appended, no later search
      can return it, nor any prefix of it. */
  lemma {:induction false} ReservationExcludes(lines: seq<string>, first: string, second: string)
    requires !IsPrefixReserved(lines + [first], second)
    ensures !IsPrefix(second, first)
    ensures second != first
  {
    assert (lines + [first])[..|lines|] == lines;
  }

  /** The `_M.reserved_prefixes` text data-block. */
  class PrefixRegistry {
    /** Whether the text data-block exists yet. */
    var created: bool
    var lines: seq<string>

    constructor ()
      ensures !created && lines == []
    {
      created := false;
      lines := [];
    }

    /** `reserve_original_prefix(base)`: creates the registry with its header
        when absent, finds the smallest free counter and appends the winner as
        a new last line. The `post` argument of the original is never read by
        its body and is not modelled. */
    method ReserveOriginalPrefix(base: string) returns (prefix: string, ghost counter: nat)
      modifies this
      ensures created
      ensures var before := if old(created) then old(lines) else RegistryHeader;
        && lines == before + [prefix]
        && prefix == Candidate(base, counter)
        && !IsPrefixReserved(before, prefix)
        && forall c :: 0 <= c < counter ==> IsPrefixReserved(before, Candidate(base, c))
    {
      if !created {
        created := true;
        lines := RegistryHeader;
      }
      counter, prefix := FindOriginalPrefix(lines, base);
      lines := lines + [prefix];
    }
  }
}
