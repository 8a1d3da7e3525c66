/** String helpers shared by every part of the model: prefixes, suffixes and
    JavaScript's `Array.prototype.join` over strings. */
module Text {

  predicate StartsWith(s: string, prefix: string) {
    |prefix| <= |s| && s[..|prefix|] == prefix
  }

  /** A string that starts with `p + q` starts with `p`. */
  lemma StartsWithLonger(s: string, p: string, q: string)
    requires StartsWith(s, p + q)
    ensures StartsWith(s, p)
  {
    assert s[..|p|] == s[..|p + q|][..|p|];
  }

  /** `s.endsWith(suffix)`, also the EventBridge `suffix` matcher. */
  predicate EndsWith(s: string, suffix: string) {
    |suffix| <= |s| && s[|s| - |suffix|..] == suffix
  }

  /** A string framed by a prefix and a suffix starts and ends with them,
      and cutting them off gives the middle back. */
  lemma Framed(prefix: string, middle: string, suffix: string)
    ensures var s := prefix + middle + suffix;
            && StartsWith(s, prefix) && EndsWith(s, suffix)
            && s[|prefix| .. |s| - |suffix|] == middle
  {
    var s := prefix + middle + suffix;
    assert s[..|prefix|] == prefix;
    assert s[|s| - |suffix|..] == suffix;
    assert s[|prefix| .. |s| - |suffix|] == middle;
  }

  /** Sum of the lengths of the parts. */
  function TotalLength(parts: seq<string>): nat {
    if |parts| == 0 then 0
    else TotalLength(parts[..|parts| - 1]) + |parts[|parts| - 1]|
  }

  /** `parts.join(sep)`: the parts in order, `sep` between neighbours. */
  function Join(parts: seq<string>, sep: string): string {
    if |parts| == 0 then ""
    else if |parts| == 1 then parts[0]
    else Join(parts[..|parts| - 1], sep) + sep + parts[|parts| - 1]
  }

  /** Joining n parts adds n - 1 separators to their total length. */
  lemma {:induction false} JoinLength(parts: seq<string>, sep: string)
    ensures |Join(parts, sep)| == TotalLength(parts) + (if |parts| == 0 then 0 else (|parts| - 1) * |sep|)
  {
    var n := |parts|;
    if n == 1 {
      assert parts[..0] == [];
    } else if n >= 2 {
      var init := parts[..n - 1];
      JoinLength(init, sep);
      assert |Join(parts, sep)| == |Join(init, sep)| + |sep| + |parts[n - 1]|;
      assert (n - 2) * |sep| + |sep| == (n - 1) * |sep|;
    }
  }

  /** With the empty separator every part sits, unchanged, right after the
      parts before it: the join is their in-order concatenation. */
  lemma {:induction false} JoinEmptyPlacesEachPart(parts: seq<string>, i: nat)
    requires i < |parts|
    ensures |Join(parts, "")| == TotalLength(parts)
    ensures TotalLength(parts[..i]) + |parts[i]| <= |Join(parts, "")|
    ensures Join(parts, "")[TotalLength(parts[..i]) .. TotalLength(parts[..i]) + |parts[i]|] == parts[i]
  {
    var n := |parts|;
    JoinLength(parts, "");
    if n == 1 {
      assert parts[..0] == [];
    } else {
      var init := parts[..n - 1];
      JoinLength(init, "");
      assert Join(parts, "") == Join(init, "") + parts[n - 1];
      if i == n - 1 {
        assert parts[..i] == init;
      } else {
        JoinEmptyPlacesEachPart(init, i);
        assert init[..i] == parts[..i];
        assert init[i] == parts[i];
        var a := TotalLength(parts[..i]);
        var b := a + |parts[i]|;
        assert Join(parts, "")[a..b] == Join(init, "")[a..b];
      }
    }
  }
}
