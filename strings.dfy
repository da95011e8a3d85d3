/** Text operations of the .NET base library that the normaliser and the mail composer rely on:
    String.Trim, String.ToLower, String.Replace(old, "") and String.Join, plus sequence helpers. */
module Strings {

  /** Char.IsWhiteSpace: the Unicode space, line and paragraph separators, U+0009..U+000D, U+0085
      and U+00A0. */
  predicate IsWhiteSpace(c: char) {
    c == ' ' || ('\t' <= c <= '\r') || c == '\U{0085}' || c == '\U{00A0}' || c == '\U{1680}' ||
    ('\U{2000}' <= c <= '\U{200A}') || c == '\U{2028}' || c == '\U{2029}' || c == '\U{202F}' ||
    c == '\U{205F}' || c == '\U{3000}'
  }

  /** No printable ASCII character other than the space is white space. */
  lemma WhiteSpaceRange(c: char)
    ensures IsWhiteSpace(c) ==> c <= ' ' || '\U{0085}' <= c
  {
  }

  /** Neither the first nor the last character (if any) is white space. */
  predicate NoEdgeWhiteSpace(s: string) {
    s == [] || (!IsWhiteSpace(s[0]) && !IsWhiteSpace(s[|s| - 1]))
  }

  /** The number of white-space characters String.Trim drops at the start. */
  function Leading(s: string): (k: nat)
    ensures k <= |s|
    ensures forall i :: 0 <= i < k ==> IsWhiteSpace(s[i])
    ensures k < |s| ==> !IsWhiteSpace(s[k])
  {
    if s != [] && IsWhiteSpace(s[0]) then
      var k := Leading(s[1..]);
      assert forall i :: 1 <= i < 1 + k ==> s[i] == s[1..][i - 1];
      1 + k
    else 0
  }

  /** The trailing white space removed: the longest prefix of `s` that does not end with white space. */
  function TrimEnd(s: string): (r: string)
    ensures |r| <= |s| && r == s[..|r|]
    ensures r == [] || !IsWhiteSpace(r[|r| - 1])
    ensures forall i :: |r| <= i < |s| ==> IsWhiteSpace(s[i])
  {
    if s != [] && IsWhiteSpace(s[|s| - 1]) then TrimEnd(s[..|s| - 1]) else s
  }

  /** Dropping the leading white space and then the trailing white space leaves an inner slice. */
  lemma StripBothEnds(s: string, r: string)
    requires var t := s[Leading(s)..]; |r| <= |t| && r == t[..|r|] && (r == [] || !IsWhiteSpace(r[|r| - 1]))
    requires var t := s[Leading(s)..]; forall i :: |r| <= i < |t| ==> IsWhiteSpace(t[i])
    ensures NoEdgeWhiteSpace(r)
    ensures Leading(s) + |r| <= |s| && r == s[Leading(s)..Leading(s) + |r|]
    ensures forall i :: Leading(s) + |r| <= i < |s| ==> IsWhiteSpace(s[i])
  {
    var k := Leading(s);
    var t := s[k..];
    assert r != [] ==> r[0] == s[k];
    forall i | k + |r| <= i < |s| ensures IsWhiteSpace(s[i]) {
      assert s[i] == t[i - k];
    }
  }

  /** A string with no white space at its ends loses nothing at either end. */
  lemma CleanEnds(s: string)
    requires NoEdgeWhiteSpace(s)
    ensures Leading(s) == 0 && TrimEnd(s) == s
  {
  }

  /** String.Trim(): `s` without its leading and trailing white space. */
  function Trim(s: string): (r: string)
    ensures NoEdgeWhiteSpace(r)
    ensures Leading(s) + |r| <= |s|
    ensures r == s[Leading(s)..Leading(s) + |r|]
    ensures forall i :: 0 <= i < Leading(s) ==> IsWhiteSpace(s[i])
    ensures forall i :: Leading(s) + |r| <= i < |s| ==> IsWhiteSpace(s[i])
    ensures NoEdgeWhiteSpace(s) ==> r == s
  {
    var r := TrimEnd(s[Leading(s)..]);
    StripBothEnds(s, r);
    assert NoEdgeWhiteSpace(s) ==> r == s by {
      if NoEdgeWhiteSpace(s) {
        CleanEnds(s);
      }
    }
    r
  }

  /** `t` is the slice of `s` starting at `k`, and only white space lies around it. */
  predicate TrimmedAt(t: string, s: string, k: nat) {
    k + |t| <= |s| && t == s[k..k + |t|] &&
    (forall i :: 0 <= i < k ==> IsWhiteSpace(s[i])) &&
    (forall i :: k + |t| <= i < |s| ==> IsWhiteSpace(s[i]))
  }

  /** `t` is what remains of `s` once white space is stripped at both ends: a slice of `s` that
      neither starts nor ends with white space, with only white space around it. */
  ghost predicate TrimmedFrom(t: string, s: string) {
    NoEdgeWhiteSpace(t) && exists k: nat :: TrimmedAt(t, s, k)
  }

  /** Two trimmings of the same string coincide. */
  lemma TrimmedAtUnique(t: string, r: string, s: string, k: nat, k0: nat)
    requires NoEdgeWhiteSpace(t) && TrimmedAt(t, s, k)
    requires NoEdgeWhiteSpace(r) && TrimmedAt(r, s, k0)
    ensures t == r
  {
    if t != [] && r != [] {
      assert t[0] == s[k] && r[0] == s[k0];
      assert k == k0;
      assert t[|t| - 1] == s[k + |t| - 1] && r[|r| - 1] == s[k0 + |r| - 1];
    }
  }

  /** String.Trim is the one string trimmed from `s`. */
  lemma TrimmedFromIsTrim(t: string, s: string)
    ensures TrimmedFrom(t, s) <==> t == Trim(s)
  {
    var r := Trim(s);
    assert TrimmedAt(r, s, Leading(s));
    if TrimmedFrom(t, s) {
      var k: nat :| TrimmedAt(t, s, k);
      TrimmedAtUnique(t, r, s, k, Leading(s));
    }
  }

  predicate IsAsciiUpper(c: char) {
    'A' <= c <= 'Z'
  }

  /** String.ToLower() on the ASCII letters; every other character is kept. */
  function LowerChar(c: char): (r: char)
    ensures IsAsciiUpper(c) ==> r as int == c as int + 32
    ensures !IsAsciiUpper(c) ==> r == c
    ensures !IsAsciiUpper(r)
    ensures IsWhiteSpace(r) <==> IsWhiteSpace(c)
    ensures r == '.' <==> c == '.'
  {
    if IsAsciiUpper(c) then
      var r := (c as int + 32) as char;
      WhiteSpaceRange(c);
      WhiteSpaceRange(r);
      r
    else c
  }

  function ToLower(s: string): (r: string)
    ensures |r| == |s|
    ensures forall i :: 0 <= i < |s| ==>
      if IsAsciiUpper(s[i]) then r[i] as int == s[i] as int + 32 else r[i] == s[i]
    ensures forall i :: 0 <= i < |r| ==> !IsAsciiUpper(r[i])
    ensures forall i :: 0 <= i < |r| ==> (IsWhiteSpace(r[i]) <==> IsWhiteSpace(s[i]))
    ensures (forall i :: 0 <= i < |s| ==> !IsAsciiUpper(s[i])) ==> r == s
  {
    seq(|s|, i requires 0 <= i < |s| => LowerChar(s[i]))
  }

  /** String.Replace(pat, ""): scans left to right and drops every non-overlapping occurrence of `pat`
      (.NET refuses an empty `pat`). */
  function RemoveAll(s: string, pat: string): (r: string)
    requires pat != []
    ensures |r| <= |s|
    ensures multiset(r) <= multiset(s)
    ensures forall c :: c in r ==> c in s
    ensures |pat| == 1 ==> pat[0] !in r
    decreases |s|
  {
    if |s| < |pat| then
      assert |pat| == 1 ==> s == [];
      s
    else if s[..|pat|] == pat then
      var r := RemoveAll(s[|pat|..], pat);
      assert s == s[..|pat|] + s[|pat|..];
      assert multiset(s) == multiset(s[..|pat|]) + multiset(s[|pat|..]);
      r
    else
      var r := RemoveAll(s[1..], pat);
      assert s == [s[0]] + s[1..];
      assert |pat| == 1 ==> s[0] != pat[0] by {
        if |pat| == 1 { assert s[..1] == [s[0]]; }
      }
      [s[0]] + r
  }

  /** The characters of `s` other than `x`, in their order. */
  function Without(s: string, x: char): string {
    if s == [] then [] else (if s[0] == x then [] else [s[0]]) + Without(s[1..], x)
  }

  /** Removing the one-character pattern [x] leaves the characters other than x, in their order. */
  lemma {:induction false} RemoveCharIsWithout(s: string, x: char)
    ensures RemoveAll(s, [x]) == Without(s, x)
    decreases |s|
  {
    if s != [] {
      RemoveCharIsWithout(s[1..], x);
      if s[0] == x {
        assert s[..1] == [x];
      } else {
        assert s[..1] != [x];
      }
    }
  }

  /** Every character other than x keeps its number of occurrences, and x has none left. */
  lemma {:induction false} WithoutCounts(s: string, x: char)
    ensures multiset(Without(s, x)) == multiset(s)[x := 0]
    decreases |s|
  {
    if s != [] {
      WithoutCounts(s[1..], x);
      assert s == [s[0]] + s[1..];
      assert multiset(s) == multiset([s[0]]) + multiset(s[1..]);
    }
  }

  /** Removing a character that does not occur changes nothing. */
  lemma {:induction false} WithoutAbsent(s: string, x: char)
    requires x !in s
    ensures Without(s, x) == s
  {
    if s != [] {
      WithoutAbsent(s[1..], x);
    }
  }

  /** Removing a character from a concatenation removes it from each part. */
  lemma {:induction false} WithoutAppend(a: string, b: string, x: char)
    ensures Without(a + b, x) == Without(a, x) + Without(b, x)
  {
    if a == [] {
      assert a + b == b;
    } else {
      assert (a + b)[0] == a[0];
      assert (a + b)[1..] == a[1..] + b;
      WithoutAppend(a[1..], b, x);
      var h := if a[0] == x then [] else [a[0]];
      assert Without(a + b, x) == h + Without(a[1..] + b, x);
      assert Without(a, x) == h + Without(a[1..], x);
    }
  }

  /** Removing the one-character pattern [x] from a string holding one x drops exactly that x. */
  lemma RemoveOneChar(a: string, b: string, x: char)
    requires x !in a && x !in b
    ensures RemoveAll(a + [x] + b, [x]) == a + b
  {
    var s := a + [x] + b;
    RemoveCharIsWithout(s, x);
    WithoutAppend(a + [x], b, x);
    WithoutAppend(a, [x], x);
    WithoutAbsent(a, x);
    WithoutAbsent(b, x);
    assert Without([x], x) == [] by {
      assert [x][1..] == [];
    }
    assert Without(a + [x], x) == a;
    assert Without(s, x) == a + b;
  }

  /** `pat` occurs in `s` at position `i`. */
  predicate OccursAt(s: string, pat: string, i: nat) {
    i + |pat| <= |s| && s[i..i + |pat|] == pat
  }

  /** A string in which the pattern never occurs is left as it is. */
  lemma {:induction false} RemoveAllUnfound(s: string, pat: string)
    requires pat != []
    requires forall i: nat :: !OccursAt(s, pat, i)
    ensures RemoveAll(s, pat) == s
    decreases |s|
  {
    if |s| >= |pat| {
      assert !OccursAt(s, pat, 0);
      assert s[0..|pat|] == s[..|pat|];
      forall i: nat
        ensures !OccursAt(s[1..], pat, i)
      {
        assert !OccursAt(s, pat, i + 1);
        if i + |pat| <= |s[1..]| {
          assert s[1..][i..i + |pat|] == s[i + 1..i + 1 + |pat|];
        }
      }
      RemoveAllUnfound(s[1..], pat);
      assert s == [s[0]] + s[1..];
    }
  }

  /** A pattern with a character that does not occur in `s` is not found in `s`: nothing is removed. */
  lemma {:induction false} RemoveAllAbsent(s: string, pat: string, c: char)
    requires pat != [] && c in pat && c !in s
    ensures RemoveAll(s, pat) == s
    decreases |s|
  {
    if |s| >= |pat| {
      RemoveAllAbsent(s[1..], pat, c);
    }
  }

  /** A character of the result is a character of the input. */
  lemma RemoveAllKeeps(s: string, pat: string, c: char)
    requires pat != [] && c in RemoveAll(s, pat)
    ensures c in s
  {
    assert c in multiset(RemoveAll(s, pat));
  }

  /** String.Join(sep, xs). */
  function Join(sep: string, xs: seq<string>): (r: string)
    ensures |xs| == 1 ==> r == xs[0]
    ensures xs == [] ==> r == ""
  {
    if |xs| == 0 then "" else if |xs| == 1 then xs[0] else xs[0] + sep + Join(sep, xs[1..])
  }

  /** The sequences of `xss` one after another, in order (List.AddRange in a loop). */
  function Concat<T>(xss: seq<seq<T>>): (r: seq<T>)
  {
    if |xss| == 0 then [] else Concat(xss[..|xss| - 1]) + xss[|xss| - 1]
  }

  lemma {:induction false} ConcatAppend<T>(a: seq<seq<T>>, b: seq<seq<T>>)
    ensures Concat(a + b) == Concat(a) + Concat(b)
    decreases |b|
  {
    if |b| == 0 {
      assert a + b == a;
    } else {
      assert (a + b)[..|a + b| - 1] == a + b[..|b| - 1];
      ConcatAppend(a, b[..|b| - 1]);
    }
  }

  /** Every element of every part occurs in the concatenation, and nothing else does. */
  lemma {:induction false} ConcatMembers<T>(xss: seq<seq<T>>, x: T)
    ensures x in Concat(xss) <==> exists i :: 0 <= i < |xss| && x in xss[i]
    decreases |xss|
  {
    if |xss| > 0 {
      var n := |xss| - 1;
      ConcatMembers(xss[..n], x);
      if x in Concat(xss[..n]) {
        var i :| 0 <= i < n && x in xss[..n][i];
        assert x in xss[i];
      }
      if exists i :: 0 <= i < |xss| && x in xss[i] {
        var i :| 0 <= i < |xss| && x in xss[i];
        if i < n { assert x in xss[..n][i]; }
      }
    }
  }

  predicate NoDuplicates<T(==)>(xs: seq<T>) {
    forall i, j :: 0 <= i < j < |xs| ==> xs[i] != xs[j]
  }

  /** `part` occurs somewhere in `s`. */
  predicate Contains(s: string, part: string) {
    exists i :: 0 <= i <= |s| && part <= s[i..]
  }

  lemma ContainsMiddle(a: string, part: string, b: string)
    ensures Contains(a + part + b, part)
  {
    var s := a + part + b;
    assert part <= s[|a|..];
  }

  /** Text found in a string is found in any extension of it. */
  lemma ContainsExtend(a: string, b: string, c: string, part: string)
    requires Contains(b, part)
    ensures Contains(a + b + c, part)
  {
    var i :| 0 <= i <= |b| && part <= b[i..];
    var s := a + b + c;
    assert s[|a| + i..][..|part|] == b[i..][..|part|];
  }

  /** Every part of a concatenation occurs in it. */
  lemma {:induction false} ConcatContainsPart(xss: seq<string>, k: nat)
    requires k < |xss|
    ensures Contains(Concat(xss), xss[k])
    decreases |xss|
  {
    var n := |xss| - 1;
    if k == n {
      ContainsMiddle(Concat(xss[..n]), xss[k], "");
      assert Concat(xss[..n]) + xss[k] + "" == Concat(xss);
    } else {
      ConcatContainsPart(xss[..n], k);
      ContainsExtend("", Concat(xss[..n]), xss[n], xss[k]);
      assert "" + Concat(xss[..n]) + xss[n] == Concat(xss);
    }
  }

  /** Every element of a joined list occurs in the joined string. */
  lemma {:induction false} JoinContains(sep: string, xs: seq<string>, k: nat)
    requires k < |xs|
    ensures Contains(Join(sep, xs), xs[k])
    decreases |xs|
  {
    if |xs| == 1 {
      ContainsMiddle("", xs[0], "");
      assert "" + xs[0] + "" == xs[0];
    } else if k == 0 {
      ContainsMiddle("", xs[0], sep + Join(sep, xs[1..]));
      assert "" + xs[0] + (sep + Join(sep, xs[1..])) == Join(sep, xs);
    } else {
      JoinContains(sep, xs[1..], k - 1);
      ContainsExtend(xs[0] + sep, Join(sep, xs[1..]), "", xs[k]);
      assert xs[0] + sep + Join(sep, xs[1..]) + "" == Join(sep, xs);
    }
  }

  /** Text found in `s` is found in `s + t` and in `t + s`. */
  lemma ContainsAppend(s: string, t: string, part: string)
    requires Contains(s, part)
    ensures Contains(s + t, part) && Contains(t + s, part)
  {
    var i :| 0 <= i <= |s| && part <= s[i..];
    assert (s + t)[i..][..|part|] == s[i..][..|part|];
    assert (t + s)[|t| + i..] == s[i..];
  }

  lemma ContainsSelf(s: string)
    ensures Contains(s, s)
  {
    assert s <= s[0..];
  }

  lemma ContainsTrans(s: string, m: string, part: string)
    requires Contains(s, m) && Contains(m, part)
    ensures Contains(s, part)
  {
    var i :| 0 <= i <= |s| && m <= s[i..];
    var j :| 0 <= j <= |m| && part <= m[j..];
    assert m == s[i..i + |m|];
    assert part == m[j..j + |part|];
    assert part == s[i + j..i + j + |part|];
    assert part <= s[i + j..];
  }

  lemma AppendAssoc<T>(a: seq<T>, b: seq<T>, c: seq<T>)
    ensures a + b + c == a + (b + c)
  {
  }
}
