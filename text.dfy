/**
  The few pieces of java.lang.String that the store and the codec rely on:
  `trim`, `isEmpty` after `trim`, `compareTo`, first-occurrence search and
  upper-casing of ASCII letters.
*/
module Text {
  import opened Wrappers

  /** `String.trim` strips every character at or below U+0020 from both ends. */
  predicate IsSpace(c: char) {
    c <= ' '
  }

  predicate AllSpace(s: string) {
    forall k :: 0 <= k < |s| ==> IsSpace(s[k])
  }

  /** The leading spaces dropped: a suffix of `s` that does not start with a space. */
  function TrimLeft(s: string): (r: string)
    ensures |r| <= |s|
    ensures r == [] || !IsSpace(r[0])
  {
    if |s| > 0 && IsSpace(s[0]) then
      TrimLeft(s[1..])
    else s
  }

  /** The trailing spaces dropped: a prefix of `s` that does not end with a space. */
  function TrimRight(s: string): (r: string)
    ensures |r| <= |s|
    ensures r == [] || !IsSpace(r[|r| - 1])
  {
    if |s| > 0 && IsSpace(s[|s| - 1]) then
      TrimRight(s[..|s| - 1])
    else s
  }

  /** What `TrimLeft` drops is a run of spaces at the start. */
  lemma {:induction false} TrimLeftSuffix(s: string)
    ensures var r := TrimLeft(s); r == s[|s| - |r|..] && AllSpace(s[..|s| - |r|])
  {
    if |s| > 0 && IsSpace(s[0]) {
      var r := TrimLeft(s[1..]);
      TrimLeftSuffix(s[1..]);
      assert s[..|s| - |r|] == [s[0]] + s[1..][..|s| - 1 - |r|];
    }
  }

  /** What `TrimRight` drops is a run of spaces at the end. */
  lemma {:induction false} TrimRightPrefix(s: string)
    ensures var r := TrimRight(s); r == s[..|r|] && AllSpace(s[|r|..])
  {
    if |s| > 0 && IsSpace(s[|s| - 1]) {
      var r := TrimRight(s[..|s| - 1]);
      TrimRightPrefix(s[..|s| - 1]);
      assert s[|r|..] == s[..|s| - 1][|r|..] + [s[|s| - 1]];
    }
  }

  /** Java's `String.trim`: neither end of the result is a space. */
  function Trim(s: string): (r: string)
    ensures |r| <= |s|
    ensures r == [] || (!IsSpace(r[0]) && !IsSpace(r[|r| - 1]))
  {
    var l := TrimLeft(s);
    TrimRightPrefix(l);
    TrimRight(l)
  }

  /** `s.trim().isEmpty()`. */
  predicate IsBlank(s: string) {
    Trim(s) == []
  }

  lemma {:induction false} TrimLeftOfSpaces(s: string)
    requires AllSpace(s)
    ensures TrimLeft(s) == []
  {
    if |s| > 0 {
      TrimLeftOfSpaces(s[1..]);
    }
  }

  /** A string is blank exactly when every one of its characters is a space. */
  lemma {:induction false} BlankIffAllSpace(s: string)
    ensures IsBlank(s) <==> AllSpace(s)
  {
    var l := TrimLeft(s);
    if AllSpace(s) {
      TrimLeftOfSpaces(s);
    } else {
      TrimLeftSuffix(s);
      TrimRightPrefix(l);
      assert s[..|s|] == s;
      assert l[0..] == l;
    }
  }

  /** A string that neither starts nor ends with a space is its own trim. */
  lemma {:induction false} TrimOfTrimmed(s: string)
    requires s != [] && !IsSpace(s[0]) && !IsSpace(s[|s| - 1])
    ensures Trim(s) == s
  {
  }

  lemma {:induction false} TrimLeftPadded(a: string, m: string)
    requires AllSpace(a)
    requires m != [] && !IsSpace(m[0])
    ensures TrimLeft(a + m) == m
  {
    if |a| > 0 {
      assert (a + m)[1..] == a[1..] + m;
      TrimLeftPadded(a[1..], m);
    } else {
      assert a + m == m;
    }
  }

  lemma {:induction false} TrimRightPadded(m: string, b: string)
    requires AllSpace(b)
    requires m != [] && !IsSpace(m[|m| - 1])
    ensures TrimRight(m + b) == m
  {
    if |b| > 0 {
      assert (m + b)[..|m + b| - 1] == m + b[..|b| - 1];
      TrimRightPadded(m, b[..|b| - 1]);
    } else {
      assert m + b == m;
    }
  }

  /** Spaces around a trimmed core are exactly what `trim` removes. */
  lemma {:induction false} TrimPadded(a: string, m: string, b: string)
    requires AllSpace(a) && AllSpace(b)
    requires m != [] && !IsSpace(m[0]) && !IsSpace(m[|m| - 1])
    ensures Trim(a + m + b) == m
  {
    assert a + m + b == a + (m + b);
    TrimLeftPadded(a, m + b);
    TrimRightPadded(m, b);
  }

  // ---------------------------------------------------------------------
  // String.compareTo: the first differing character decides, otherwise the
  // shorter string is the smaller one. Characters are compared as Unicode
  // scalar values, not as the UTF-16 code units Java compares.

  function CompareTo(a: string, b: string): int {
    if |a| == 0 || |b| == 0 then |a| - |b|
    else if a[0] != b[0] then a[0] as int - b[0] as int
    else CompareTo(a[1..], b[1..])
  }

  /** Swapping the operands negates the result, so the sign is antisymmetric. */
  lemma {:induction false} CompareToAntisymmetric(a: string, b: string)
    ensures CompareTo(a, b) == -CompareTo(b, a)
  {
    if |a| > 0 && |b| > 0 && a[0] == b[0] {
      CompareToAntisymmetric(a[1..], b[1..]);
    }
  }

  /** `compareTo` returns 0 exactly for equal strings. */
  lemma {:induction false} CompareToZeroIffEqual(a: string, b: string)
    ensures CompareTo(a, b) == 0 <==> a == b
  {
    if |a| > 0 && |b| > 0 && a[0] == b[0] {
      CompareToZeroIffEqual(a[1..], b[1..]);
      assert a == [a[0]] + a[1..] && b == [b[0]] + b[1..];
    }
  }

  /** Not-less-than is a total relation: of two strings one is at most the other. */
  lemma {:induction false} CompareToTotal(a: string, b: string)
    ensures CompareTo(a, b) <= 0 || CompareTo(b, a) <= 0
  {
    CompareToAntisymmetric(a, b);
  }

  /** At-most (compareTo <= 0) is transitive. */
  lemma {:induction false} CompareToTransitive(a: string, b: string, c: string)
    requires CompareTo(a, b) <= 0 && CompareTo(b, c) <= 0
    ensures CompareTo(a, c) <= 0
  {
    if |a| > 0 && |b| > 0 && |c| > 0 && a[0] == b[0] && b[0] == c[0] {
      CompareToTransitive(a[1..], b[1..], c[1..]);
    }
  }

  // ---------------------------------------------------------------------
  // First-occurrence search, as a regular-expression matcher scanning left to
  // right would perform it for a literal pattern.

  predicate StartsAt(s: string, p: string, i: nat) {
    i + |p| <= |s| && s[i..i + |p|] == p
  }

  /** The first index at or after `i` where `p` occurs in `s`. */
  function IndexFrom(s: string, p: string, i: nat): (r: Option<nat>)
    requires i <= |s|
    ensures r.Some? ==> i <= r.value && r.value + |p| <= |s|
    decreases |s| - i
  {
    if i + |p| > |s| then None
    else if s[i..i + |p|] == p then Some(i)
    else if i == |s| then None
    else IndexFrom(s, p, i + 1)
  }

  /** What the search finds is an occurrence with none before it, and None means there is none. */
  lemma {:induction false} IndexFromSpec(s: string, p: string, i: nat)
    requires i <= |s|
    ensures var r := IndexFrom(s, p, i);
      (r.Some? ==> StartsAt(s, p, r.value) && forall j :: i <= j < r.value ==> !StartsAt(s, p, j)) &&
      (r.None? ==> forall j :: i <= j ==> !StartsAt(s, p, j))
    decreases |s| - i
  {
    if i + |p| <= |s| && s[i..i + |p|] != p && i < |s| {
      IndexFromSpec(s, p, i + 1);
    }
  }

  /** `s.indexOf(p)`, with absence as None. */
  function IndexOf(s: string, p: string): Option<nat> {
    IndexFrom(s, p, 0)
  }

  /** The occurrence at or after `i` with none between `i` and it is the one found. */
  lemma {:induction false} IndexFromIsFirst(s: string, p: string, i: nat, m: nat)
    requires i <= m && StartsAt(s, p, m)
    requires forall j :: i <= j < m ==> !StartsAt(s, p, j)
    ensures IndexFrom(s, p, i) == Some(m)
    decreases m - i
  {
    if i < m {
      assert !StartsAt(s, p, i);
      IndexFromIsFirst(s, p, i + 1, m);
    }
  }

  /** With no occurrence at or after `i`, the search from `i` finds nothing. */
  lemma {:induction false} IndexFromAbsent(s: string, p: string, i: nat)
    requires i <= |s|
    requires forall j :: i <= j <= |s| ==> !StartsAt(s, p, j)
    ensures IndexFrom(s, p, i) == None
    decreases |s| - i
  {
    if i + |p| <= |s| {
      assert !StartsAt(s, p, i);
      if i < |s| {
        IndexFromAbsent(s, p, i + 1);
      }
    }
  }

  // ---------------------------------------------------------------------
  // Upper-casing. Only ASCII letters are mapped.

  function ToUpperChar(c: char): char {
    if 'a' <= c <= 'z' then (c as int - 32) as char else c
  }

  function ToUpper(s: string): (r: string)
    ensures |r| == |s|
    ensures forall k :: 0 <= k < |s| ==> r[k] == ToUpperChar(s[k])
  {
    if s == [] then [] else [ToUpperChar(s[0])] + ToUpper(s[1..])
  }

  // ---------------------------------------------------------------------
  // Lists of names separated by ", ".

  /** What a StringBuilder holds after appending each name followed by ", ". */
  function Listing(names: seq<string>): string {
    if names == [] then "" else Listing(names[..|names| - 1]) + names[|names| - 1] + ", "
  }

  /** `String.join(", ", names)`, as `Collectors.joining(", ")` builds it. */
  function JoinComma(names: seq<string>): string {
    if |names| <= 1 then (if names == [] then "" else names[0])
    else JoinComma(names[..|names| - 1]) + ", " + names[|names| - 1]
  }

  /** Joining one more name adds the separator and that name at the end. */
  lemma {:induction false} JoinCommaSnoc(names: seq<string>, name: string)
    requires names != []
    ensures JoinComma(names + [name]) == JoinComma(names) + ", " + name
  {
    assert (names + [name])[..|names|] == names;
  }

  /**
    Appending ", " after every name and then cutting the last two characters
    gives the joined list: the separator appears between names only.
  */
  lemma {:induction false} ListingIsJoinPlusSeparator(names: seq<string>)
    requires names != []
    ensures Listing(names) == JoinComma(names) + ", "
    ensures var l := Listing(names); l[..|l| - 2] == JoinComma(names)
  {
    var l, j := Listing(names), JoinComma(names);
    if |names| > 1 {
      var init, last := names[..|names| - 1], names[|names| - 1];
      ListingIsJoinPlusSeparator(init);
      calc {
        l;
        Listing(init) + last + ", ";
        JoinComma(init) + ", " + last + ", ";
        j + ", ";
      }
    } else {
      assert names[..0] == [];
    }
    assert (j + ", ")[..|j|] == j;
  }
}
