/**
  The tagged text the codec writes, seen as a sequence of tokens, and the
  search the codec reads it back with. The codec looks for a field with the
  regular expression `<t>(.*?)</t>` in DOTALL mode: the leftmost `<t>`, then
  the nearest `</t>` after it. `FindElement` is that search spelt out with
  first-occurrence substring search.
*/
module Markup {
  import opened Wrappers
  import opened Text

  /** A run of character data, an opening tag, a closing tag, or the `<?xml …?>` declaration. */
  datatype Token = Chars(s: string) | Open(name: string) | Close(name: string) | Decl(body: string)

  predicate IsLetter(c: char) {
    'a' <= c <= 'z' || 'A' <= c <= 'Z'
  }

  predicate NoLt(s: string) {
    forall k :: 0 <= k < |s| ==> s[k] != '<'
  }

  /** The tag names the codec uses: non-empty runs of ASCII letters. */
  predicate ValidName(n: string) {
    n != [] && forall k :: 0 <= k < |n| ==> IsLetter(n[k])
  }

  predicate WellFormed(t: Token) {
    match t
    case Chars(s) => NoLt(s)
    case Open(n) => ValidName(n)
    case Close(n) => ValidName(n)
    case Decl(b) => NoLt(b)
  }

  predicate AllWellFormed(ts: seq<Token>) {
    forall k :: 0 <= k < |ts| ==> WellFormed(ts[k])
  }

  function Render(t: Token): string {
    match t
    case Chars(s) => s
    case Open(n) => "<" + n + ">"
    case Close(n) => "</" + n + ">"
    case Decl(b) => "<?" + b
  }

  function RenderAll(ts: seq<Token>): string {
    if |ts| == 0 then "" else Render(ts[0]) + RenderAll(ts[1..])
  }

  lemma {:induction false} RenderAllAppend(a: seq<Token>, b: seq<Token>)
    ensures RenderAll(a + b) == RenderAll(a) + RenderAll(b)
  {
    if a == [] {
      assert a + b == b;
    } else {
      assert (a + b)[1..] == a[1..] + b;
      RenderAllAppend(a[1..], b);
    }
  }

  lemma {:induction false} RenderOne(t: Token)
    ensures RenderAll([t]) == Render(t)
  {
    assert [t][1..] == [];
  }

  /** Rendering one more token appends its text. */
  lemma {:induction false} RenderSnoc(ts: seq<Token>, t: Token)
    ensures RenderAll(ts + [t]) == RenderAll(ts) + Render(t)
  {
    RenderAllAppend(ts, [t]);
    RenderOne(t);
  }

  lemma {:induction false} RenderThree(a: Token, b: Token, c: Token)
    ensures RenderAll([a, b, c]) == Render(a) + Render(b) + Render(c)
  {
    RenderSnoc([a, b], c);
    RenderSnoc([a], b);
    RenderOne(a);
    assert [a] + [b] == [a, b] && [a, b] + [c] == [a, b, c];
  }

  /** A text that renders `pre + done`, extended by the rendering of `next`, renders `pre + (done + next)`. */
  lemma {:induction false} RenderExtend(pre: seq<Token>, done: seq<Token>, next: seq<Token>, text: string)
    requires text == RenderAll(pre + done)
    ensures text + RenderAll(next) == RenderAll(pre + (done + next))
  {
    assert pre + (done + next) == (pre + done) + next;
    RenderAllAppend(pre + done, next);
  }

  /** A tag is a token the search can look for. */
  predicate IsTag(k: Token) {
    (k.Open? || k.Close?) && ValidName(k.name)
  }

  /** Two different letter names differ at some position before either's closing `>`. */
  lemma {:induction false} NamesDiffer(n: string, m: string) returns (i: nat)
    requires ValidName(n) && ValidName(m) && n != m
    ensures i <= |n| && i <= |m| && (n + ">")[i] != (m + ">")[i]
  {
    if |n| == |m| {
      var k :| 0 <= k < |n| && n[k] != m[k];
      i := k;
    } else if exists k :: 0 <= k < |n| && k < |m| && n[k] != m[k] {
      var k :| 0 <= k < |n| && k < |m| && n[k] != m[k];
      i := k;
    } else if |n| < |m| {
      i := |n|;
      assert IsLetter(m[i]);
    } else {
      i := |m|;
      assert IsLetter(n[i]);
    }
  }

  /** Only the first character of a well-formed token can be `<`. */
  lemma {:induction false} LtOnlyAtStart(t: Token, j: nat)
    requires WellFormed(t) && 0 < j < |Render(t)|
    ensures Render(t)[j] != '<'
  {
    match t
    case Chars(s) =>
    case Open(n) =>
      if j <= |n| {
        assert Render(t)[j] == n[j - 1];
      }
    case Close(n) =>
      if 2 <= j <= |n| + 1 {
        assert Render(t)[j] == n[j - 2];
      }
    case Decl(b) =>
      if j >= 2 {
        assert Render(t)[j] == b[j - 2];
      }
  }

  /** A different well-formed token and a tag disagree at some position both of them have. */
  lemma {:induction false} Mismatch(t: Token, k: Token) returns (d: nat)
    requires WellFormed(t) && IsTag(k) && t != k && |Render(t)| > 0
    ensures d < |Render(t)| && d < |Render(k)| && Render(t)[d] != Render(k)[d]
  {
    TagChars(k);
    match t
    case Chars(str) =>
      d := 0;
    case Decl(b) =>
      d := 1;
      assert Render(t)[1] == '?';
    case Open(n) =>
      TagChars(t);
      if k.Close? {
        d := 1;
      } else {
        d := NamesMismatch("<", n, k.name);
      }
    case Close(n) =>
      TagChars(t);
      if k.Open? {
        d := 1;
      } else {
        d := NamesMismatch("</", n, k.name);
      }
  }

  /** The characters of a rendered tag: `<`, then `/` for a closing tag, then the name's letters, then `>`. */
  lemma {:induction false} TagChars(k: Token)
    requires IsTag(k)
    ensures Render(k) == (if k.Open? then "<" else "</") + (k.name + ">")
    ensures Render(k)[0] == '<'
    ensures k.Open? ==> |Render(k)| == |k.name| + 2 && IsLetter(Render(k)[1])
    ensures k.Close? ==> |Render(k)| == |k.name| + 3 && Render(k)[1] == '/'
  {
    if k.Open? {
      assert Render(k)[1] == k.name[0];
    }
  }

  /** Tags with the same opening and different letter names disagree inside the name or at its `>`. */
  lemma {:induction false} NamesMismatch(pfx: string, n: string, m: string) returns (d: nat)
    requires ValidName(n) && ValidName(m) && n != m
    ensures d < |pfx + (n + ">")| && d < |pfx + (m + ">")| && (pfx + (n + ">"))[d] != (pfx + (m + ">"))[d]
  {
    var i := NamesDiffer(n, m);
    d := |pfx| + i;
    assert (pfx + (n + ">"))[d] == (n + ">")[i];
    assert (pfx + (m + ">"))[d] == (m + ">")[i];
  }

  /** No occurrence of tag `k` starts inside a different well-formed token. */
  lemma {:induction false} NoMatchInToken(t: Token, k: Token, rest: string, j: nat)
    requires WellFormed(t) && IsTag(k) && t != k
    requires j < |Render(t)|
    ensures !StartsAt(Render(t) + rest, Render(k), j)
  {
    var s, p := Render(t) + rest, Render(k);
    var d: nat;
    if j > 0 {
      LtOnlyAtStart(t, j);
      d := 0;
    } else {
      d := Mismatch(t, k);
    }
    assert s[j + d] == Render(t)[j + d] != p[d];
    if j + |p| <= |s| {
      assert s[j..j + |p|][d] == s[j + d];
    }
  }

  /** Moving past a prefix: an occurrence in `b` is one in `a + b`, shifted by `|a|`. */
  lemma {:induction false} StartsAtShift(a: string, b: string, p: string, j: nat)
    ensures StartsAt(a + b, p, |a| + j) <==> StartsAt(b, p, j)
  {
    if |a| + j + |p| <= |a + b| {
      assert (a + b)[|a| + j..|a| + j + |p|] == b[j..j + |p|];
    }
  }

  /** No occurrence of tag `k` starts inside tokens that do not include `k`. */
  lemma {:induction false} NoMatchBefore(pre: seq<Token>, k: Token, rest: string, j: nat)
    requires AllWellFormed(pre) && IsTag(k) && k !in pre
    requires j < |RenderAll(pre)|
    ensures !StartsAt(RenderAll(pre) + rest, Render(k), j)
  {
    var head, tail := Render(pre[0]), RenderAll(pre[1..]);
    assert RenderAll(pre) + rest == head + (tail + rest);
    if j < |head| {
      NoMatchInToken(pre[0], k, tail + rest, j);
    } else {
      TailTokens(pre, k);
      NoMatchBefore(pre[1..], k, rest, j - |head|);
      StartsAtShift(head, tail + rest, Render(k), j - |head|);
    }
  }

  /** What holds of every token of a list holds of every token of its tail. */
  lemma {:induction false} TailTokens(pre: seq<Token>, k: Token)
    requires |pre| > 0 && AllWellFormed(pre) && k !in pre
    ensures AllWellFormed(pre[1..]) && k !in pre[1..]
  {
    forall i | 0 <= i < |pre[1..]|
      ensures WellFormed(pre[1..][i]) && pre[1..][i] != k
    {
      assert pre[1..][i] == pre[i + 1];
    }
  }

  /** After `a`, the first occurrence of tag `k` is where its first token starts. */
  lemma {:induction false} FirstTagAfter(s: string, a: string, pre: seq<Token>, k: Token, c: string, d: nat, n: nat)
    requires AllWellFormed(pre) && IsTag(k) && k !in pre
    requires s == a + (RenderAll(pre) + (Render(k) + c))
    requires d == |a| && n == |RenderAll(pre)|
    ensures StartsAt(s, Render(k), d + n)
    ensures forall j :: d <= j < d + n ==> !StartsAt(s, Render(k), j)
  {
    var b, p := RenderAll(pre), Render(k);
    StartsAtShift(a, b + (p + c), p, n);
    StartsAtShift(b, p + c, p, 0);
    forall j | d <= j < d + n
      ensures !StartsAt(s, p, j)
    {
      NoTagInside(s, a, pre, k, c, j - d);
    }
  }

  /** No occurrence of tag `k` starts `j` characters into the rendering of `pre`. */
  lemma {:induction false} NoTagInside(s: string, a: string, pre: seq<Token>, k: Token, c: string, j: nat)
    requires AllWellFormed(pre) && IsTag(k) && k !in pre
    requires s == a + (RenderAll(pre) + (Render(k) + c))
    requires j < |RenderAll(pre)|
    ensures !StartsAt(s, Render(k), |a| + j)
  {
    NoMatchBefore(pre, k, Render(k) + c, j);
    StartsAtShift(a, RenderAll(pre) + (Render(k) + c), Render(k), j);
  }

  lemma {:induction false} Assoc(a: string, b: string, c: string, d: string)
    ensures a + b + c + d == a + (b + (c + d))
  {
  }

  lemma {:induction false} RenderSplit(done: seq<Token>, pre: seq<Token>, k: Token, post: seq<Token>)
    ensures RenderAll(done + pre + [k] + post) ==
            RenderAll(done) + (RenderAll(pre) + (Render(k) + RenderAll(post)))
  {
    var a, b, c, d := RenderAll(done), RenderAll(pre), Render(k), RenderAll(post);
    RenderAllAppend(done + pre + [k], post);
    RenderAllAppend(done + pre, [k]);
    RenderAllAppend(done, pre);
    assert RenderAll([k]) == c by {
      assert [k][1..] == [];
      assert c + "" == c;
    }
    Assoc(a, b, c, d);
  }

  /** After the tokens `done`, the first occurrence of tag `k` is where its first token starts. */
  lemma {:induction false} FirstTagAt(s: string, done: seq<Token>, pre: seq<Token>, k: Token, post: seq<Token>, d: nat, n: nat)
    requires AllWellFormed(pre) && IsTag(k) && k !in pre
    requires s == RenderAll(done + pre + [k] + post)
    requires d == |RenderAll(done)| && n == |RenderAll(pre)|
    ensures StartsAt(s, Render(k), d + n)
    ensures forall j :: d <= j < d + n ==> !StartsAt(s, Render(k), j)
  {
    RenderSplit(done, pre, k, post);
    FirstTagAfter(s, RenderAll(done), pre, k, RenderAll(post), d, n);
  }

  /** Searching from a token boundary for a tag that no later token is finds nothing. */
  lemma {:induction false} FindNoTag(s: string, done: seq<Token>, ts: seq<Token>, k: Token, d: nat)
    requires AllWellFormed(ts) && IsTag(k) && k !in ts
    requires s == RenderAll(done + ts)
    requires d == |RenderAll(done)|
    ensures d <= |s| && IndexFrom(s, Render(k), d) == None
  {
    assert d <= |s| && forall j :: d <= j <= |s| ==> !StartsAt(s, Render(k), j) by {
      RenderAllAppend(done, ts);
      NoTagAfter(s, RenderAll(done), ts, k);
    }
    IndexFromAbsent(s, Render(k), d);
  }

  /** Tag `k` occurs nowhere in the rendering of tokens that do not include it. */
  lemma {:induction false} NoTagAfter(s: string, a: string, ts: seq<Token>, k: Token)
    requires AllWellFormed(ts) && IsTag(k) && k !in ts
    requires s == a + RenderAll(ts)
    ensures forall j :: |a| <= j <= |s| ==> !StartsAt(s, Render(k), j)
  {
    var b, p := RenderAll(ts), Render(k);
    assert s == a + (b + "");
    forall j | |a| <= j <= |s|
      ensures !StartsAt(s, p, j)
    {
      if j < |s| {
        NoMatchBefore(ts, k, "", j - |a|);
        StartsAtShift(a, b + "", p, j - |a|);
      }
    }
  }

  /** Where a match of `<t>(.*?)</t>` lies: the group is `xml[start..end]`, the match ends at `next`. */
  datatype Span = Span(start: nat, end: nat, next: nat)

  /** The first `open` at or after `from`, then the first `close` after it. */
  function Between(xml: string, open: string, close: string, from: nat): (r: Option<Span>)
    requires from <= |xml|
    ensures r.Some? ==> (from + |open| <= r.value.start <= r.value.end &&
                         r.value.next == r.value.end + |close| <= |xml|)
  {
    match IndexFrom(xml, open, from)
    case None => None
    case Some(i) =>
      match IndexFrom(xml, close, i + |open|)
      case None => None
      case Some(j) => Some(Span(i + |open|, j, j + |close|))
  }

  /**
    The first match of `<t>(.*?)</t>` at or after `from`: the first `<t>`,
    then the first `</t>` after it. When a `<t>` has no `</t>` after it, no
    later `<t>` has one either, so there is no match at all.
  */
  function FindElement(xml: string, tag: string, from: nat): (r: Option<Span>)
    requires from <= |xml|
    ensures r.Some? ==> (from + |tag| + 2 <= r.value.start <= r.value.end &&
                         r.value.next == r.value.end + |tag| + 3 <= |xml|)
  {
    Between(xml, Render(Open(tag)), Render(Close(tag)), from)
  }

  /**
    What `Between` finds: an `open` with no earlier one at or after `from`,
    then a `close` with no earlier one after it; and when it finds nothing,
    no `open` at or after `from` is followed by any `close`.
  */
  lemma {:induction false} BetweenSpec(xml: string, open: string, close: string, from: nat)
    requires from <= |xml|
    ensures var r := Between(xml, open, close, from);
      (r.Some? ==>
        r.value.start >= |open| &&
        StartsAt(xml, open, r.value.start - |open|) && StartsAt(xml, close, r.value.end) &&
        (forall j :: from <= j < r.value.start - |open| ==> !StartsAt(xml, open, j)) &&
        (forall j :: r.value.start <= j < r.value.end ==> !StartsAt(xml, close, j))) &&
      (r.None? ==>
        forall i, j :: from <= i && i + |open| <= j && StartsAt(xml, open, i) ==> !StartsAt(xml, close, j))
  {
    IndexFromSpec(xml, open, from);
    match IndexFrom(xml, open, from)
    case None =>
    case Some(i) =>
      IndexFromSpec(xml, close, i + |open|);
  }

  /** `FindElement` in terms of where `<t>` and `</t>` occur. */
  lemma {:induction false} FindElementSpec(xml: string, tag: string, from: nat)
    requires from <= |xml|
    ensures var r := FindElement(xml, tag, from);
      (r.Some? ==>
        StartsAt(xml, Render(Open(tag)), r.value.start - |tag| - 2) && StartsAt(xml, Render(Close(tag)), r.value.end) &&
        (forall j :: from <= j < r.value.start - |tag| - 2 ==> !StartsAt(xml, Render(Open(tag)), j)) &&
        (forall j :: r.value.start <= j < r.value.end ==> !StartsAt(xml, Render(Close(tag)), j))) &&
      (r.None? ==>
        forall i, j :: from <= i && i + |tag| + 2 <= j && StartsAt(xml, Render(Open(tag)), i) ==>
          !StartsAt(xml, Render(Close(tag)), j))
  {
    BetweenSpec(xml, Render(Open(tag)), Render(Close(tag)), from);
    assert |Render(Open(tag))| == |tag| + 2;
  }

  /** `Between`, given where its two first-occurrence searches stop. */
  lemma {:induction false} BetweenAt(s: string, open: string, close: string, from: nat, i: nat, j: nat)
    requires from <= |s| && i + |open| <= |s|
    requires IndexFrom(s, open, from) == Some(i)
    requires IndexFrom(s, close, i + |open|) == Some(j)
    ensures Between(s, open, close, from) == Some(Span(i + |open|, j, j + |close|))
  {
  }

  /**
    The element `<t>mid</t>` is found, from a token boundary, when no `<t>`
    token comes before it and no `</t>` token inside it; its group is the text
    of `mid` and the match ends right after `</t>`.
  */
  lemma {:induction false} FindElementOfTokens(s: string, done: seq<Token>, pre: seq<Token>, t: string, mid: seq<Token>, post: seq<Token>,
                            d: nat, p: nat, d2: nat, m: nat)
    requires AllWellFormed(pre) && AllWellFormed(mid) && ValidName(t)
    requires Open(t) !in pre && Close(t) !in mid
    requires s == RenderAll(done + pre + [Open(t)] + mid + [Close(t)] + post)
    requires d == |RenderAll(done)| && p == |RenderAll(pre)| && d2 == |RenderAll(done + pre + [Open(t)])| && m == |RenderAll(mid)|
    ensures d2 == d + p + |t| + 2 && d2 + m <= |s|
    ensures FindElement(s, t, d) == Some(Span(d2, d2 + m, d2 + m + |t| + 3))
  {
    var done2 := done + pre + [Open(t)];
    ElementLengths(s, done, pre, t, mid, post);
    TokensAssoc(done2, mid, [Close(t)], post);
    FirstTagAt(s, done, pre, Open(t), mid + [Close(t)] + post, d, p);
    FirstTagAt(s, done2, mid, Close(t), post, d2, m);
    ElementFound(s, t, d, p, d2, m);
  }

  /** The element search, given where the first `<t>` after `d` and the first `</t>` after it start. */
  lemma {:induction false} ElementFound(s: string, t: string, d: nat, p: nat, d2: nat, m: nat)
    requires d2 == d + p + |t| + 2 && d2 + m <= |s|
    requires StartsAt(s, Render(Open(t)), d + p) && forall j :: d <= j < d + p ==> !StartsAt(s, Render(Open(t)), j)
    requires StartsAt(s, Render(Close(t)), d2 + m) && forall j :: d2 <= j < d2 + m ==> !StartsAt(s, Render(Close(t)), j)
    ensures d <= |s| && FindElement(s, t, d) == Some(Span(d2, d2 + m, d2 + m + |t| + 3))
  {
    assert |Render(Open(t))| == |t| + 2 && |Render(Close(t))| == |t| + 3;
    BetweenFound(s, Render(Open(t)), Render(Close(t)), d, d + p, d2 + m);
  }

  /** `Between` finds the first `open` at or after `from` and the first `close` after it. */
  lemma {:induction false} BetweenFound(s: string, open: string, close: string, from: nat, i: nat, j: nat)
    requires from <= i && i + |open| <= j
    requires StartsAt(s, open, i) && forall k :: from <= k < i ==> !StartsAt(s, open, k)
    requires StartsAt(s, close, j) && forall k :: i + |open| <= k < j ==> !StartsAt(s, close, k)
    ensures from <= |s| && Between(s, open, close, from) == Some(Span(i + |open|, j, j + |close|))
  {
    IndexFromIsFirst(s, open, from, i);
    IndexFromIsFirst(s, close, i + |open|, j);
    BetweenAt(s, open, close, from, i, j);
  }

  /** Where `<t>mid</t>` sits in the rendered text. */
  lemma {:induction false} ElementLengths(s: string, done: seq<Token>, pre: seq<Token>, t: string, mid: seq<Token>, post: seq<Token>)
    requires s == RenderAll(done + pre + [Open(t)] + mid + [Close(t)] + post)
    ensures |RenderAll(done + pre + [Open(t)])| == |RenderAll(done)| + |RenderAll(pre)| + |t| + 2
    ensures |RenderAll(done + pre + [Open(t)])| + |RenderAll(mid)| <= |s|
  {
    var done2 := done + pre + [Open(t)];
    RenderLength(done, pre, Open(t));
    TokensAssoc(done2, mid, [Close(t)], post);
    RenderSplit(done2, mid, Close(t), post);
  }

  /** The text between `<t>` and `</t>` is the rendering of `mid`. */
  lemma {:induction false} ElementGroup(s: string, done: seq<Token>, pre: seq<Token>, t: string, mid: seq<Token>, post: seq<Token>)
    requires s == RenderAll(done + pre + [Open(t)] + mid + [Close(t)] + post)
    ensures |RenderAll(done + pre + [Open(t)])| + |RenderAll(mid)| <= |s|
    ensures s[|RenderAll(done + pre + [Open(t)])|..|RenderAll(done + pre + [Open(t)])| + |RenderAll(mid)|] == RenderAll(mid)
  {
    var done2 := done + pre + [Open(t)];
    TokensAssoc(done2, mid, [Close(t)], post);
    RenderSplit(done2, mid, Close(t), post);
    SliceMiddle(RenderAll(done2), RenderAll(mid), Render(Close(t)) + RenderAll(post));
  }

  lemma {:induction false} TokensAssoc(a: seq<Token>, b: seq<Token>, c: seq<Token>, d: seq<Token>)
    ensures a + b + c + d == a + (b + c + d)
  {
  }

  lemma {:induction false} RenderLength(done: seq<Token>, pre: seq<Token>, k: Token)
    ensures RenderAll(done + pre + [k]) == RenderAll(done) + RenderAll(pre) + Render(k)
    ensures |RenderAll(done + pre + [k])| == |RenderAll(done)| + |RenderAll(pre)| + |Render(k)|
  {
    RenderSnoc(done + pre, k);
    RenderAllAppend(done, pre);
  }

  lemma {:induction false} SliceMiddle(x: string, y: string, z: string)
    ensures (x + (y + z))[|x|..|x| + |y|] == y
  {
  }

  /** When no `<t>` token follows the boundary, the search from there finds no element. */
  lemma {:induction false} FindNoElement(s: string, done: seq<Token>, ts: seq<Token>, t: string, d: nat)
    requires AllWellFormed(ts) && ValidName(t) && Open(t) !in ts
    requires s == RenderAll(done + ts)
    requires d == |RenderAll(done)|
    ensures d <= |s| && FindElement(s, t, d) == None
  {
    FindNoTag(s, done, ts, Open(t), d);
  }

  /**
    `extractTag(xml, t)`: the trimmed group of the first match of
    `<t>(.*?)</t>`, or None (Java's null) when there is no match.
  */
  function ExtractTag(xml: string, t: string): (r: Option<string>)
    ensures r.Some? ==> |r.value| <= |xml|
    ensures r.Some? ==> r.value == [] || (!IsSpace(r.value[0]) && !IsSpace(r.value[|r.value| - 1]))
  {
    match FindElement(xml, t, 0)
    case None => None
    case Some(sp) => Some(Trim(xml[sp.start..sp.end]))
  }

  /** No `open` is followed by a `close`. */
  ghost predicate NoPair(xml: string, open: string, close: string) {
    forall i, j :: 0 <= i && i + |open| <= j && StartsAt(xml, open, i) ==> !StartsAt(xml, close, j)
  }

  /** The first `open` is at `i` and the first `close` after it at `j`. */
  ghost predicate FirstPair(xml: string, open: string, close: string, i: nat, j: nat) {
    i + |open| <= j <= |xml| &&
    StartsAt(xml, open, i) && (forall k :: 0 <= k < i ==> !StartsAt(xml, open, k)) &&
    StartsAt(xml, close, j) && (forall k :: i + |open| <= k < j ==> !StartsAt(xml, close, k))
  }

  lemma {:induction false} BetweenPairs(xml: string, open: string, close: string)
    ensures Between(xml, open, close, 0).None? <==> NoPair(xml, open, close)
    ensures Between(xml, open, close, 0).Some? ==>
      var sp := Between(xml, open, close, 0).value;
      sp.start >= |open| && FirstPair(xml, open, close, sp.start - |open|, sp.end)
  {
    BetweenSpec(xml, open, close, 0);
  }

  /**
    `extractTag` in terms of where `<t>` and `</t>` occur: it finds nothing
    exactly when no `<t>` is followed by a `</t>`; otherwise it yields the
    trimmed text between the first `<t>` and the first `</t>` after it.
  */
  lemma {:induction false} ExtractTagSpec(xml: string, t: string)
    ensures ExtractTag(xml, t).None? <==> NoPair(xml, Render(Open(t)), Render(Close(t)))
    ensures ExtractTag(xml, t).Some? ==>
      exists i: nat, j: nat :: FirstPair(xml, Render(Open(t)), Render(Close(t)), i, j) &&
        ExtractTag(xml, t).value == Trim(xml[i + |t| + 2..j])
  {
    var o, c := Render(Open(t)), Render(Close(t));
    assert |o| == |t| + 2;
    BetweenPairs(xml, o, c);
    if FindElement(xml, t, 0).Some? {
      var sp := FindElement(xml, t, 0).value;
      assert FirstPair(xml, o, c, sp.start - |o|, sp.end);
    }
  }

  lemma {:induction false} RenderChars(x: string)
    ensures RenderAll([Chars(x)]) == x
  {
    assert [Chars(x)][1..] == [];
  }

  /**
    `<t>mid</t>`, with no `<t>` before it and no `</t>` inside it, is what
    `extractTag` finds: the trimmed text of `mid`. The tokens `done` render
    to nothing, so the search starts at them.
  */
  lemma {:induction false} ExtractOfTokens(s: string, done: seq<Token>, pre: seq<Token>, t: string, mid: seq<Token>, post: seq<Token>)
    requires AllWellFormed(pre) && AllWellFormed(mid) && ValidName(t)
    requires Open(t) !in pre && Close(t) !in mid
    requires s == RenderAll(done + pre + [Open(t)] + mid + [Close(t)] + post)
    requires RenderAll(done) == ""
    ensures ExtractTag(s, t) == Some(Trim(RenderAll(mid)))
  {
    var d2, m := |RenderAll(done + pre + [Open(t)])|, |RenderAll(mid)|;
    FindElementOfTokens(s, done, pre, t, mid, post, 0, |RenderAll(pre)|, d2, m);
    ElementGroup(s, done, pre, t, mid, post);
    ExtractFound(s, t, d2, m, RenderAll(mid));
  }

  lemma {:induction false} ExtractFound(s: string, t: string, d2: nat, m: nat, x: string)
    requires d2 + m <= |s| && FindElement(s, t, 0) == Some(Span(d2, d2 + m, d2 + m + |t| + 3))
    requires s[d2..d2 + m] == x
    ensures ExtractTag(s, t) == Some(Trim(x))
  {
    var sp := FindElement(s, t, 0).value;
    assert sp.start == d2 && sp.end == d2 + m;
    var g := s[sp.start..sp.end];
    assert g == x;
    assert ExtractTag(s, t) == Some(Trim(g));
  }

  /** Without a `<t>` token there is nothing for `extractTag` to find. */
  lemma {:induction false} ExtractAbsent(s: string, ts: seq<Token>, t: string)
    requires AllWellFormed(ts) && ValidName(t) && Open(t) !in ts
    requires s == RenderAll(ts)
    ensures ExtractTag(s, t) == None
  {
    assert [] + ts == ts;
    FindNoElement(s, [], ts, t, 0);
  }
}
