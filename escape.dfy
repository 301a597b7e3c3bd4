/**
  `escapeXml`: five successive `String.replace` passes that turn the five
  characters XML 1.0 (section 4.6) predefines entities for into those
  entities, `&` first.
*/
module Escaping {
  import Text

  /** `s.replace(c, r)` for a one-character target: every `c`, left to right, becomes `r`. */
  function ReplaceChar(s: string, c: char, r: string): string
    decreases |s|
  {
    if |s| == 0 then "" else (if s[0] == c then r else [s[0]]) + ReplaceChar(s[1..], c, r)
  }

  /** The source's five passes, in its order. */
  function EscapeXml(s: string): string {
    ReplaceChar(ReplaceChar(ReplaceChar(ReplaceChar(ReplaceChar(
      s, '&', "&amp;"), '<', "&lt;"), '>', "&gt;"), '"', "&quot;"), '\'', "&apos;")
  }

  /** The characters that have a predefined entity. */
  predicate Special(c: char) {
    c == '&' || c == '<' || c == '>' || c == '"' || c == '\''
  }

  /** The text one input character stands for in the output. */
  function Entity(c: char): string {
    if c == '&' then "&amp;"
    else if c == '<' then "&lt;"
    else if c == '>' then "&gt;"
    else if c == '"' then "&quot;"
    else if c == '\'' then "&apos;"
    else [c]
  }

  /** The reference definition: each character replaced once, independently of the others. */
  function EscapeEach(s: string): string
    decreases |s|
  {
    if |s| == 0 then "" else Entity(s[0]) + EscapeEach(s[1..])
  }

  /** An entity starts at `i`. */
  predicate EntityAt(t: string, i: nat) {
    Text.StartsAt(t, "&amp;", i) || Text.StartsAt(t, "&lt;", i) || Text.StartsAt(t, "&gt;", i) ||
    Text.StartsAt(t, "&quot;", i) || Text.StartsAt(t, "&apos;", i)
  }

  lemma {:induction false} ReplaceCharAppend(a: string, b: string, c: char, r: string)
    ensures ReplaceChar(a + b, c, r) == ReplaceChar(a, c, r) + ReplaceChar(b, c, r)
    decreases |a|
  {
    if |a| == 0 {
      assert a + b == b;
    } else {
      assert (a + b)[1..] == a[1..] + b;
      ReplaceCharAppend(a[1..], b, c, r);
    }
  }

  lemma {:induction false} ReplaceOne(x: char, c: char, r: string)
    ensures ReplaceChar([x], c, r) == if x == c then r else [x]
  {
    assert [x][1..] == [];
  }

  lemma {:induction false} ReplaceAbsent(s: string, c: char, r: string)
    requires forall k :: 0 <= k < |s| ==> s[k] != c
    ensures ReplaceChar(s, c, r) == s
    decreases |s|
  {
    if |s| > 0 {
      ReplaceAbsent(s[1..], c, r);
      assert [s[0]] + s[1..] == s;
    }
  }

  /** The five passes distribute over concatenation. */
  lemma {:induction false} EscapeAppend(a: string, b: string)
    ensures EscapeXml(a + b) == EscapeXml(a) + EscapeXml(b)
  {
    var a1, b1 := ReplaceChar(a, '&', "&amp;"), ReplaceChar(b, '&', "&amp;");
    ReplaceCharAppend(a, b, '&', "&amp;");
    var a2, b2 := ReplaceChar(a1, '<', "&lt;"), ReplaceChar(b1, '<', "&lt;");
    ReplaceCharAppend(a1, b1, '<', "&lt;");
    var a3, b3 := ReplaceChar(a2, '>', "&gt;"), ReplaceChar(b2, '>', "&gt;");
    ReplaceCharAppend(a2, b2, '>', "&gt;");
    var a4, b4 := ReplaceChar(a3, '"', "&quot;"), ReplaceChar(b3, '"', "&quot;");
    ReplaceCharAppend(a3, b3, '"', "&quot;");
    ReplaceCharAppend(a4, b4, '\'', "&apos;");
  }

  /** An entity inserted by one pass contains no character a later pass replaces. */
  lemma {:induction false} LaterPassesKeep(e: string)
    requires e in ["&amp;", "&lt;", "&gt;", "&quot;", "&apos;"]
    ensures forall k :: 0 <= k < |e| ==> e[k] != '<' && e[k] != '>' && e[k] != '"' && e[k] != '\''
  {
  }

  /** One character through the five passes is its entity. */
  lemma {:induction false} EscapeOne(x: char)
    ensures EscapeXml([x]) == Entity(x)
  {
    ReplaceOne(x, '&', "&amp;");
    var s1 := ReplaceChar([x], '&', "&amp;");
    if x == '&' {
      LaterPassesKeep("&amp;");
      ReplaceAbsent(s1, '<', "&lt;");
      ReplaceAbsent(s1, '>', "&gt;");
      ReplaceAbsent(s1, '"', "&quot;");
      ReplaceAbsent(s1, '\'', "&apos;");
    } else {
      ReplaceOne(x, '<', "&lt;");
      var s2 := ReplaceChar(s1, '<', "&lt;");
      if x == '<' {
        LaterPassesKeep("&lt;");
        ReplaceAbsent(s2, '>', "&gt;");
        ReplaceAbsent(s2, '"', "&quot;");
        ReplaceAbsent(s2, '\'', "&apos;");
      } else {
        ReplaceOne(x, '>', "&gt;");
        var s3 := ReplaceChar(s2, '>', "&gt;");
        if x == '>' {
          LaterPassesKeep("&gt;");
          ReplaceAbsent(s3, '"', "&quot;");
          ReplaceAbsent(s3, '\'', "&apos;");
        } else {
          ReplaceOne(x, '"', "&quot;");
          var s4 := ReplaceChar(s3, '"', "&quot;");
          if x == '"' {
            LaterPassesKeep("&quot;");
            ReplaceAbsent(s4, '\'', "&apos;");
          } else {
            ReplaceOne(x, '\'', "&apos;");
          }
        }
      }
    }
  }

  /**
    Because `&` is replaced first and no entity holds a character a later
    pass replaces, the five passes escape every character exactly once.
  */
  lemma {:induction false} EscapeIsOnePass(s: string)
    ensures EscapeXml(s) == EscapeEach(s)
    decreases |s|
  {
    if |s| == 0 {
      assert EscapeXml(s) == "";
    } else {
      assert s == [s[0]] + s[1..];
      EscapeAppend([s[0]], s[1..]);
      EscapeOne(s[0]);
      EscapeIsOnePass(s[1..]);
    }
  }

  /** At `i` there is no raw `<`, `>`, `"` or `'`, and an `&` there starts an entity. */
  predicate CleanAt(t: string, i: nat)
    requires i < |t|
  {
    t[i] != '<' && t[i] != '>' && t[i] != '"' && t[i] != '\'' && (t[i] == '&' ==> EntityAt(t, i))
  }

  predicate Clean(t: string) {
    forall i :: 0 <= i < |t| ==> CleanAt(t, i)
  }

  lemma {:induction false} EntityExtend(a: string, b: string, j: nat)
    requires EntityAt(a, j)
    ensures EntityAt(a + b, j)
  {
    forall p | Text.StartsAt(a, p, j)
      ensures Text.StartsAt(a + b, p, j)
    {
      assert (a + b)[j..j + |p|] == a[j..j + |p|];
    }
  }

  lemma {:induction false} EntityShift(a: string, b: string, j: nat)
    requires EntityAt(b, j)
    ensures EntityAt(a + b, |a| + j)
  {
    forall p | Text.StartsAt(b, p, j)
      ensures Text.StartsAt(a + b, p, |a| + j)
    {
      assert (a + b)[|a| + j..|a| + j + |p|] == b[j..j + |p|];
    }
  }

  /** Two clean texts side by side are clean: an entity never straddles the seam. */
  lemma {:induction false} CleanAppend(a: string, b: string)
    requires Clean(a) && Clean(b)
    ensures Clean(a + b)
  {
    forall i | 0 <= i < |a + b| ensures CleanAt(a + b, i) {
      if i < |a| {
        assert (a + b)[i] == a[i] && CleanAt(a, i);
        if a[i] == '&' {
          EntityExtend(a, b, i);
        }
      } else {
        assert (a + b)[i] == b[i - |a|] && CleanAt(b, i - |a|);
        if b[i - |a|] == '&' {
          EntityShift(a, b, i - |a|);
        }
      }
    }
  }

  lemma {:induction false} EntityIsClean(c: char)
    ensures Clean(Entity(c))
  {
    var e := Entity(c);
    if Special(c) {
      assert Text.StartsAt(e, e, 0) by {
        assert e[0..|e|] == e;
      }
    }
  }

  lemma {:induction false} EscapeEachIsClean(s: string)
    ensures Clean(EscapeEach(s))
    decreases |s|
  {
    if |s| > 0 {
      EntityIsClean(s[0]);
      EscapeEachIsClean(s[1..]);
      CleanAppend(Entity(s[0]), EscapeEach(s[1..]));
    }
  }

  /** `escapeXml`'s output has no raw `<`, `>`, `"` or `'`, and every `&` in it starts an entity. */
  lemma {:induction false} EscapedIsClean(s: string)
    ensures Clean(EscapeXml(s))
  {
    EscapeIsOnePass(s);
    EscapeEachIsClean(s);
  }

  /** A text with none of the five characters is left as it is. */
  lemma {:induction false} EscapeOfPlain(s: string)
    requires forall k :: 0 <= k < |s| ==> !Special(s[k])
    ensures EscapeXml(s) == s
  {
    ReplaceAbsent(s, '&', "&amp;");
    ReplaceAbsent(s, '<', "&lt;");
    ReplaceAbsent(s, '>', "&gt;");
    ReplaceAbsent(s, '"', "&quot;");
    ReplaceAbsent(s, '\'', "&apos;");
  }

  /** Escaping keeps a text's spaces and replaces nothing else by spaces: blank in, blank out. */
  lemma {:induction false} EscapeEachBlank(s: string)
    ensures Text.AllSpace(EscapeEach(s)) <==> Text.AllSpace(s)
    decreases |s|
  {
    if |s| > 0 {
      var e, rest := Entity(s[0]), EscapeEach(s[1..]);
      EscapeEachBlank(s[1..]);
      assert (e + rest)[0] == e[0];
      if Text.AllSpace(e + rest) {
        forall k | 0 <= k < |rest| ensures Text.IsSpace(rest[k]) {
          assert (e + rest)[|e| + k] == rest[k];
        }
        forall k | 0 <= k < |s| ensures Text.IsSpace(s[k]) {
          if k > 0 {
            assert s[k] == s[1..][k - 1];
          }
        }
      }
      if Text.AllSpace(s) {
        assert Text.AllSpace(s[1..]) by {
          forall k | 0 <= k < |s[1..]| ensures Text.IsSpace(s[1..][k]) {
            assert s[1..][k] == s[k + 1];
          }
        }
      }
    }
  }

  /** A name is blank after escaping exactly when it was blank before. */
  lemma {:induction false} EscapeKeepsBlank(s: string)
    ensures Text.IsBlank(EscapeXml(s)) <==> Text.IsBlank(s)
  {
    EscapeIsOnePass(s);
    EscapeEachBlank(s);
    Text.BlankIffAllSpace(s);
    Text.BlankIffAllSpace(EscapeXml(s));
  }

  // ---------------------------------------------------------------------
  // The decoding the loader leaves out.

  /**
    Turns each of the five predefined entities back into its character in one
    left-to-right pass; any other text, a lone `&` included, is kept.
  */
  function UnescapeXml(t: string): (r: string)
    ensures |r| <= |t|
    decreases |t|
  {
    if |t| == 0 then ""
    else if t[0] != '&' then [t[0]] + UnescapeXml(t[1..])
    else if Text.StartsAt(t, "&amp;", 0) then "&" + UnescapeXml(t[5..])
    else if Text.StartsAt(t, "&lt;", 0) then "<" + UnescapeXml(t[4..])
    else if Text.StartsAt(t, "&gt;", 0) then ">" + UnescapeXml(t[4..])
    else if Text.StartsAt(t, "&quot;", 0) then "\"" + UnescapeXml(t[6..])
    else if Text.StartsAt(t, "&apos;", 0) then "'" + UnescapeXml(t[6..])
    else "&" + UnescapeXml(t[1..])
  }

  /** Decoding reads the text one character stands for back as that character. */
  lemma {:induction false} UnescapeEntity(c: char, rest: string)
    ensures UnescapeXml(Entity(c) + rest) == [c] + UnescapeXml(rest)
  {
    if c == '&' {
      UnescapeAmp(rest);
    } else if c == '<' {
      UnescapeLt(rest);
    } else if c == '>' {
      UnescapeGt(rest);
    } else if c == '"' {
      UnescapeQuot(rest);
    } else if c == '\'' {
      UnescapeApos(rest);
    } else {
      var t := [c] + rest;
      assert t[0] == c && t[1..] == rest;
    }
  }

  lemma {:induction false} UnescapeAmp(rest: string)
    ensures UnescapeXml("&amp;" + rest) == "&" + UnescapeXml(rest)
  {
    var t := "&amp;" + rest;
    assert t[..5] == "&amp;" && t[5..] == rest;
  }

  lemma {:induction false} UnescapeLt(rest: string)
    ensures UnescapeXml("&lt;" + rest) == "<" + UnescapeXml(rest)
  {
    var t := "&lt;" + rest;
    assert t[1] == 'l' && t[..4] == "&lt;" && t[4..] == rest;
  }

  lemma {:induction false} UnescapeGt(rest: string)
    ensures UnescapeXml("&gt;" + rest) == ">" + UnescapeXml(rest)
  {
    var t := "&gt;" + rest;
    assert t[1] == 'g' && t[..4] == "&gt;" && t[4..] == rest;
  }

  lemma {:induction false} UnescapeQuot(rest: string)
    ensures UnescapeXml("&quot;" + rest) == "\"" + UnescapeXml(rest)
  {
    var t := "&quot;" + rest;
    assert t[1] == 'q' && t[..6] == "&quot;" && t[6..] == rest;
  }

  lemma {:induction false} UnescapeApos(rest: string)
    ensures UnescapeXml("&apos;" + rest) == "'" + UnescapeXml(rest)
  {
    var t := "&apos;" + rest;
    assert t[1] == 'a' && t[2] == 'p' && t[..6] == "&apos;" && t[6..] == rest;
  }

  /** Decoding undoes the source's escaping: what `escapeXml` writes, `UnescapeXml` reads back. */
  lemma {:induction false} UnescapeEscape(s: string)
    ensures UnescapeXml(EscapeXml(s)) == s
  {
    UnescapeEach(s);
    EscapeIsOnePass(s);
  }

  lemma {:induction false} UnescapeEach(s: string)
    ensures UnescapeXml(EscapeEach(s)) == s
    decreases |s|
  {
    if |s| > 0 {
      UnescapeEntity(s[0], EscapeEach(s[1..]));
      UnescapeEach(s[1..]);
      assert s == [s[0]] + s[1..];
    }
  }

  /** Escaping adds no space at either end: it starts with the first character or `&`, ends with the last or `;`. */
  lemma {:induction false} EscapeEnds(s: string)
    requires s != [] && !Text.IsSpace(s[0]) && !Text.IsSpace(s[|s| - 1])
    ensures var e := EscapeXml(s); e != [] && !Text.IsSpace(e[0]) && !Text.IsSpace(e[|e| - 1])
  {
    var n := |s| - 1;
    EntityEnds(s[0]);
    EntityEnds(s[n]);
    assert EscapeXml(s) == Entity(s[0]) + EscapeXml(s[1..]) by {
      assert s == [s[0]] + s[1..];
      EscapeAppend([s[0]], s[1..]);
      EscapeOne(s[0]);
    }
    assert EscapeXml(s) == EscapeXml(s[..n]) + Entity(s[n]) by {
      assert s == s[..n] + [s[n]];
      EscapeAppend(s[..n], [s[n]]);
      EscapeOne(s[n]);
    }
    Ends(Entity(s[0]), EscapeXml(s[1..]), EscapeXml(s[..n]), Entity(s[n]), EscapeXml(s));
  }

  lemma {:induction false} EntityEnds(c: char)
    ensures Entity(c) != [] && (Entity(c)[0] == c || Entity(c)[0] == '&')
    ensures Entity(c)[|Entity(c)| - 1] == c || Entity(c)[|Entity(c)| - 1] == ';'
  {
  }

  lemma {:induction false} Ends(a: string, b: string, c: string, d: string, e: string)
    requires a != [] && d != [] && e == a + b && e == c + d
    ensures e != [] && e[0] == a[0] && e[|e| - 1] == d[|d| - 1]
  {
  }
}
