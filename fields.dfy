/**
  The codec writes one field per line: `indent<tag>text</tag>` and a line
  break. A run of such lines, with distinct tags, gives back each field's
  trimmed text to `extractTag`.
*/
module Fields {
  import opened Wrappers
  import opened Text
  import opened Markup

  /** One written line: `indent<tag>text</tag>\n`. */
  datatype Field = Field(indent: string, tag: string, text: string)

  predicate FieldOk(f: Field) {
    NoLt(f.indent) && ValidName(f.tag) && NoLt(f.text)
  }

  predicate AllFieldsOk(fs: seq<Field>) {
    forall k :: 0 <= k < |fs| ==> FieldOk(fs[k])
  }

  function FieldTokens(f: Field): seq<Token> {
    [Chars(f.indent), Open(f.tag), Chars(f.text), Close(f.tag), Chars("\n")]
  }

  function FieldsTokens(fs: seq<Field>): seq<Token>
    decreases |fs|
  {
    if |fs| == 0 then [] else FieldTokens(fs[0]) + FieldsTokens(fs[1..])
  }

  /** The line as the source appends it: indentation, opening tag, text, closing tag, line break. */
  function Line(indent: string, tag: string, text: string): string {
    indent + "<" + tag + ">" + text + "</" + tag + ">\n"
  }

  lemma {:induction false} FieldRender(f: Field)
    ensures RenderAll(FieldTokens(f)) == Line(f.indent, f.tag, f.text)
  {
    RenderFive(Chars(f.indent), Open(f.tag), Chars(f.text), Close(f.tag), Chars("\n"));
    LineShape(f.indent, f.tag, f.text);
  }

  /** The rendering of five tokens, grouped from the right. */
  lemma {:induction false} RenderFive(a: Token, b: Token, c: Token, d: Token, e: Token)
    ensures RenderAll([a, b, c, d, e]) == Render(a) + (Render(b) + (Render(c) + (Render(d) + Render(e))))
  {
    assert [a, b, c, d, e] == [a] + ([b] + ([c] + ([d] + [e])));
    RenderOne(e);
    RenderCons(d, [e]);
    RenderCons(c, [d] + [e]);
    RenderCons(b, [c] + ([d] + [e]));
    RenderCons(a, [b] + ([c] + ([d] + [e])));
  }

  lemma {:induction false} RenderCons(t: Token, ts: seq<Token>)
    ensures RenderAll([t] + ts) == Render(t) + RenderAll(ts)
  {
    assert ([t] + ts)[1..] == ts;
  }

  /** A line, grouped from the right as its tokens render. */
  lemma {:induction false} LineShape(indent: string, tag: string, text: string)
    ensures Line(indent, tag, text) == indent + (("<" + tag + ">") + (text + (("</" + tag + ">") + "\n")))
  {
    var o, c := "<" + tag + ">", "</" + tag + ">";
    assert ">\n" == ">" + "\n";
    assert "</" + tag + ">\n" == c + "\n";
    assert indent + "<" + tag + ">" == indent + o;
    Assoc(indent, o, text, c + "\n");
  }

  /** The text of a run of lines. */
  function Lines(fs: seq<Field>): string
    decreases |fs|
  {
    if |fs| == 0 then "" else Line(fs[0].indent, fs[0].tag, fs[0].text) + Lines(fs[1..])
  }

  lemma {:induction false} FieldsRendered(fs: seq<Field>)
    ensures RenderAll(FieldsTokens(fs)) == Lines(fs)
    decreases |fs|
  {
    if |fs| > 0 {
      RenderAllAppend(FieldTokens(fs[0]), FieldsTokens(fs[1..]));
      FieldRender(fs[0]);
      FieldsRendered(fs[1..]);
    }
  }

  lemma {:induction false} FieldsWellFormed(fs: seq<Field>)
    requires AllFieldsOk(fs)
    ensures AllWellFormed(FieldsTokens(fs))
    decreases |fs|
  {
    if |fs| > 0 {
      FieldsWellFormed(fs[1..]);
      var a, b := FieldTokens(fs[0]), FieldsTokens(fs[1..]);
      forall k | 0 <= k < |a + b| ensures WellFormed((a + b)[k]) {
        if k >= |a| {
          assert (a + b)[k] == b[k - |a|];
        }
      }
    }
  }

  /** A run of lines opens and closes only its own tags. */
  lemma {:induction false} FieldsTags(fs: seq<Field>, t: string)
    requires forall k :: 0 <= k < |fs| ==> fs[k].tag != t
    ensures Open(t) !in FieldsTokens(fs) && Close(t) !in FieldsTokens(fs)
    decreases |fs|
  {
    if |fs| > 0 {
      FieldsTags(fs[1..], t);
    }
  }

  lemma {:induction false} FieldsAppend(a: seq<Field>, b: seq<Field>)
    ensures FieldsTokens(a + b) == FieldsTokens(a) + FieldsTokens(b)
    decreases |a|
  {
    if |a| == 0 {
      assert a + b == b;
    } else {
      assert (a + b)[1..] == a[1..] + b;
      FieldsAppend(a[1..], b);
    }
  }

  lemma {:induction false} FieldsSplit(fs: seq<Field>, k: nat)
    requires k < |fs|
    ensures FieldsTokens(fs) == FieldsTokens(fs[..k]) + FieldTokens(fs[k]) + FieldsTokens(fs[k + 1..])
  {
    assert fs == fs[..k] + fs[k..];
    FieldsAppend(fs[..k], fs[k..]);
    assert fs[k..][1..] == fs[k + 1..];
  }

  lemma {:induction false} Regroup(pre: seq<Token>, a: seq<Token>, f: Field, b: seq<Token>, post: seq<Token>)
    ensures pre + (a + FieldTokens(f) + b) + post ==
      [] + (pre + a + [Chars(f.indent)]) + [Open(f.tag)] + [Chars(f.text)] + [Close(f.tag)] + ([Chars("\n")] + b + post)
  {
  }

  /**
    Among lines with distinct tags, preceded by tokens that hold no `<tag>`,
    `extractTag` finds line `k`'s text, trimmed.
  */
  lemma {:induction false} ExtractField(pre: seq<Token>, fs: seq<Field>, k: nat, post: seq<Token>)
    requires AllWellFormed(pre) && AllFieldsOk(fs) && k < |fs|
    requires Open(fs[k].tag) !in pre
    requires forall j :: 0 <= j < k ==> fs[j].tag != fs[k].tag
    ensures ExtractTag(RenderAll(pre + FieldsTokens(fs) + post), fs[k].tag) == Some(Trim(fs[k].text))
  {
    var f := fs[k];
    var a, b := FieldsTokens(fs[..k]), FieldsTokens(fs[k + 1..]);
    var pre2 := pre + a + [Chars(f.indent)];
    var post2 := [Chars("\n")] + b + post;
    assert pre + FieldsTokens(fs) + post == [] + pre2 + [Open(f.tag)] + [Chars(f.text)] + [Close(f.tag)] + post2 by {
      FieldsSplit(fs, k);
      Regroup(pre, a, f, b, post);
    }
    assert AllWellFormed(pre2) && Open(f.tag) !in pre2 by {
      assert AllFieldsOk(fs[..k]);
      FieldsWellFormed(fs[..k]);
      FieldsTags(fs[..k], f.tag);
      assert FieldOk(f);
    }
    assert AllWellFormed([Chars(f.text)]) && Close(f.tag) !in [Chars(f.text)];
    ExtractOfTokens(RenderAll(pre + FieldsTokens(fs) + post), [], pre2, f.tag, [Chars(f.text)], post2);
    RenderChars(f.text);
  }
}
