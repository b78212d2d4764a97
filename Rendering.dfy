/** The text rendering of directory search results: each decoded entry becomes
    a block made of its painted DN, one line per attribute and an empty line. */
module Rendering {
  import opened Text

  /** One attribute of a decoded search entry: its name and its values, in the order received. */
  datatype Attribute = Attribute(name: string, values: seq<string>)

  /** A decoded search entry: its distinguished name and its attributes, in the order
      the entry's attribute map yields them. */
  datatype Entry = Entry(dn: string, attrs: seq<Attribute>)

  /** The outcome of a directory operation. */
  datatype Result<T> = Ok(value: T) | Err(message: string)

  /** The text of one attribute's line, without its terminator: the name, ": ",
      and the values written one after the other. */
  function AttributeText(a: Attribute): string
  {
    a.name + ": " + Concat(a.values)
  }

  /** The attribute line texts of an entry, one per attribute, in the given order. */
  function AttributeTexts(attrs: seq<Attribute>): (ts: seq<string>)
    ensures |ts| == |attrs|
  {
    seq(|attrs|, i requires 0 <= i < |attrs| => AttributeText(attrs[i]))
  }

  /** Each attribute's line with its terminator, in the given order. */
  function AttributeLines(attrs: seq<Attribute>): (ls: seq<string>)
    ensures |ls| == |attrs|
  {
    seq(|attrs|, i requires 0 <= i < |attrs| => AttributeText(attrs[i]) + "\n")
  }

  /** The block one entry contributes to the output. */
  function Block(e: Entry, paint: string -> string): string
  {
    paint(e.dn) + "\n" + Concat(AttributeLines(e.attrs)) + "\n"
  }

  /** The blocks of the entries, in input order. */
  function Blocks(rs: seq<Entry>, paint: string -> string): (bs: seq<string>)
    ensures |bs| == |rs|
  {
    seq(|rs|, i requires 0 <= i < |rs| => Block(rs[i], paint))
  }

  /** The whole output for a list of entries. */
  function Render(rs: seq<Entry>, paint: string -> string): string
  {
    Concat(Blocks(rs, paint))
  }

  // ----- line-level view of the output -----

  /** The lines of one entry's block: the painted DN, the attribute lines, an empty line. */
  function EntryLines(e: Entry, paint: string -> string): (ls: seq<string>)
    ensures |ls| == 2 + |e.attrs|
  {
    [paint(e.dn)] + AttributeTexts(e.attrs) + [""]
  }

  /** The lines of the whole output, entry after entry. */
  function RenderedLines(rs: seq<Entry>, paint: string -> string): seq<string>
  {
    if rs == [] then [] else RenderedLines(rs[..|rs| - 1], paint) + EntryLines(rs[|rs| - 1], paint)
  }

  /** The number of lines in the output: 2 + |attrs| for each entry. */
  function LineCount(rs: seq<Entry>): nat
  {
    if rs == [] then 0 else LineCount(rs[..|rs| - 1]) + 2 + |rs[|rs| - 1].attrs|
  }

  /** An attribute whose name and values hold no line terminator. */
  predicate PlainAttribute(a: Attribute) {
    NoNewline(a.name) && AllNoNewline(a.values)
  }

  /** An entry whose painted DN, attribute names and values hold no line terminator. */
  predicate PlainEntry(e: Entry, paint: string -> string) {
    NoNewline(paint(e.dn)) && forall i :: 0 <= i < |e.attrs| ==> PlainAttribute(e.attrs[i])
  }

  /** Entries that all satisfy PlainEntry. */
  predicate PlainEntries(rs: seq<Entry>, paint: string -> string) {
    forall i :: 0 <= i < |rs| ==> PlainEntry(rs[i], paint)
  }

  // ----- the renderer -----

  /** Renders the decoded entries `rs` into one string; `paint` stands for the
      colouring applied to each DN. There is no error path. */
  method ResultEntriesToString(rs: seq<Entry>, paint: string -> string) returns (r: Result<string>)
    ensures r == Ok(Render(rs, paint))
    ensures rs == [] ==> r == Ok("")
  {
    var output: string := "";
    for i := 0 to |rs|
      invariant output == Render(rs[..i], paint)
    {
      var entry := rs[i];
      ghost var done := output;
      // the DN line
      output := output + paint(entry.dn);
      output := output + "\n";
      AppendAssoc(done, paint(entry.dn), "\n");
      ghost var heading := paint(entry.dn) + "\n";
      ghost var block := heading;
      assert block == heading + Concat(AttributeLines(entry.attrs[..0]));
      // one line per attribute
      for j := 0 to |entry.attrs|
        invariant output == done + block
        invariant block == heading + Concat(AttributeLines(entry.attrs[..j]))
      {
        var attribute := entry.attrs[j];
        ghost var lines := output;
        output := output + (attribute.name + ": ");
        ghost var named := attribute.name + ": ";
        ghost var text := named;
        assert text == named + Concat(attribute.values[..0]);
        for k := 0 to |attribute.values|
          invariant output == lines + text
          invariant text == named + Concat(attribute.values[..k])
        {
          ghost var prev := text;
          output := output + attribute.values[k];
          text := text + attribute.values[k];
          assert output == lines + text by {
            AppendAssoc(lines, prev, attribute.values[k]);
          }
          assert text == named + Concat(attribute.values[..k + 1]) by {
            assert attribute.values[..k + 1] == attribute.values[..k] + [attribute.values[k]];
            ConcatSnoc(attribute.values[..k], attribute.values[k]);
            AppendAssoc(named, Concat(attribute.values[..k]), attribute.values[k]);
          }
        }
        output := output + "\n";
        ghost var line := AttributeText(attribute) + "\n";
        ghost var prev := block;
        block := block + line;
        assert output == done + block by {
          assert attribute.values[..|attribute.values|] == attribute.values;
          AppendAssoc(lines, text, "\n");
          AppendAssoc(done, prev, line);
        }
        assert block == heading + Concat(AttributeLines(entry.attrs[..j + 1])) by {
          assert entry.attrs[..j + 1] == entry.attrs[..j] + [attribute];
          AttributeLinesSnoc(entry.attrs[..j], attribute);
          AppendAssoc(heading, Concat(AttributeLines(entry.attrs[..j])), line);
        }
      }
      // the empty line that closes the entry
      output := output + "\n";
      assert output == Render(rs[..i + 1], paint) by {
        assert entry.attrs[..|entry.attrs|] == entry.attrs;
        AppendAssoc(done, block, "\n");
        assert rs[..i + 1] == rs[..i] + [entry];
        RenderSnoc(rs[..i], entry, paint);
      }
    }
    assert rs[..|rs|] == rs;
    r := Ok(output);
  }

  // ----- properties -----

  /** The output for two lists of entries is the output for the first followed by that for the second. */
  lemma RenderAppend(a: seq<Entry>, b: seq<Entry>, paint: string -> string)
    ensures Render(a + b, paint) == Render(a, paint) + Render(b, paint)
  {
    assert Blocks(a + b, paint) == Blocks(a, paint) + Blocks(b, paint);
    ConcatAppend(Blocks(a, paint), Blocks(b, paint));
  }

  /** The output for the entries followed by one more is their output followed by its block. */
  lemma RenderSnoc(rs: seq<Entry>, e: Entry, paint: string -> string)
    ensures Render(rs + [e], paint) == Render(rs, paint) + Block(e, paint)
  {
    assert Blocks(rs + [e], paint) == Blocks(rs, paint) + [Block(e, paint)];
    ConcatSnoc(Blocks(rs, paint), Block(e, paint));
  }

  /** One more attribute adds its line `name: values` and a terminator. */
  lemma AttributeLinesSnoc(attrs: seq<Attribute>, a: Attribute)
    ensures Concat(AttributeLines(attrs + [a])) == Concat(AttributeLines(attrs)) + (AttributeText(a) + "\n")
  {
    assert AttributeLines(attrs + [a]) == AttributeLines(attrs) + [AttributeText(a) + "\n"];
    ConcatSnoc(AttributeLines(attrs), AttributeText(a) + "\n");
  }

  /** The attribute lines are exactly one line `name: values` per attribute, in the given order. */
  lemma {:induction false} AttributeLinesAreLines(attrs: seq<Attribute>)
    ensures Concat(AttributeLines(attrs)) == JoinLines(AttributeTexts(attrs))
  {
    if attrs != [] {
      var n := |attrs| - 1;
      var a := attrs[n];
      AttributeLinesAreLines(attrs[..n]);
      assert attrs == attrs[..n] + [a];
      AttributeLinesSnoc(attrs[..n], a);
      assert AttributeTexts(attrs) == AttributeTexts(attrs[..n]) + [AttributeText(a)];
      JoinLinesAppend(AttributeTexts(attrs[..n]), [AttributeText(a)]);
      assert JoinLines([AttributeText(a)]) == AttributeText(a) + "\n";
    }
  }

  /** A block is the painted DN on its own line, the attribute lines, then an empty line. */
  lemma BlockLines(e: Entry, paint: string -> string)
    ensures Block(e, paint) == JoinLines(EntryLines(e, paint))
  {
    var ts := AttributeTexts(e.attrs);
    AttributeLinesAreLines(e.attrs);
    JoinLinesAppend([paint(e.dn)], ts + [""]);
    JoinLinesAppend(ts, [""]);
    assert EntryLines(e, paint) == [paint(e.dn)] + (ts + [""]);
    assert JoinLines([paint(e.dn)]) == paint(e.dn) + "\n";
    assert JoinLines([""]) == "\n";
  }

  /** The whole output is the lines of every block, entry after entry. */
  lemma {:induction false} RenderIsLines(rs: seq<Entry>, paint: string -> string)
    ensures Render(rs, paint) == JoinLines(RenderedLines(rs, paint))
  {
    if rs != [] {
      var n := |rs| - 1;
      assert rs == rs[..n] + [rs[n]];
      RenderSnoc(rs[..n], rs[n], paint);
      RenderIsLines(rs[..n], paint);
      BlockLines(rs[n], paint);
      JoinLinesAppend(RenderedLines(rs[..n], paint), EntryLines(rs[n], paint));
    }
  }

  /** Every line of a terminator-free entry is terminator-free. */
  lemma EntryLinesPlain(e: Entry, paint: string -> string)
    requires PlainEntry(e, paint)
    ensures AllNoNewline(EntryLines(e, paint))
  {
    forall i | 0 <= i < |e.attrs|
      ensures NoNewline(AttributeText(e.attrs[i]))
    {
      var a := e.attrs[i];
      assert PlainAttribute(a);
      ConcatNoNewline(a.values);
      assert multiset(AttributeText(a)) == multiset(a.name) + multiset(": ") + multiset(Concat(a.values));
    }
    assert "" == [];
  }

  /** With no terminators inside DN, names or values, an entry's block holds
      exactly 2 + |attrs| line terminators. */
  lemma BlockNewlines(e: Entry, paint: string -> string)
    requires PlainEntry(e, paint)
    ensures multiset(Block(e, paint))['\n'] == 2 + |e.attrs|
  {
    BlockLines(e, paint);
    EntryLinesPlain(e, paint);
    JoinLinesNewlines(EntryLines(e, paint));
  }

  /** With no terminators inside DNs, names or values, the output holds one
      line terminator per line: 2 + |attrs| for each entry. */
  lemma {:induction false} RenderNewlines(rs: seq<Entry>, paint: string -> string)
    requires PlainEntries(rs, paint)
    ensures multiset(Render(rs, paint))['\n'] == LineCount(rs)
  {
    if rs != [] {
      var n := |rs| - 1;
      assert rs == rs[..n] + [rs[n]];
      RenderSnoc(rs[..n], rs[n], paint);
      assert PlainEntries(rs[..n], paint);
      RenderNewlines(rs[..n], paint);
      BlockNewlines(rs[n], paint);
    }
  }

  /** Every line of the output for terminator-free entries is terminator-free. */
  lemma {:induction false} RenderedLinesPlain(rs: seq<Entry>, paint: string -> string)
    requires PlainEntries(rs, paint)
    ensures AllNoNewline(RenderedLines(rs, paint))
  {
    if rs != [] {
      var n := |rs| - 1;
      assert PlainEntries(rs[..n], paint);
      RenderedLinesPlain(rs[..n], paint);
      EntryLinesPlain(rs[n], paint);
      var a, b := RenderedLines(rs[..n], paint), EntryLines(rs[n], paint);
      assert forall i :: |a| <= i < |a| + |b| ==> (a + b)[i] == b[i - |a|];
    }
  }

  /** Reading the output back line by line yields every entry's DN, its attribute
      lines in the given order, and an empty line: nothing is dropped or reordered. */
  lemma RenderReadBack(rs: seq<Entry>, paint: string -> string)
    requires PlainEntries(rs, paint)
    ensures SplitLines(Render(rs, paint)) == RenderedLines(rs, paint)
  {
    RenderIsLines(rs, paint);
    RenderedLinesPlain(rs, paint);
    SplitJoinLines(RenderedLines(rs, paint));
  }
}
