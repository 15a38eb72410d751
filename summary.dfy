/**
 * The summary formatter of the StockScore page: `formatSummaryWithHighlights`
 * cuts the summary at the alternative-investments marker, and
 * `formatMainSummary` turns the main part into HTML, one block per non-blank
 * paragraph, with `**`-delimited text as headers or bold.
 *
 * The inline style attributes are kept as constants.  The two long templates
 * (the `h4` header and the alternatives card) are abbreviated: their layout
 * whitespace and decorative markup are not reproduced, only where the
 * inserted text goes.
 */
module Summary {
  import opened Wrappers
  import opened Text

  const Marker: string := "\U{1F4A1} Alternative Investment"
  const SectionSeparator: string := "\n\n"
  const BoldSeparator: string := "**"

  /** The fixed markup the formatter emits around the text it copies. */
  datatype Markup =
    | MainOpen | DivClose | SectionOpen | ParagraphOpen | ParagraphClose
    | StrongOpen | StrongClose | HeaderOpen | HeaderClose | AlternativesOpen | AlternativesClose
  {
    function Text(): string
    {
      match this
      case MainOpen => "<div style=\"line-height: 1.9;\">"
      case DivClose => "</div>"
      case SectionOpen => "<div style=\"margin-bottom: 24px;\">"
      case ParagraphOpen => "<p style=\"margin-bottom: 16px; color: #4a5568;\">"
      case ParagraphClose => "</p>"
      case StrongOpen => "<strong style=\"color: #1a202c; font-weight: 700;\">"
      case StrongClose => "</strong>"
      case HeaderOpen =>
        "<h4 style=\"color: #667eea; font-size: 17px; font-weight: 700; margin: 16px 0 10px 0; display: flex; align-items: center; gap: 8px;\"><span style=\"font-size: 20px;\">\U{1F4CA}</span>"
      case HeaderClose => "</h4>"
      case AlternativesOpen =>
        "<div style=\"background: linear-gradient(135deg, #FF6B6B 0%, #FF8E53 50%, #FFA500 100%); color: white; padding: 32px;\"><div style=\"font-size: 28px; font-weight: 800;\">Alternative Investment Opportunities</div><div style=\"font-size: 14px;\">Better options discovered in the same industry</div><div style=\"background: white; color: #1a202c; padding: 28px; white-space: pre-wrap;\">"
      case AlternativesClose => "</div></div>"
    }
  }

  /**
   * The HTML string as the concatenation it is built by: fixed markup and
   * copied text, in order.  `Render` gives the string itself.
   */
  datatype Chunk = Tag(markup: Markup) | Plain(text: string)

  type Html = seq<Chunk>

  function Render(h: Html): string
  {
    Flatten(h, RenderChunk)
  }

  /** The pieces' strings concatenated in order. */
  function Flatten<T>(h: seq<T>, text: T -> string): string
  {
    if h == [] then "" else Flatten(h[..|h| - 1], text) + text(h[|h| - 1])
  }

  function RenderChunk(c: Chunk): string
  {
    match c
    case Tag(m) => m.Text()
    case Plain(t) => t
  }

  /** The blocks concatenated in order. */
  function Concat(hs: seq<Html>): Html
  {
    if hs == [] then [] else Concat(hs[..|hs| - 1]) + hs[|hs| - 1]
  }

  /**
   * `parts.filter(s => s.trim())`: the pieces that are not blank (`trim()`
   * leaves a non-empty string exactly then, see `Text.Trim`).
   */
  function KeepNonBlank(parts: seq<string>): (r: seq<string>)
    ensures |r| <= |parts|
  {
    if parts == [] then []
    else
      var init := KeepNonBlank(parts[..|parts| - 1]);
      var last := parts[|parts| - 1];
      if !Blank(last) then init + [last] else init
  }

  /** The non-blank paragraphs of the summary, in order. */
  function Sections(summary: string): seq<string>
  {
    KeepNonBlank(Split(summary, SectionSeparator))
  }

  /** The `i`-th piece of a header section: odd pieces stood between `**`s. */
  function PartHtml(part: string, i: nat): Html
  {
    if i % 2 == 1 then
      if ':' in part then [Tag(HeaderOpen), Plain(RemoveFirst(part, ':')), Tag(HeaderClose)]
      else [Tag(StrongOpen), Plain(part), Tag(StrongClose)]
    else [Plain(part)]
  }

  function PartsHtml(parts: seq<string>): Html
  {
    if parts == [] then [] else PartsHtml(parts[..|parts| - 1]) + PartHtml(parts[|parts| - 1], |parts| - 1)
  }

  /** The header test of `formatMainSummary`: the text holds `**` and splits into more than two pieces. */
  predicate IsHeaderSection(trimmed: string)
  {
    Contains(trimmed, BoldSeparator) && |Split(trimmed, BoldSeparator)| > 2
  }

  function SectionHtml(trimmed: string): Html
  {
    if IsHeaderSection(trimmed) then [Tag(SectionOpen)] + PartsHtml(Split(trimmed, BoldSeparator)) + [Tag(DivClose)]
    else [Tag(ParagraphOpen), Plain(trimmed), Tag(ParagraphClose)]
  }

  /** One block per section, in order. */
  function Blocks(sections: seq<string>): (bs: seq<Html>)
    ensures |bs| == |sections|
    ensures forall k :: 0 <= k < |sections| ==> bs[k] == SectionHtml(Trim(sections[k]))
  {
    seq(|sections|, k requires 0 <= k < |sections| => SectionHtml(Trim(sections[k])))
  }

  /** What `formatMainSummary` returns. */
  function MainSummaryHtml(summary: string): Html
  {
    [Tag(MainOpen)] + Concat(Blocks(Sections(summary))) + [Tag(DivClose)]
  }

  /**
   * `formatSummaryWithHighlights`; `None` is a `null` or `undefined`
   * summary.  With the marker, the text before its first occurrence is
   * formatted and the text after it, up to a second occurrence, trimmed,
   * goes into the alternatives card.
   */
  function SummaryWithHighlights(summary: Option<string>): Html
  {
    if summary.None? || summary.value == "" then []
    else if Contains(summary.value, Marker) then
      var parts := Split(summary.value, Marker);
      MainSummaryHtml(parts[0]) + [Tag(AlternativesOpen), Plain(Trim(parts[1])), Tag(AlternativesClose)]
    else MainSummaryHtml(summary.value)
  }

  // ---------------------------------------------------------------------
  // formatMainSummary, step by step
  // ---------------------------------------------------------------------

  /** The `for` loop over the pieces of a header section. */
  method FormatHeaderSection(parts: seq<string>) returns (sectionHtml: Html)
    ensures sectionHtml == [Tag(SectionOpen)] + PartsHtml(parts) + [Tag(DivClose)]
  {
    sectionHtml := [Tag(SectionOpen)];
    for i := 0 to |parts|
      invariant sectionHtml == [Tag(SectionOpen)] + PartsHtml(parts[..i])
    {
      PartsSnoc(parts, i);
      Assoc([Tag(SectionOpen)], PartsHtml(parts[..i]), PartHtml(parts[i], i));
      if i % 2 == 1 {
        if ':' in parts[i] {
          sectionHtml := sectionHtml + [Tag(HeaderOpen), Plain(RemoveFirst(parts[i], ':')), Tag(HeaderClose)];
        } else {
          sectionHtml := sectionHtml + [Tag(StrongOpen), Plain(parts[i]), Tag(StrongClose)];
        }
      } else {
        sectionHtml := sectionHtml + [Plain(parts[i])];
      }
    }
    assert parts[..|parts|] == parts;
    sectionHtml := sectionHtml + [Tag(DivClose)];
  }

  /** The body of the `forEach`: a header block or a paragraph for one trimmed section. */
  method FormatSection(trimmed: string) returns (block: Html)
    ensures block == SectionHtml(trimmed)
  {
    if Contains(trimmed, BoldSeparator) && |Split(trimmed, BoldSeparator)| > 2 {
      block := FormatHeaderSection(Split(trimmed, BoldSeparator));
    } else {
      block := [Tag(ParagraphOpen), Plain(trimmed), Tag(ParagraphClose)];
    }
  }

  /** `formatMainSummary`: the opening `div`, one block per section appended in turn, then `</div>`. */
  method FormatMainSummary(summary: string) returns (html: Html)
    ensures html == MainSummaryHtml(summary)
  {
    var sections := Sections(summary);
    ghost var blocks := Blocks(sections);
    html := [Tag(MainOpen)];
    for k := 0 to |sections|
      invariant html == [Tag(MainOpen)] + Concat(blocks[..k])
    {
      var block := FormatSection(Trim(sections[k]));
      ConcatSnoc(blocks, k);
      Assoc([Tag(MainOpen)], Concat(blocks[..k]), block);
      html := html + block;
    }
    assert blocks[..|sections|] == blocks;
    html := html + [Tag(DivClose)];
  }

  // ---------------------------------------------------------------------
  // Lemmas
  // ---------------------------------------------------------------------

  lemma PartsSnoc(parts: seq<string>, i: nat)
    requires i < |parts|
    ensures PartsHtml(parts[..i + 1]) == PartsHtml(parts[..i]) + PartHtml(parts[i], i)
  {
    assert parts[..i + 1][..i] == parts[..i];
  }

  lemma Assoc(a: Html, b: Html, c: Html)
    ensures a + b + c == a + (b + c)
  {
  }

  lemma ConcatSnoc(hs: seq<Html>, k: nat)
    requires k < |hs|
    ensures Concat(hs[..k + 1]) == Concat(hs[..k]) + hs[k]
  {
    assert hs[..k + 1][..k] == hs[..k];
  }

  /** Rendering distributes over concatenation. */
  lemma RenderAppend(a: Html, b: Html)
    ensures Render(a + b) == Render(a) + Render(b)
  {
    FlattenAppend(a, b, RenderChunk);
  }

  lemma {:induction false} FlattenAppend<T>(a: seq<T>, b: seq<T>, text: T -> string)
    ensures Flatten(a + b, text) == Flatten(a, text) + Flatten(b, text)
    decreases |b|
  {
    if b == [] {
      assert a + b == a;
    } else {
      var b' := b[..|b| - 1];
      FlattenAppend(a, b', text);
      assert (a + b)[..|a + b| - 1] == a + b';
    }
  }

  /** A missing or empty summary gives the empty string. */
  lemma EmptySummary()
    ensures Render(SummaryWithHighlights(None)) == ""
    ensures Render(SummaryWithHighlights(Some(""))) == ""
  {
  }

  /**
   * `formatSummaryWithHighlights` on any summary: empty exactly for a
   * missing or empty summary; otherwise it opens with the main `div`, and it
   * closes with the alternatives card exactly when the marker occurs, with
   * the main `</div>` otherwise.
   */
  lemma HighlightsFrame(summary: Option<string>)
    ensures var h := SummaryWithHighlights(summary);
      (h == [] <==> summary.None? || summary.value == "") &&
      (h != [] ==> h[0] == Tag(MainOpen)) &&
      (h != [] ==> h[|h| - 1] == if Contains(summary.value, Marker) then Tag(AlternativesClose) else Tag(DivClose))
  {
    if summary.Some? && summary.value != "" {
      if Contains(summary.value, Marker) {
        var main := MainSummaryHtml(Split(summary.value, Marker)[0]);
        assert main[0] == Tag(MainOpen);
      }
    }
  }

  /** Without the marker the whole summary is formatted as the main part. */
  lemma WithoutMarker(summary: string)
    requires summary != "" && !Contains(summary, Marker)
    ensures SummaryWithHighlights(Some(summary)) == MainSummaryHtml(summary)
  {
  }

  /** The marker cannot overlap itself: its first character does not occur again in it. */
  lemma MarkerIsUnbordered()
    ensures Unbordered(Marker)
  {
  }

  /**
   * With the marker: the text before it is formatted as the main part, and
   * the trimmed text after it, up to any second marker, fills the card.
   */
  lemma WithMarker(main: string, rest: string)
    requires !Contains(main, Marker)
    ensures SummaryWithHighlights(Some(main + Marker + rest)) ==
      MainSummaryHtml(main) + [Tag(AlternativesOpen), Plain(Trim(Split(rest, Marker)[0])), Tag(AlternativesClose)]
  {
    MarkerIsUnbordered();
    SplitAtFirst(main, Marker, rest);
  }

  /** Whatever follows a second marker is dropped. */
  lemma SecondMarkerDropsTail(main: string, alternatives: string, tail: string)
    requires !Contains(main, Marker) && !Contains(alternatives, Marker)
    ensures SummaryWithHighlights(Some(main + Marker + alternatives + Marker + tail)) ==
      MainSummaryHtml(main) + [Tag(AlternativesOpen), Plain(Trim(alternatives)), Tag(AlternativesClose)]
  {
    var rest := alternatives + Marker + tail;
    assert main + Marker + alternatives + Marker + tail == main + Marker + rest;
    WithMarker(main, rest);
    MarkerIsUnbordered();
    SplitAtFirst(alternatives, Marker, tail);
  }

  /** The output of `formatMainSummary` opens with the `line-height` div and ends with `</div>`. */
  lemma MainSummaryFrame(summary: string)
    ensures var h := MainSummaryHtml(summary);
      h[0] == Tag(MainOpen) && h[|h| - 1] == Tag(DivClose) &&
      Render(h) == MainOpen.Text() + Render(Concat(Blocks(Sections(summary)))) + DivClose.Text()
  {
    var body := Concat(Blocks(Sections(summary)));
    RenderAppend([Tag(MainOpen)], body);
    RenderAppend([Tag(MainOpen)] + body, [Tag(DivClose)]);
    assert Render([Tag(MainOpen)]) == MainOpen.Text() by {
      assert [Tag(MainOpen)][..0] == [];
    }
    assert Render([Tag(DivClose)]) == DivClose.Text() by {
      assert [Tag(DivClose)][..0] == [];
    }
  }

  /** The sections kept are exactly the non-blank pieces. */
  lemma {:induction false} KeepNonBlankIff(parts: seq<string>, x: string)
    ensures x in KeepNonBlank(parts) <==> x in parts && !Blank(x)
    decreases |parts|
  {
    if parts != [] {
      var init := parts[..|parts| - 1];
      KeepNonBlankIff(init, x);
      assert parts == init + [parts[|parts| - 1]];
    }
  }

  /** The filter keeps the non-blank pieces in their original order. */
  lemma {:induction false} KeepNonBlankKeepsOrder(parts: seq<string>, rest: seq<string>)
    ensures KeepNonBlank(parts + rest) == KeepNonBlank(parts) + KeepNonBlank(rest)
    decreases |rest|
  {
    if rest == [] {
      assert parts + rest == parts;
    } else {
      var init := rest[..|rest| - 1];
      KeepNonBlankKeepsOrder(parts, init);
      assert (parts + rest)[..|parts + rest| - 1] == parts + init;
    }
  }

  /** A blank summary formats to the empty frame. */
  lemma BlankSummary(summary: string)
    requires Blank(summary)
    ensures MainSummaryHtml(summary) == [Tag(MainOpen), Tag(DivClose)]
  {
    var pieces := Split(summary, SectionSeparator);
    SplitOfBlank(summary, SectionSeparator);
    if Sections(summary) != [] {
      KeepNonBlankIff(pieces, Sections(summary)[0]);
    }
  }

  /** A section split into at most two pieces on `**` becomes one paragraph holding the trimmed text verbatim. */
  lemma ParagraphIff(trimmed: string)
    ensures SectionHtml(trimmed) == [Tag(ParagraphOpen), Plain(trimmed), Tag(ParagraphClose)] <==>
      |Split(trimmed, BoldSeparator)| <= 2
  {
    if |Split(trimmed, BoldSeparator)| > 2 {
      assert IsHeaderSection(trimmed);
      assert SectionHtml(trimmed)[0] == Tag(SectionOpen);
    } else {
      assert !IsHeaderSection(trimmed);
    }
  }

  /** So do a section holding no `**` and the lone `**`. */
  lemma PlainAndLoneMarkers(trimmed: string)
    ensures !Contains(trimmed, BoldSeparator) ==> SectionHtml(trimmed) == [Tag(ParagraphOpen), Plain(trimmed), Tag(ParagraphClose)]
    ensures SectionHtml(BoldSeparator) == [Tag(ParagraphOpen), Plain(BoldSeparator), Tag(ParagraphClose)]
  {
    LoneBoldSplit();
  }

  lemma LoneBoldSplit()
    ensures Split(BoldSeparator, BoldSeparator) == ["", ""]
  {
    assert OccursAt(BoldSeparator, BoldSeparator, 0);
    assert BoldSeparator[2..] == "";
    assert IndexOf("", BoldSeparator) == None;
  }

  /**
   * In a header section the even pieces are copied as they are, odd pieces
   * with a colon become headers without their first colon, other odd pieces
   * bold, and the pieces keep their order.
   */
  lemma HeaderSectionShape(trimmed: string)
    requires IsHeaderSection(trimmed)
    ensures var parts := Split(trimmed, BoldSeparator);
      SectionHtml(trimmed) == [Tag(SectionOpen)] + Concat(seq(|parts|, k requires 0 <= k < |parts| => PartHtml(parts[k], k))) + [Tag(DivClose)]
  {
    var parts := Split(trimmed, BoldSeparator);
    PartsAreConcat(parts);
  }

  lemma {:induction false} PartsAreConcat(parts: seq<string>)
    ensures PartsHtml(parts) == Concat(seq(|parts|, k requires 0 <= k < |parts| => PartHtml(parts[k], k)))
    decreases |parts|
  {
    if parts != [] {
      var n := |parts| - 1;
      PartsAreConcat(parts[..n]);
      var all := seq(|parts|, k requires 0 <= k < |parts| => PartHtml(parts[k], k));
      assert all[..n] == seq(n, k requires 0 <= k < n => PartHtml(parts[..n][k], k));
    }
  }
}
