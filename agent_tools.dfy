/**
 * tools/agent_tools.py: `retriever_tool` runs one vector-store search and
 * renders the hits as text for the agents. The store and its search are
 * parameters; `:.2f` score formatting is the function `formatScore`. The tool
 * returns a string on every path the source handles; an exception it does not
 * catch (a hit without score, figure metadata of the wrong type) is `Err`.
 */
module AgentTools {
  import opened Wrappers
  import opened Text
  import opened Json
  import opened Schema
  import opened Codec

  const NoStore := "System Error: Vector store is not initialized. Please check configuration."
  const SearchErrorPrefix := "Search Error: An error occurred while searching: "
  const NoResults := "No relevant information found."
  const TextHeader := "#### Text Evidence:"
  const ImageHeader := "\n#### Image Evidence:"
  const TruncationMark := "...(truncated)"
  const MaxPreview := 400
  /** The TypeError Python raises when `None` is formatted with `:.2f`. */
  const NoneFormatMessage := "unsupported format string passed to NoneType.__format__"

  /** A search: the hits for a query and `top_k`, or the message of the exception it raised. */
  type Search = (string, nat) -> Result<seq<EvidenceItem>, string>

  function ResultsHeader(query: string): string
  {
    "### Search Results for '" + query + "'\n"
  }

  datatype Kind = TextKind | ImageKind | OtherKind

  /** How a hit is classified by its metadata "type" (missing means text). */
  function KindOf(item: EvidenceItem): Kind
  {
    var t := GetOr(item.metadata, "type", JStr(TEXT.Value()));
    if t == JStr(TEXT.Value()) then TextKind
    else if t == JStr(IMAGE.Value()) then ImageKind
    else OtherKind
  }

  /** The preview of a text hit: at most 400 characters of it, marked when cut. */
  function Truncate(content: string): (r: string)
    ensures |content| <= MaxPreview ==> r == content
    ensures |content| > MaxPreview ==>
              |r| == MaxPreview + |TruncationMark| && r[..MaxPreview] == content[..MaxPreview] && EndsWith(r, TruncationMark)
  {
    if |content| > MaxPreview then content[..MaxPreview] + TruncationMark else content
  }

  /** The text evidence: the text hits, in order, with their content truncated. */
  function TextEvidence(hits: seq<EvidenceItem>): seq<EvidenceItem>
    decreases |hits|
  {
    if hits == [] then []
    else
      var h := hits[|hits| - 1];
      TextEvidence(hits[..|hits| - 1]) + (if KindOf(h) == TextKind then [h.(content := Truncate(h.content))] else [])
  }

  /** The `FigureData` built from an image hit; the page must validate as an int and the path be a str. */
  function AsFigure(item: EvidenceItem): Result<FigureData, string>
  {
    var page := LaxInt(GetOr(item.metadata, "page_number", JInt(0)));
    var path := GetOr(item.metadata, "image_path", JStr(""));
    if page.None? then Err(ValidationMessage("FigureData", "page_number"))
    else if !path.JStr? then Err(ValidationMessage("FigureData", "image_path"))
    else Ok(FigureData(item.id, page.value, path.s, Some(item.content)))
  }

  /** The image evidence, in order; the first image hit that fails validation raises. */
  function Figures(hits: seq<EvidenceItem>): Result<seq<FigureData>, string>
    decreases |hits|
  {
    if hits == [] then Ok([])
    else
      var prev := Figures(hits[..|hits| - 1]);
      var h := hits[|hits| - 1];
      if prev.Err? || KindOf(h) != ImageKind then prev
      else
        var f := AsFigure(h);
        if f.Err? then Err(f.error) else Ok(prev.value + [f.value])
  }

  predicate AllScored(texts: seq<EvidenceItem>)
  {
    forall i :: 0 <= i < |texts| ==> texts[i].score.Some?
  }

  function TextLine(k: nat, item: EvidenceItem, formatScore: real -> string): string
    requires item.score.Some?
  {
    "[" + NatToString(k) + "] (Score: " + formatScore(item.score.value) + ") " + item.content
  }

  /** The numbered lines of the text section. */
  function TextLines(texts: seq<EvidenceItem>, formatScore: real -> string): seq<string>
    requires AllScored(texts)
    decreases |texts|
  {
    if texts == [] then []
    else TextLines(texts[..|texts| - 1], formatScore) + [TextLine(|texts|, texts[|texts| - 1], formatScore)]
  }

  function FigureLine(f: FigureData): string
  {
    "- Figure " + f.figureId + " (Page " + IntToString(f.pageNumber) + "): " + CaptionText(f.caption)
  }

  function FigureLines(figs: seq<FigureData>): seq<string>
    decreases |figs|
  {
    if figs == [] then [] else FigureLines(figs[..|figs| - 1]) + [FigureLine(figs[|figs| - 1])]
  }

  /** `output_lines`: the header, then the text section, then the image section, each only when non-empty. */
  function Lines(query: string, texts: seq<EvidenceItem>, figs: seq<FigureData>, formatScore: real -> string): seq<string>
    requires AllScored(texts)
  {
    [ResultsHeader(query)]
    + (if texts != [] then [TextHeader] + TextLines(texts, formatScore) else [])
    + (if figs != [] then [ImageHeader] + FigureLines(figs) else [])
  }

  /** What the tool returns for the hits of a successful search. */
  function Render(query: string, hits: seq<EvidenceItem>, formatScore: real -> string): Result<string, string>
  {
    var texts := TextEvidence(hits);
    var figs := Figures(hits);
    if figs.Err? then Err(figs.error)
    else if !AllScored(texts) then Err(NoneFormatMessage)
    else if texts == [] && figs.value == [] then Ok(NoResults)
    else Ok(Join(Lines(query, texts, figs.value, formatScore), "\n"))
  }

  /** What `retriever_tool` returns: a fixed message without store, the search error, or the rendering. */
  function ToolResult(query: string, storeReady: bool, topK: nat, search: Search, formatScore: real -> string): Result<string, string>
  {
    if !storeReady then Ok(NoStore)
    else
      var found := search(query, topK);
      if found.Err? then Ok(SearchErrorPrefix + found.error)
      else Render(query, found.value, formatScore)
  }

  /** A failure in a prefix of the hits is the failure of the whole list. */
  lemma {:induction false} FiguresErrPropagates(hits: seq<EvidenceItem>, i: nat)
    requires i <= |hits| && Figures(hits[..i]).Err?
    ensures Figures(hits) == Figures(hits[..i])
    decreases |hits| - i
  {
    if i < |hits| {
      var next := hits[..i + 1];
      assert next[..|next| - 1] == hits[..i];
      assert Figures(next) == Figures(hits[..i]);
      FiguresErrPropagates(hits, i + 1);
    } else {
      assert hits[..i] == hits;
    }
  }

  lemma TextEvidenceStep(hits: seq<EvidenceItem>, i: nat)
    requires i < |hits|
    ensures TextEvidence(hits[..i + 1])
            == TextEvidence(hits[..i]) + (if KindOf(hits[i]) == TextKind then [hits[i].(content := Truncate(hits[i].content))] else [])
  {
    var p := hits[..i + 1];
    assert p[..|p| - 1] == hits[..i];
  }

  lemma FiguresStep(hits: seq<EvidenceItem>, i: nat)
    requires i < |hits| && Figures(hits[..i]).Ok?
    ensures KindOf(hits[i]) != ImageKind ==> Figures(hits[..i + 1]) == Figures(hits[..i])
    ensures KindOf(hits[i]) == ImageKind && AsFigure(hits[i]).Err? ==> Figures(hits[..i + 1]) == Err(AsFigure(hits[i]).error)
    ensures KindOf(hits[i]) == ImageKind && AsFigure(hits[i]).Ok? ==>
              Figures(hits[..i + 1]) == Ok(Figures(hits[..i]).value + [AsFigure(hits[i]).value])
  {
    var p := hits[..i + 1];
    assert p[..|p| - 1] == hits[..i];
  }

  /** A scored prefix extended by one more scored hit gains that hit's line, numbered by its position. */
  lemma TextLinesStep(texts: seq<EvidenceItem>, i: nat, formatScore: real -> string)
    requires i < |texts| && AllScored(texts[..i]) && texts[i].score.Some?
    ensures AllScored(texts[..i + 1])
    ensures TextLines(texts[..i + 1], formatScore) == TextLines(texts[..i], formatScore) + [TextLine(i + 1, texts[i], formatScore)]
  {
    var p := texts[..i + 1];
    assert p[..|p| - 1] == texts[..i];
    forall j | 0 <= j < |p| ensures p[j].score.Some? {
      if j < i {
        assert p[j] == texts[..i][j];
      }
    }
  }

  lemma FigureLinesStep(figs: seq<FigureData>, i: nat)
    requires i < |figs|
    ensures FigureLines(figs[..i + 1]) == FigureLines(figs[..i]) + [FigureLine(figs[i])]
  {
    var p := figs[..i + 1];
    assert p[..|p| - 1] == figs[..i];
  }

  /** `retriever_tool`. */
  method RetrieverTool(query: string, storeReady: bool, topK: nat, search: Search, formatScore: real -> string)
    returns (r: Result<string, string>)
    ensures r == ToolResult(query, storeReady, topK, search, formatScore)
  {
    if !storeReady {
      return Ok(NoStore);
    }
    var found := search(query, topK);
    if found.Err? {
      return Ok(SearchErrorPrefix + found.error);
    }
    r := RenderHits(query, found.value, formatScore);
  }

  /** The part of `retriever_tool` after a successful search: classify, then render. */
  method RenderHits(query: string, hits: seq<EvidenceItem>, formatScore: real -> string) returns (r: Result<string, string>)
    ensures r == Render(query, hits, formatScore)
  {
    var texts, images := Classify(hits);
    if images.Err? {
      return Err(images.error);
    }
    var lines := [ResultsHeader(query)];
    ghost var textPart: seq<string> := [];
    ghost var imagePart: seq<string> := [];
    if texts != [] {
      lines := lines + [TextHeader];
      var textLines, ok := NumberTextLines(texts, formatScore);
      if !ok {
        return Err(NoneFormatMessage);
      }
      lines := lines + textLines;
      textPart := [TextHeader] + textLines;
    }
    assert AllScored(texts);
    assert lines == [ResultsHeader(query)] + textPart;
    if images.value != [] {
      lines := lines + [ImageHeader];
      var figureLines := ListFigures(images.value);
      lines := lines + figureLines;
      imagePart := [ImageHeader] + figureLines;
    }
    assert lines == [ResultsHeader(query)] + textPart + imagePart;
    if texts == [] && images.value == [] {
      return Ok(NoResults);
    }
    assert lines == Lines(query, texts, images.value, formatScore);
    return Ok(Join(lines, "\n"));
  }

  /** The classification loop: text hits (truncated) and image hits, each in their order; other types are dropped. */
  method Classify(hits: seq<EvidenceItem>) returns (texts: seq<EvidenceItem>, images: Result<seq<FigureData>, string>)
    ensures texts == TextEvidence(hits)
    ensures images == Figures(hits)
  {
    texts := [];
    var figs: seq<FigureData> := [];
    for i := 0 to |hits|
      invariant texts == TextEvidence(hits[..i])
      invariant Figures(hits[..i]) == Ok(figs)
    {
      var item := hits[i];
      var kind := KindOf(item);
      TextEvidenceStep(hits, i);
      FiguresStep(hits, i);
      if kind == TextKind {
        var preview := item.content;
        if |preview| > MaxPreview {
          preview := preview[..MaxPreview] + TruncationMark;
        }
        texts := texts + [EvidenceItem(item.id, preview, item.score, item.metadata)];
      } else if kind == ImageKind {
        var fig := AsFigure(item);
        if fig.Err? {
          FiguresErrPropagates(hits, i + 1);
          texts := TextEvidence(hits);
          return texts, Err(fig.error);
        }
        figs := figs + [fig.value];
      }
    }
    assert hits[..|hits|] == hits;
    images := Ok(figs);
  }

  /** The numbered text lines; `ok` is false when a hit has no score, where formatting raises. */
  method NumberTextLines(texts: seq<EvidenceItem>, formatScore: real -> string) returns (lines: seq<string>, ok: bool)
    ensures ok <==> AllScored(texts)
    ensures ok ==> lines == TextLines(texts, formatScore)
  {
    lines := [];
    for idx := 0 to |texts|
      invariant AllScored(texts[..idx])
      invariant lines == TextLines(texts[..idx], formatScore)
    {
      var item := texts[idx];
      if item.score.None? {
        assert !AllScored(texts) by {
          assert texts[idx].score.None?;
        }
        return lines, false;
      }
      TextLinesStep(texts, idx, formatScore);
      lines := lines + [TextLine(idx + 1, item, formatScore)];
    }
    assert texts[..|texts|] == texts;
    ok := true;
  }

  /** One line per figure, in order. */
  method ListFigures(figs: seq<FigureData>) returns (lines: seq<string>)
    ensures lines == FigureLines(figs)
  {
    lines := [];
    for i := 0 to |figs|
      invariant lines == FigureLines(figs[..i])
    {
      FigureLinesStep(figs, i);
      lines := lines + [FigureLine(figs[i])];
    }
    assert figs[..|figs|] == figs;
  }

  /** Classification is a filter: it distributes over concatenation, so relative order is kept. */
  lemma {:induction false} TextEvidenceConcat(a: seq<EvidenceItem>, b: seq<EvidenceItem>)
    ensures TextEvidence(a + b) == TextEvidence(a) + TextEvidence(b)
    decreases |b|
  {
    if b == [] {
      assert a + b == a;
    } else {
      var b' := b[..|b| - 1];
      var ab := a + b;
      assert ab[..|ab| - 1] == a + b';
      assert ab[|ab| - 1] == b[|b| - 1];
      TextEvidenceConcat(a, b');
    }
  }

  /** The same for the image evidence, when neither part raises. */
  lemma {:induction false} FiguresConcat(a: seq<EvidenceItem>, b: seq<EvidenceItem>)
    requires Figures(a).Ok? && Figures(b).Ok?
    ensures Figures(a + b) == Ok(Figures(a).value + Figures(b).value)
    decreases |b|
  {
    if b == [] {
      assert a + b == a;
      assert Figures(b).value == [];
      assert Figures(a).value + [] == Figures(a).value;
    } else {
      var b' := b[..|b| - 1];
      var ab := a + b;
      assert ab[..|ab| - 1] == a + b';
      assert ab[|ab| - 1] == b[|b| - 1];
      assert Figures(b').Ok?;
      FiguresConcat(a, b');
      assert Figures(ab[..|ab| - 1]) == Ok(Figures(a).value + Figures(b').value);
      var h := b[|b| - 1];
      if KindOf(h) == ImageKind {
        assert AsFigure(h).Ok?;
        assert Figures(b).value == Figures(b').value + [AsFigure(h).value];
        assert Figures(a).value + Figures(b').value + [AsFigure(h).value] == Figures(a).value + Figures(b).value;
      }
    }
  }

  /** A single hit: text hits are kept truncated, image hits become figures, anything else is dropped. */
  lemma ClassifyOne(h: EvidenceItem)
    ensures TextEvidence([h]) == (if KindOf(h) == TextKind then [h.(content := Truncate(h.content))] else [])
    ensures KindOf(h) != ImageKind ==> Figures([h]) == Ok([])
    ensures KindOf(h) == ImageKind ==> Figures([h]) == (if AsFigure(h).Ok? then Ok([AsFigure(h).value]) else Err(AsFigure(h).error))
    ensures GetOr(h.metadata, "type", JNull) == JStr(TABLE.Value()) ==> KindOf(h) == OtherKind
  {
    assert [h][..0] == [];
    assert Figures([h][..0]) == Ok([]);
    if KindOf(h) == ImageKind && AsFigure(h).Ok? {
      assert [] + [AsFigure(h).value] == [AsFigure(h).value];
    }
  }

  /** An image hit without page or path metadata gets page 0, path "" and its content as caption. */
  lemma ImageDefaults(h: EvidenceItem)
    requires "page_number" !in h.metadata && "image_path" !in h.metadata
    ensures AsFigure(h) == Ok(FigureData(h.id, 0, "", Some(h.content)))
  {
  }

  /** pydantic's lax mode takes a float page with no fractional part, such as 3.0, as the integer page. */
  lemma IntegralFloatPage(h: EvidenceItem, n: int, path: string)
    requires Get(h.metadata, "page_number") == Some(JFloat(n as real))
    requires Get(h.metadata, "image_path") == Some(JStr(path))
    ensures AsFigure(h) == Ok(FigureData(h.id, n, path, Some(h.content)))
  {
    assert (n as real).Floor == n;
  }

  lemma {:induction false} TextEvidenceNonEmpty(hits: seq<EvidenceItem>, i: nat)
    requires i < |hits| && KindOf(hits[i]) == TextKind
    ensures TextEvidence(hits) != []
    decreases |hits|
  {
    if i < |hits| - 1 {
      TextEvidenceNonEmpty(hits[..|hits| - 1], i);
    }
  }

  lemma {:induction false} FiguresNonEmpty(hits: seq<EvidenceItem>, i: nat)
    requires i < |hits| && KindOf(hits[i]) == ImageKind && Figures(hits).Ok?
    ensures Figures(hits).value != []
    decreases |hits|
  {
    var prev := Figures(hits[..|hits| - 1]);
    if i < |hits| - 1 {
      assert prev.Ok?;
      FiguresNonEmpty(hits[..|hits| - 1], i);
    }
  }

  lemma {:induction false} NothingClassified(hits: seq<EvidenceItem>)
    requires forall i :: 0 <= i < |hits| ==> KindOf(hits[i]) == OtherKind
    ensures TextEvidence(hits) == [] && Figures(hits) == Ok([])
    decreases |hits|
  {
    if hits != [] {
      NothingClassified(hits[..|hits| - 1]);
    }
  }

  /**
   * The tool says "No relevant information found." exactly when no hit is
   * of type text or image; otherwise a rendering starts with the header
   * naming the query.
   */
  lemma NoResultsIff(query: string, hits: seq<EvidenceItem>, formatScore: real -> string)
    ensures Render(query, hits, formatScore) == Ok(NoResults)
            <==> forall i :: 0 <= i < |hits| ==> KindOf(hits[i]) == OtherKind
    ensures Render(query, hits, formatScore).Ok? && Render(query, hits, formatScore) != Ok(NoResults)
            ==> StartsWith(Render(query, hits, formatScore).value, ResultsHeader(query))
  {
    var texts := TextEvidence(hits);
    var figs := Figures(hits);
    if forall i :: 0 <= i < |hits| ==> KindOf(hits[i]) == OtherKind {
      NothingClassified(hits);
    } else {
      var i :| 0 <= i < |hits| && KindOf(hits[i]) != OtherKind;
      if KindOf(hits[i]) == TextKind {
        TextEvidenceNonEmpty(hits, i);
      } else if figs.Ok? {
        FiguresNonEmpty(hits, i);
      }
    }
    if figs.Ok? && AllScored(texts) && !(texts == [] && figs.value == []) {
      var lines := Lines(query, texts, figs.value, formatScore);
      JoinStartsWithHead(lines, "\n");
      var r := Join(lines, "\n");
      assert r[0] == ResultsHeader(query)[0] == '#';
      assert NoResults[0] == 'N';
    }
  }

  /** The text lines are numbered from 1 in the order of the evidence. */
  lemma {:induction false} TextLinesNumbered(texts: seq<EvidenceItem>, formatScore: real -> string, k: nat)
    requires AllScored(texts) && k < |texts|
    ensures |TextLines(texts, formatScore)| == |texts|
    ensures TextLines(texts, formatScore)[k] == TextLine(k + 1, texts[k], formatScore)
    decreases |texts|
  {
    var init := texts[..|texts| - 1];
    assert AllScored(init);
    if k < |texts| - 1 {
      TextLinesNumbered(init, formatScore, k);
    } else if init != [] {
      TextLinesNumbered(init, formatScore, 0);
    }
  }

  lemma {:induction false} FigureLinesLength(figs: seq<FigureData>)
    ensures |FigureLines(figs)| == |figs|
    decreases |figs|
  {
    if figs != [] {
      FigureLinesLength(figs[..|figs| - 1]);
    }
  }

  /**
   * Layout of the lines when there is text evidence: the header, the text
   * section title, the numbered text lines, and only then the image section.
   */
  lemma TextBeforeImages(query: string, texts: seq<EvidenceItem>, figs: seq<FigureData>, formatScore: real -> string, k: nat)
    requires AllScored(texts) && k < |texts|
    ensures var lines := Lines(query, texts, figs, formatScore);
            |lines| == 2 + |texts| + (if figs != [] then 1 + |figs| else 0)
            && lines[0] == ResultsHeader(query) && lines[1] == TextHeader
            && lines[2 + k] == TextLine(k + 1, texts[k], formatScore)
            && (figs != [] ==> lines[2 + |texts|] == ImageHeader)
  {
    TextLinesNumbered(texts, formatScore, k);
    FigureLinesLength(figs);
  }

  lemma {:induction false} ScoredTexts(hits: seq<EvidenceItem>)
    requires forall i :: 0 <= i < |hits| && KindOf(hits[i]) == TextKind ==> hits[i].score.Some?
    ensures AllScored(TextEvidence(hits))
    decreases |hits|
  {
    if hits != [] {
      ScoredTexts(hits[..|hits| - 1]);
    }
  }

  lemma {:induction false} ValidFigures(hits: seq<EvidenceItem>)
    requires forall i :: 0 <= i < |hits| && KindOf(hits[i]) == ImageKind ==> AsFigure(hits[i]).Ok?
    ensures Figures(hits).Ok?
    decreases |hits|
  {
    if hits != [] {
      ValidFigures(hits[..|hits| - 1]);
    }
  }

  /**
   * The tool always returns a string when the store has no hit it cannot
   * render: with no store, on a search error, and whenever every text hit
   * carries a score and every image hit well-typed metadata.
   */
  lemma ToolAlwaysAnswers(query: string, storeReady: bool, topK: nat, search: Search, formatScore: real -> string)
    requires storeReady && search(query, topK).Ok? ==>
             forall i :: 0 <= i < |search(query, topK).value| ==>
               var h := search(query, topK).value[i];
               (KindOf(h) == TextKind ==> h.score.Some?) && (KindOf(h) == ImageKind ==> AsFigure(h).Ok?)
    ensures ToolResult(query, storeReady, topK, search, formatScore).Ok?
    ensures !storeReady ==> ToolResult(query, storeReady, topK, search, formatScore) == Ok("System Error: Vector store is not initialized. Please check configuration.")
    ensures storeReady && search(query, topK).Err? ==>
              ToolResult(query, storeReady, topK, search, formatScore)
              == Ok("Search Error: An error occurred while searching: " + search(query, topK).error)
  {
    if storeReady && search(query, topK).Ok? {
      ScoredTexts(search(query, topK).value);
      ValidFigures(search(query, topK).value);
    }
  }
}
