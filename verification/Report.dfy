/** `PDFGenerator.format_ai_summary`: the digest text turned into the markup of
    one report paragraph, line by line. */
module Report {
  import opened Text

  const BoldOpen := "<b>"
  const BoldClose := "</b>"
  const Indent := "&nbsp;&nbsp;&nbsp;&nbsp;"
  const LineBreak := "<br/>"

  /** The three ways a non-blank line is shown. */
  datatype LineKind = Heading | Bullet | Plain

  /** A line ending in a colon or starting with `##` is a heading; otherwise
      one starting with a bullet sign or a dash is a bullet. */
  function KindOf(line: string): LineKind {
    if EndsWith(line, ":") || StartsWith(line, "##") then Heading
    else if StartsWith(line, "\U{2022}") || StartsWith(line, "-") then Bullet
    else Plain
  }

  /** The markup of one stripped, non-blank line. */
  function FormatLine(line: string): (entry: string)
    ensures KindOf(line) == Heading ==>
      (StartsWith(entry, BoldOpen) && EndsWith(entry, BoldClose) && |entry| == |BoldOpen| + |line| + |BoldClose|
       && entry[|BoldOpen|..|entry| - |BoldClose|] == line)
    ensures KindOf(line) == Bullet ==> StartsWith(entry, Indent) && entry[|Indent|..] == line
    ensures KindOf(line) == Plain ==> entry == line
  {
    match KindOf(line)
    case Heading =>
      var e := BoldOpen + line + BoldClose;
      assert e[..|BoldOpen|] == BoldOpen && e[|e| - |BoldClose|..] == BoldClose;
      assert e[|BoldOpen|..|e| - |BoldClose|] == line;
      e
    case Bullet =>
      var e := Indent + line;
      assert e[..|Indent|] == Indent && e[|Indent|..] == line;
      e
    case Plain => line
  }

  /** The stripped lines that are not blank, in order. */
  function NonBlank(lines: seq<string>): (kept: seq<string>)
    ensures |kept| <= |lines|
    ensures forall i :: 0 <= i < |kept| ==> kept[i] != [] && IsTrimmed(kept[i])
  {
    if lines == [] then []
    else
      var line := Strip(lines[|lines| - 1]);
      NonBlank(lines[..|lines| - 1]) + (if line != [] then [line] else [])
  }

  /** The entries the loop of `format_ai_summary` collects. */
  function FormattedLines(lines: seq<string>): seq<string> {
    if lines == [] then []
    else
      var line := Strip(lines[|lines| - 1]);
      FormattedLines(lines[..|lines| - 1]) + (if line != [] then [FormatLine(line)] else [])
  }

  /** What `format_ai_summary(text)` returns. */
  function FormatAiSummary(text: string): string {
    Join(FormattedLines(SplitOn(text, '\n')), LineBreak)
  }

  /** `format_ai_summary`: strip every line, skip the blank ones, mark up the
      rest and join them with line breaks. */
  method FormatSummary(text: string) returns (formatted: string)
    ensures formatted == FormatAiSummary(text)
  {
    var lines := SplitOn(text, '\n');
    var entries: seq<string> := [];
    for i := 0 to |lines|
      invariant entries == FormattedLines(lines[..i])
    {
      assert lines[..i + 1][..i] == lines[..i];
      var line := Strip(lines[i]);
      if line != [] {
        if EndsWith(line, ":") || StartsWith(line, "##") {
          entries := entries + [BoldOpen + line + BoldClose];
        } else if StartsWith(line, "\U{2022}") || StartsWith(line, "-") {
          entries := entries + [Indent + line];
        } else {
          entries := entries + [line];
        }
      }
    }
    assert lines[..|lines|] == lines;
    formatted := Join(entries, LineBreak);
  }

  /** One entry per non-blank line, in order: the i-th entry is the markup of
      the i-th non-blank line. */
  lemma {:induction false} EntriesOfNonBlankLines(lines: seq<string>)
    ensures |FormattedLines(lines)| == |NonBlank(lines)|
    ensures forall i :: 0 <= i < |NonBlank(lines)| ==> FormattedLines(lines)[i] == FormatLine(NonBlank(lines)[i])
  {
    if lines != [] {
      EntriesOfNonBlankLines(lines[..|lines| - 1]);
    }
  }

  /** Blank lines after the last non-blank one add nothing; with `a == []`, a
      text made of blank lines formats to nothing. */
  lemma {:induction false} BlankLinesVanish(a: seq<string>, b: seq<string>)
    requires forall i :: 0 <= i < |b| ==> Strip(b[i]) == []
    ensures FormattedLines(a + b) == FormattedLines(a)
  {
    if b != [] {
      var init := b[..|b| - 1];
      ConcatInit(a, b);
      BlankLinesVanish(a, init);
    } else {
      assert a + b == a;
    }
  }
}
