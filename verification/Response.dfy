/** How a reply of the local model is cleaned (`_clean_ollama_response`) and
    read as a classification (`_parse_enhanced_response`). */
module Response {
  import opened Wrappers
  import opened Text
  import opened Records

  // ------------------------------------------------------------- cleaning

  /** Lines the interactive model runtime echoes back (prompt and continuation markers). */
  predicate IsEcho(line: string) {
    StartsWith(line, ">>>") || StartsWith(line, "...")
  }

  /** A line as cleaning keeps it: trimmed, not blank, not an echo. */
  predicate IsCleanLine(line: string) {
    line != [] && IsTrimmed(line) && !IsEcho(line)
  }

  /** The kept, stripped lines, in their original order. */
  function CleanLines(lines: seq<string>): (kept: seq<string>)
    ensures |kept| <= |lines|
    ensures forall i :: 0 <= i < |kept| ==> IsCleanLine(kept[i])
    ensures (forall j :: 0 <= j < |lines| ==> '\n' !in lines[j]) ==>
              forall i :: 0 <= i < |kept| ==> '\n' !in kept[i]
  {
    if lines == [] then []
    else
      var line := Strip(lines[|lines| - 1]);
      CleanLines(lines[..|lines| - 1]) + (if line != [] && !IsEcho(line) then [line] else [])
  }

  /** What `_clean_ollama_response(response)` returns. */
  function Clean(response: string): string {
    Join(CleanLines(SplitOn(Strip(response), '\n')), "\n")
  }

  /** `_clean_ollama_response`: the loop that strips every line of the stripped
      response and keeps the non-blank ones that are not echoes. */
  method CleanOllamaResponse(response: string) returns (cleaned: string)
    ensures cleaned == Clean(response)
  {
    var lines := SplitOn(Strip(response), '\n');
    var kept: seq<string> := [];
    var i := 0;
    while i < |lines|
      invariant 0 <= i <= |lines|
      invariant kept == CleanLines(lines[..i])
    {
      var line := Strip(lines[i]);
      assert lines[..i + 1][..i] == lines[..i];
      if line != [] && !IsEcho(line) {
        kept := kept + [line];
      }
      i := i + 1;
    }
    assert lines[..|lines|] == lines;
    cleaned := Join(kept, "\n");
  }

  /** Each line is kept or dropped on its own: cleaning a concatenation is the
      concatenation of the cleanings, so kept lines keep their order. */
  lemma {:induction false} CleanLinesAppend(a: seq<string>, b: seq<string>)
    ensures CleanLines(a + b) == CleanLines(a) + CleanLines(b)
    decreases |b|
  {
    if b == [] {
      assert a + b == a;
    } else {
      var b' := b[..|b| - 1];
      assert (a + b)[..|a + b| - 1] == a + b';
      CleanLinesAppend(a, b');
    }
  }

  /** Lines that are already clean all survive, unchanged. */
  lemma {:induction false} CleanLinesOfClean(lines: seq<string>)
    requires forall i :: 0 <= i < |lines| ==> IsCleanLine(lines[i])
    ensures CleanLines(lines) == lines
  {
    if lines != [] {
      CleanLinesOfClean(lines[..|lines| - 1]);
      assert lines[..|lines| - 1] + [lines[|lines| - 1]] == lines;
    }
  }

  /** Cleaning a text that is already a newline-join of clean lines changes nothing. */
  lemma CleanOfCleanJoin(kept: seq<string>)
    requires forall i :: 0 <= i < |kept| ==> IsCleanLine(kept[i]) && '\n' !in kept[i]
    ensures Clean(Join(kept, "\n")) == Join(kept, "\n")
  {
    var text := Join(kept, "\n");
    if kept == [] {
      assert Strip(text) == [];
      assert SplitOn([], '\n') == [[]];
      assert CleanLines([[]]) == CleanLines([]) + [];
    } else {
      JoinTrimmed(kept, "\n");
      assert Strip(text) == text;
      SplitOnJoin(kept, '\n');
      CleanLinesOfClean(kept);
    }
  }

  /** Cleaning is idempotent. */
  lemma CleanIdempotent(response: string)
    ensures Clean(Clean(response)) == Clean(response)
  {
    var kept := CleanLines(SplitOn(Strip(response), '\n'));
    CleanOfCleanJoin(kept);
  }

  // -------------------------------------------------------------- parsing

  // Every key holds exactly one colon, at its end, so the text after the
  // first colon of a line that starts with a key is the text after the key.
  const ChangeTypeKey := "CHANGE_TYPE:"
  const ImportanceKey := "IMPORTANCE:"
  const NewsTitleKey := "NEWS_TITLE:"
  const NewsExcerptKey := "NEWS_EXCERPT:"
  const AnalysisKey := "ANALYSIS:"

  const DefaultChangeType := "content_update"
  const DefaultImportance := 5
  const DefaultAnalysis := "Content changes detected"
  const DefaultNewsTitle := "Website Update Detected"
  const DefaultNewsExcerpt := "Changes identified in competitor website"

  predicate IsKeyLine(line: string) {
    StartsWith(line, ChangeTypeKey) || StartsWith(line, ImportanceKey) || StartsWith(line, NewsTitleKey)
    || StartsWith(line, NewsExcerptKey) || StartsWith(line, AnalysisKey)
  }

  /** The stripped value of the LAST line that starts with `key`, or `None`
      when no line does. */
  function LastValue(lines: seq<string>, key: string): (v: Option<string>)
    ensures v.Some? ==> IsTrimmed(v.value)
  {
    if lines == [] then None
    else if StartsWith(lines[|lines| - 1], key) then Some(Strip(lines[|lines| - 1][|key|..]))
    else LastValue(lines[..|lines| - 1], key)
  }

  /** The importance an `IMPORTANCE:` value yields: its integer, or 5 when
      `int()` rejects it or there is no such line. Not clamped to 1..10. */
  function ImportanceOf(v: Option<string>): int {
    match v
    case None => DefaultImportance
    case Some(text) => ParseInt(text).GetOr(DefaultImportance)
  }

  /** The result `_parse_enhanced_response` builds from the lines of a reply:
      every field is the value of the last line carrying its key, or its default. */
  function ParseLines(lines: seq<string>, website: string): ChangeResult {
    ChangeResult(
      changeType := LastValue(lines, ChangeTypeKey).GetOr(DefaultChangeType),
      importance := ImportanceOf(LastValue(lines, ImportanceKey)),
      analysis := LastValue(lines, AnalysisKey).GetOr(DefaultAnalysis),
      newsTitle := LastValue(lines, NewsTitleKey).GetOr(DefaultNewsTitle),
      newsExcerpt := LastValue(lines, NewsExcerptKey).GetOr(DefaultNewsExcerpt),
      sourceLinks := website)
  }

  /** No line starts with two different keys. */
  lemma KeysExclusive(line: string)
    ensures !(StartsWith(line, ChangeTypeKey) && StartsWith(line, ImportanceKey))
    ensures !(StartsWith(line, ChangeTypeKey) && StartsWith(line, NewsTitleKey))
    ensures !(StartsWith(line, ChangeTypeKey) && StartsWith(line, NewsExcerptKey))
    ensures !(StartsWith(line, ChangeTypeKey) && StartsWith(line, AnalysisKey))
    ensures !(StartsWith(line, ImportanceKey) && StartsWith(line, NewsTitleKey))
    ensures !(StartsWith(line, ImportanceKey) && StartsWith(line, NewsExcerptKey))
    ensures !(StartsWith(line, ImportanceKey) && StartsWith(line, AnalysisKey))
    ensures !(StartsWith(line, NewsTitleKey) && StartsWith(line, NewsExcerptKey))
    ensures !(StartsWith(line, NewsTitleKey) && StartsWith(line, AnalysisKey))
    ensures !(StartsWith(line, NewsExcerptKey) && StartsWith(line, AnalysisKey))
  {
    if StartsWith(line, ChangeTypeKey) { assert line[0] == ChangeTypeKey[0] == 'C'; }
    if StartsWith(line, ImportanceKey) { assert line[0] == ImportanceKey[0] == 'I'; }
    if StartsWith(line, AnalysisKey) { assert line[0] == AnalysisKey[0] == 'A'; }
    if StartsWith(line, NewsTitleKey) { assert line[0] == 'N' && line[5] == NewsTitleKey[5] == 'T'; }
    if StartsWith(line, NewsExcerptKey) { assert line[0] == 'N' && line[5] == NewsExcerptKey[5] == 'E'; }
  }

  /** One more line of the reply: a line that starts with a key sets that
      field alone (a later line overwrites an earlier one, a malformed
      importance gives 5), and any other line leaves the result unchanged. */
  lemma ParseLinesAppend(lines: seq<string>, line: string, website: string)
    ensures ParseLines(lines + [line], website) ==
      var r := ParseLines(lines, website);
      if StartsWith(line, ChangeTypeKey) then r.(changeType := Strip(line[|ChangeTypeKey|..]))
      else if StartsWith(line, ImportanceKey) then
        r.(importance := ParseInt(Strip(line[|ImportanceKey|..])).GetOr(DefaultImportance))
      else if StartsWith(line, NewsTitleKey) then r.(newsTitle := Strip(line[|NewsTitleKey|..]))
      else if StartsWith(line, NewsExcerptKey) then r.(newsExcerpt := Strip(line[|NewsExcerptKey|..]))
      else if StartsWith(line, AnalysisKey) then r.(analysis := Strip(line[|AnalysisKey|..]))
      else r
  {
    var ls := lines + [line];
    assert ls[..|ls| - 1] == lines;
    KeysExclusive(line);
  }

  /** `_parse_enhanced_response`: starts from the defaults and lets every line
      that starts with a key overwrite that key's field. */
  method ParseEnhancedResponse(response: string, website: string) returns (r: ChangeResult)
    ensures r == ParseLines(SplitOn(response, '\n'), website)
  {
    var lines := SplitOn(response, '\n');
    r := ChangeResult(DefaultChangeType, DefaultImportance, DefaultAnalysis,
                      DefaultNewsTitle, DefaultNewsExcerpt, website);
    var i := 0;
    while i < |lines|
      invariant 0 <= i <= |lines|
      invariant r == ParseLines(lines[..i], website)
    {
      var line := lines[i];
      assert lines[..i + 1] == lines[..i] + [line];
      ParseLinesAppend(lines[..i], line, website);
      if StartsWith(line, ChangeTypeKey) {
        r := r.(changeType := Strip(line[|ChangeTypeKey|..]));
      } else if StartsWith(line, ImportanceKey) {
        match ParseInt(Strip(line[|ImportanceKey|..]))
        case Some(n) => r := r.(importance := n);
        case None => r := r.(importance := DefaultImportance);
      } else if StartsWith(line, NewsTitleKey) {
        r := r.(newsTitle := Strip(line[|NewsTitleKey|..]));
      } else if StartsWith(line, NewsExcerptKey) {
        r := r.(newsExcerpt := Strip(line[|NewsExcerptKey|..]));
      } else if StartsWith(line, AnalysisKey) {
        r := r.(analysis := Strip(line[|AnalysisKey|..]));
      }
      i := i + 1;
    }
    assert lines[..|lines|] == lines;
  }

  /** A field is left at its default exactly when no line carries its key. */
  lemma {:induction false} LastValueAbsent(lines: seq<string>, key: string)
    ensures LastValue(lines, key) == None <==> forall i :: 0 <= i < |lines| ==> !StartsWith(lines[i], key)
  {
    if lines != [] {
      var init := lines[..|lines| - 1];
      LastValueAbsent(init, key);
      assert forall i :: 0 <= i < |init| ==> init[i] == lines[i];
    }
  }

  /** Every field that no line of the reply mentions keeps its default. */
  lemma ParseDefaults(lines: seq<string>, website: string)
    ensures var r := ParseLines(lines, website);
      && r.sourceLinks == website
      && ((forall i :: 0 <= i < |lines| ==> !StartsWith(lines[i], ChangeTypeKey)) ==> r.changeType == DefaultChangeType)
      && ((forall i :: 0 <= i < |lines| ==> !StartsWith(lines[i], ImportanceKey)) ==> r.importance == DefaultImportance)
      && ((forall i :: 0 <= i < |lines| ==> !StartsWith(lines[i], NewsTitleKey)) ==> r.newsTitle == DefaultNewsTitle)
      && ((forall i :: 0 <= i < |lines| ==> !StartsWith(lines[i], NewsExcerptKey)) ==> r.newsExcerpt == DefaultNewsExcerpt)
      && ((forall i :: 0 <= i < |lines| ==> !StartsWith(lines[i], AnalysisKey)) ==> r.analysis == DefaultAnalysis)
  {
    LastValueAbsent(lines, ChangeTypeKey);
    LastValueAbsent(lines, ImportanceKey);
    LastValueAbsent(lines, NewsTitleKey);
    LastValueAbsent(lines, NewsExcerptKey);
    LastValueAbsent(lines, AnalysisKey);
  }

  // ------------------------------------------------ the protocol, both ways

  /** A value the model can send on one protocol line and get back unchanged. */
  predicate IsProtocolValue(v: string) {
    v != [] && IsTrimmed(v) && '\n' !in v
  }

  /** The five `KEY: value` lines the analysis prompt asks the model for. */
  function ProtocolLines(r: ChangeResult): seq<string> {
    [ ChangeTypeKey + " " + r.changeType,
      ImportanceKey + " " + IntToString(r.importance),
      NewsTitleKey + " " + r.newsTitle,
      NewsExcerptKey + " " + r.newsExcerpt,
      AnalysisKey + " " + r.analysis ]
  }

  /** A key starts with a visible character other than the prompt markers
      and holds no newline. */
  predicate IsProtocolKey(key: string) {
    key != [] && !IsSpace(key[0]) && key[0] != '>' && key[0] != '.' && '\n' !in key
  }

  lemma ProtocolKeysShape()
    ensures IsProtocolKey(ChangeTypeKey) && IsProtocolKey(ImportanceKey) && IsProtocolKey(NewsTitleKey)
    ensures IsProtocolKey(NewsExcerptKey) && IsProtocolKey(AnalysisKey)
  {
  }

  lemma ProtocolLineIsClean(key: string, v: string)
    requires IsProtocolKey(key)
    requires IsProtocolValue(v)
    ensures IsCleanLine(key + " " + v) && '\n' !in key + " " + v
    ensures (key + " " + v)[|key|..] == " " + v
  {
    var line := key + " " + v;
    assert line[0] == key[0];
    assert line[|line| - 1] == v[|v| - 1];
    assert !StartsWith(line, ">>>") by { if |line| >= 3 { assert line[..3][0] == line[0]; } }
    assert !StartsWith(line, "...") by { if |line| >= 3 { assert line[..3][0] == line[0]; } }
  }

  /** The line at `p` is the last one carrying `key`, so it decides that field. */
  lemma {:induction false} LastValueAt(lines: seq<string>, p: nat, key: string)
    requires p < |lines| && StartsWith(lines[p], key)
    requires forall j :: p < j < |lines| ==> !StartsWith(lines[j], key)
    ensures LastValue(lines, key) == Some(Strip(lines[p][|key|..]))
  {
    if p < |lines| - 1 {
      var init := lines[..|lines| - 1];
      LastValueAt(init, p, key);
    }
  }

  lemma StartsWithKey(key: string, v: string)
    ensures StartsWith(key + " " + v, key)
  {
    assert (key + " " + v)[..|key|] == key;
  }

  /** A protocol line for `key` that no later line overrides gives back its value. */
  lemma ProtocolField(lines: seq<string>, p: nat, key: string, v: string)
    requires p < |lines| && lines[p] == key + " " + v && IsProtocolValue(v)
    requires forall j :: p < j < |lines| ==> !StartsWith(lines[j], key)
    ensures LastValue(lines, key) == Some(v)
  {
    StartsWithKey(key, v);
    LastValueAt(lines, p, key);
    assert lines[p][|key|..] == " " + v;
    StripAfterSpace(v);
  }

  /** Parsing the five protocol lines gives back the result they were written from. */
  lemma ParseOfProtocolLines(r: ChangeResult, website: string)
    requires IsProtocolValue(r.changeType) && IsProtocolValue(r.newsTitle)
    requires IsProtocolValue(r.newsExcerpt) && IsProtocolValue(r.analysis)
    requires r.sourceLinks == website
    ensures ParseLines(ProtocolLines(r), website) == r
  {
    var lines := ProtocolLines(r);
    var num := IntToString(r.importance);
    ProtocolNumberIsValue(r.importance);
    forall j | 0 <= j < 5
      ensures j != 0 ==> !StartsWith(lines[j], ChangeTypeKey)
      ensures j != 1 ==> !StartsWith(lines[j], ImportanceKey)
      ensures j != 2 ==> !StartsWith(lines[j], NewsTitleKey)
      ensures j != 3 ==> !StartsWith(lines[j], NewsExcerptKey)
      ensures j != 4 ==> !StartsWith(lines[j], AnalysisKey)
    {
      StartsWithKey(ChangeTypeKey, r.changeType);
      StartsWithKey(ImportanceKey, num);
      StartsWithKey(NewsTitleKey, r.newsTitle);
      StartsWithKey(NewsExcerptKey, r.newsExcerpt);
      StartsWithKey(AnalysisKey, r.analysis);
      KeysExclusive(lines[j]);
    }
    ProtocolField(lines, 0, ChangeTypeKey, r.changeType);
    ProtocolField(lines, 1, ImportanceKey, num);
    ProtocolField(lines, 2, NewsTitleKey, r.newsTitle);
    ProtocolField(lines, 3, NewsExcerptKey, r.newsExcerpt);
    ProtocolField(lines, 4, AnalysisKey, r.analysis);
    ParseIntOfIntToString(r.importance);
  }

  lemma ProtocolNumberIsValue(i: int)
    ensures IsProtocolValue(IntToString(i))
  {
    var num := IntToString(i);
    assert num[0] == '-' || IsDigit(num[0]);
    assert forall k :: 0 < k < |num| ==> IsDigit(num[k]);
  }

  /** Each of the five protocol lines is clean and holds no newline. */
  lemma ProtocolLinesAreClean(r: ChangeResult)
    requires IsProtocolValue(r.changeType) && IsProtocolValue(r.newsTitle)
    requires IsProtocolValue(r.newsExcerpt) && IsProtocolValue(r.analysis)
    ensures forall i :: 0 <= i < |ProtocolLines(r)| ==> IsCleanLine(ProtocolLines(r)[i]) && '\n' !in ProtocolLines(r)[i]
  {
    ProtocolNumberIsValue(r.importance);
    ProtocolKeysShape();
    ProtocolLineIsClean(ChangeTypeKey, r.changeType);
    ProtocolLineIsClean(ImportanceKey, IntToString(r.importance));
    ProtocolLineIsClean(NewsTitleKey, r.newsTitle);
    ProtocolLineIsClean(NewsExcerptKey, r.newsExcerpt);
    ProtocolLineIsClean(AnalysisKey, r.analysis);
  }

  /** The protocol text is already clean, and splits back into its lines. */
  lemma ProtocolTextIsClean(r: ChangeResult)
    requires IsProtocolValue(r.changeType) && IsProtocolValue(r.newsTitle)
    requires IsProtocolValue(r.newsExcerpt) && IsProtocolValue(r.analysis)
    ensures Clean(Join(ProtocolLines(r), "\n")) == Join(ProtocolLines(r), "\n")
    ensures SplitOn(Join(ProtocolLines(r), "\n"), '\n') == ProtocolLines(r)
  {
    var lines := ProtocolLines(r);
    ProtocolLinesAreClean(r);
    CleanOfCleanJoin(lines);
    SplitOnJoin(lines, '\n');
  }

  /** A reply written exactly in the requested protocol is read back as the
      result it was written from, after cleaning, splitting and parsing. */
  lemma ParseOfProtocolReply(r: ChangeResult, website: string)
    requires IsProtocolValue(r.changeType) && IsProtocolValue(r.newsTitle)
    requires IsProtocolValue(r.newsExcerpt) && IsProtocolValue(r.analysis)
    requires r.sourceLinks == website
    ensures ParseLines(SplitOn(Clean(Join(ProtocolLines(r), "\n")), '\n'), website) == r
  {
    ProtocolTextIsClean(r);
    ParseOfProtocolLines(r, website);
  }
}
