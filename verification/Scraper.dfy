/** The text side of `CompetitorTracker.scrape_website`: the lines of a page's
    visible text are stripped, cut at every double space, stripped again and
    joined by single spaces; the stored content is capped, the hash is not. */
module Scraper {
  import opened Text

  /** The stored content keeps at most this many characters. */
  const ContentCap := 5000
  /** The changelog extract keeps at most this many characters. */
  const ChangelogCap := 2000

  const DoubleSpace := "  "

  /** No two consecutive spaces. */
  predicate NoDoubleSpace(s: string) {
    forall i :: 0 <= i < |s| - 1 ==> !(s[i] == ' ' && s[i + 1] == ' ')
  }

  /** Python's `s.split("  ")`: cut at each double space, scanning from the
      left, so that no piece holds a double space. */
  function SplitDoubleSpace(s: string): (r: seq<string>)
    ensures |r| >= 1
    ensures forall i :: 0 <= i < |r| ==> NoDoubleSpace(r[i])
    ensures s != [] && !(|s| >= 2 && s[0] == ' ' && s[1] == ' ') ==> r[0] != [] && r[0][0] == s[0]
  {
    if |s| < 2 then [s]
    else if s[0] == ' ' && s[1] == ' ' then [[]] + SplitDoubleSpace(s[2..])
    else
      var rest := SplitDoubleSpace(s[1..]);
      var head := [s[0]] + rest[0];
      assert NoDoubleSpace(head) by {
        forall i | 0 <= i < |head| - 1
          ensures !(head[i] == ' ' && head[i + 1] == ' ')
        {
          if i > 0 {
            assert head[i] == rest[0][i - 1] && head[i + 1] == rest[0][i];
          }
        }
      }
      [head] + rest[1..]
  }

  /** Joining the pieces with the double space gives the text back. */
  lemma {:induction false} JoinSplitDoubleSpace(s: string)
    ensures Join(SplitDoubleSpace(s), DoubleSpace) == s
  {
    if |s| < 2 {
    } else if s[0] == ' ' && s[1] == ' ' {
      JoinSplitDoubleSpace(s[2..]);
      var rest := SplitDoubleSpace(s[2..]);
      assert ([[]] + rest)[1..] == rest;
      assert DoubleSpace + s[2..] == s;
    } else {
      JoinSplitDoubleSpace(s[1..]);
      JoinConsHead([s[0]], SplitDoubleSpace(s[1..]), DoubleSpace);
      assert [s[0]] + s[1..] == s;
    }
  }

  /** A text without a double space is a single piece. */
  lemma {:induction false} SplitDoubleSpaceFree(s: string)
    requires NoDoubleSpace(s)
    ensures SplitDoubleSpace(s) == [s]
  {
    if |s| >= 2 {
      SplitDoubleSpaceFree(s[1..]);
      assert [s[0]] + s[1..] == s;
    }
  }

  /** The stripped pieces that are not empty, in order. */
  function KeptPhrases(pieces: seq<string>): (kept: seq<string>)
    requires forall i :: 0 <= i < |pieces| ==> NoDoubleSpace(pieces[i])
    ensures forall i :: 0 <= i < |kept| ==> kept[i] != [] && IsTrimmed(kept[i]) && NoDoubleSpace(kept[i])
  {
    if pieces == [] then []
    else
      var phrase := Strip(pieces[0]);
      StripKeepsNoDoubleSpace(pieces[0]);
      (if phrase != [] then [phrase] else []) + KeptPhrases(pieces[1..])
  }

  /** The chunks of one line: `phrase.strip() for phrase in line.strip().split("  ")`,
      without the empty ones. */
  function LineChunks(line: string): seq<string> {
    KeptPhrases(SplitDoubleSpace(Strip(line)))
  }

  /** The chunks of all lines, in order. */
  function Chunks(lines: seq<string>): (chunks: seq<string>)
    ensures forall i :: 0 <= i < |chunks| ==> chunks[i] != [] && IsTrimmed(chunks[i]) && NoDoubleSpace(chunks[i])
  {
    if lines == [] then [] else LineChunks(lines[0]) + Chunks(lines[1..])
  }

  /** `clean_text`: the chunks joined by single spaces. */
  function Normalize(lines: seq<string>): string {
    Join(Chunks(lines), " ")
  }

  /** Stripping cuts a string to a slice, and a slice of a string without a
      double space has none. */
  lemma StripKeepsNoDoubleSpace(s: string)
    requires NoDoubleSpace(s)
    ensures NoDoubleSpace(Strip(s))
  {
    var i := LeadingSpace(s);
    var j := TrailingStart(s);
    if i < j {
      var r := s[i..j];
      forall k | 0 <= k < |r| - 1
        ensures !(r[k] == ' ' && r[k + 1] == ' ')
      {
        assert r[k] == s[i + k] && r[k + 1] == s[i + k + 1];
      }
    }
  }

  /** A single-space join of non-empty, trimmed parts without double spaces
      has no double space either. */
  lemma {:induction false} JoinNoDoubleSpace(parts: seq<string>)
    requires forall i :: 0 <= i < |parts| ==> parts[i] != [] && IsTrimmed(parts[i]) && NoDoubleSpace(parts[i])
    ensures NoDoubleSpace(Join(parts, " "))
  {
    if |parts| > 1 {
      var rest := Join(parts[1..], " ");
      JoinNoDoubleSpace(parts[1..]);
      JoinTrimmed(parts[1..], " ");
      var head := parts[0];
      var s := head + " " + rest;
      forall k | 0 <= k < |s| - 1
        ensures !(s[k] == ' ' && s[k + 1] == ' ')
      {
        if k < |head| - 1 {
          assert s[k] == head[k] && s[k + 1] == head[k + 1];
        } else if k == |head| - 1 {
          assert s[k] == head[|head| - 1];
        } else if k == |head| {
          assert s[k + 1] == rest[0];
        } else {
          assert s[k] == rest[k - |head| - 1] && s[k + 1] == rest[k - |head|];
        }
      }
    }
  }

  /** The clean text has no leading or trailing whitespace and no double space. */
  lemma NormalizeShape(lines: seq<string>)
    ensures IsTrimmed(Normalize(lines))
    ensures NoDoubleSpace(Normalize(lines))
  {
    JoinTrimmed(Chunks(lines), " ");
    JoinNoDoubleSpace(Chunks(lines));
  }

  /** Normalising the clean text again, as a page of one line, changes nothing. */
  lemma NormalizeIdempotent(lines: seq<string>)
    ensures Normalize([Normalize(lines)]) == Normalize(lines)
  {
    var t := Normalize(lines);
    NormalizeShape(lines);
    SplitDoubleSpaceFree(t);
    assert [t][1..] == [];
    assert Chunks([t]) == LineChunks(t);
    assert LineChunks(t) == KeptPhrases([t]);
  }

  /** Dropping the phrases that strip to nothing and stripping the others
      loses no word. */
  lemma {:induction false} KeptPhrasesTokens(pieces: seq<string>)
    requires forall i :: 0 <= i < |pieces| ==> NoDoubleSpace(pieces[i])
    ensures TokensOfAll(KeptPhrases(pieces)) == TokensOfAll(pieces)
  {
    if pieces != [] {
      var phrase := Strip(pieces[0]);
      TokensOfStrip(pieces[0]);
      KeptPhrasesTokens(pieces[1..]);
      StripKeepsNoDoubleSpace(pieces[0]);
      var head := if phrase != [] then [phrase] else [];
      TokensOfAllAppend(head, KeptPhrases(pieces[1..]));
      if phrase != [] {
        assert TokensOfAll(head) == Tokens(phrase) + TokensOfAll([]);
      }
    }
  }

  /** The chunks of a line carry exactly the line's words. */
  lemma LineChunksTokens(line: string)
    ensures TokensOfAll(LineChunks(line)) == Tokens(line)
  {
    var t := Strip(line);
    var pieces := SplitDoubleSpace(t);
    KeptPhrasesTokens(pieces);
    TokensOfBlankJoin(pieces, DoubleSpace);
    JoinSplitDoubleSpace(t);
    TokensOfStrip(line);
  }

  lemma {:induction false} ChunksTokens(lines: seq<string>)
    ensures TokensOfAll(Chunks(lines)) == TokensOfAll(lines)
  {
    if lines != [] {
      ChunksTokens(lines[1..]);
      LineChunksTokens(lines[0]);
      TokensOfAllAppend(LineChunks(lines[0]), Chunks(lines[1..]));
    }
  }

  /** The normaliser changes only whitespace: the words of the clean text are
      the words of the page's lines, in order. */
  lemma NormalizeKeepsWords(lines: seq<string>)
    ensures Tokens(Normalize(lines)) == TokensOfAll(lines)
  {
    TokensOfBlankJoin(Chunks(lines), " ");
    ChunksTokens(lines);
  }

  /** What the scraper keeps of a page. */
  datatype Page = Page(content: string, contentHash: string, changelogContent: string)

  /** The page record of a successful fetch: the first 5000 characters of the
      clean text, the hash of the whole clean text and the first 2000
      characters of the changelog extract. */
  function PageOf(lines: seq<string>, changelog: string, hash: string -> string): (p: Page)
    ensures StartsWith(Normalize(lines), p.content)
    ensures |p.content| == if |Normalize(lines)| < ContentCap then |Normalize(lines)| else ContentCap
    ensures StartsWith(changelog, p.changelogContent)
    ensures |p.changelogContent| == if |changelog| < ChangelogCap then |changelog| else ChangelogCap
    ensures p.contentHash == hash(Normalize(lines))
  {
    var clean := Normalize(lines);
    Page(Take(clean, ContentCap), hash(clean), Take(changelog, ChangelogCap))
  }
}
