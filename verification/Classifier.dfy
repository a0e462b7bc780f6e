/** `OllamaAI.analyze_content_changes`: the first-scan short cut, the
    model-assisted path and the lexical fallback `_fallback_news_analysis`. */
module Classifier {
  import opened Wrappers
  import opened Text
  import opened Records
  import opened Response

  /** Words of interest for business news; a single one among the added words
      makes a change a major announcement. */
  const BusinessKeywords: set<string> := {
    "launch", "release", "announce", "partnership", "acquisition", "merger",
    "funding", "investment", "expansion", "new", "update", "feature",
    "product", "service", "pricing", "price", "customer", "market" }

  /** The model sees at most this many characters of each text. */
  const PromptHead := 800

  /** `set(text.lower().split())`. */
  function Words(text: string): (ws: set<string>)
    ensures forall w :: w in ws ==> w != [] && NoSpace(w)
  {
    set w | w in Tokens(Lower(text))
  }

  function Added(previous: string, current: string): set<string> {
    Words(current) - Words(previous)
  }

  function Removed(previous: string, current: string): set<string> {
    Words(previous) - Words(current)
  }

  /** The business keywords among the added words. */
  function RelevantAdditions(previous: string, current: string): set<string> {
    Added(previous, current) * BusinessKeywords
  }

  /** The category the fallback pairs with each of its four importance scores. */
  function FallbackCategory(importance: int): string {
    if importance == 8 then "major_announcement"
    else if importance == 7 then "major_update"
    else if importance == 5 then "content_update"
    else "minor_update"
  }

  // The templated texts of each record; the competitor's name goes where the
  // text is split.
  const FirstScanAnalysisLead := "Started monitoring "
  const FirstScanAnalysisTail := " - baseline established for future news detection"
  const FirstScanTitle := " Added to Monitoring"
  const FirstScanExcerptLead := "Now tracking "
  const FirstScanExcerptTail := " for product updates, announcements, and market moves"
  const MajorAnalysis := " made significant website updates, potentially indicating new business developments or product announcements"
  const MajorTitle := " Major Business Update Detected"
  const MajorExcerptLead := "Significant changes detected on "
  const MajorExcerptTail := "'s website suggesting new announcements or product developments"
  const ContentAnalysis := " updated their website content, possibly with new information about products or services"
  const ContentTitle := " Website Content Updated"
  const ContentExcerptLead := "Moderate content changes detected on "
  const ContentExcerptTail := "'s website with potential business relevance"
  const MinorAnalysis := " made minor website adjustments, likely routine maintenance or small content updates"
  const MinorTitle := " Minor Website Updates"
  const MinorExcerptLead := "Small routine updates detected on "
  const MinorExcerptTail := "'s website"

  /** The baseline record for a competitor seen for the first time. */
  function FirstScan(name: string, website: string): (r: ChangeResult)
    ensures r.changeType == "first_scan" && r.importance == 3 && r.sourceLinks == website
  {
    ChangeResult(
      changeType := "first_scan",
      importance := 3,
      analysis := FirstScanAnalysisLead + name + FirstScanAnalysisTail,
      newsTitle := name + FirstScanTitle,
      newsExcerpt := FirstScanExcerptLead + name + FirstScanExcerptTail,
      sourceLinks := website)
  }

  /** The record of the major tier: a major announcement (8) or a major update (7). */
  function MajorChange(keywordHit: bool, name: string, website: string): (r: ChangeResult)
    ensures r.importance == (if keywordHit then 8 else 7)
    ensures r.changeType == FallbackCategory(r.importance) && r.sourceLinks == website
  {
    ChangeResult(
      changeType := if keywordHit then "major_announcement" else "major_update",
      importance := if keywordHit then 8 else 7,
      analysis := name + MajorAnalysis,
      newsTitle := name + MajorTitle,
      newsExcerpt := MajorExcerptLead + name + MajorExcerptTail,
      sourceLinks := website)
  }

  /** The record of the middle tier. */
  function ContentChange(name: string, website: string): (r: ChangeResult)
    ensures r.importance == 5 && r.changeType == FallbackCategory(5) && r.sourceLinks == website
  {
    ChangeResult(
      changeType := "content_update",
      importance := 5,
      analysis := name + ContentAnalysis,
      newsTitle := name + ContentTitle,
      newsExcerpt := ContentExcerptLead + name + ContentExcerptTail,
      sourceLinks := website)
  }

  /** The record of the lowest tier. */
  function MinorChange(name: string, website: string): (r: ChangeResult)
    ensures r.importance == 3 && r.changeType == FallbackCategory(3) && r.sourceLinks == website
  {
    ChangeResult(
      changeType := "minor_update",
      importance := 3,
      analysis := name + MinorAnalysis,
      newsTitle := name + MinorTitle,
      newsExcerpt := MinorExcerptLead + name + MinorExcerptTail,
      sourceLinks := website)
  }

  /** `_fallback_news_analysis`. The score is one of 3, 5, 7, 8 and fixes the
      category; it is 8 exactly when a business keyword was added, at least 7
      exactly when that happens or more than 50 words were added or removed,
      and at least 5 exactly when one of these holds or more than 10 words
      were added or removed. All comparisons are strict. */
  function FallbackNewsAnalysis(previous: string, current: string, name: string, website: string): (r: ChangeResult)
    ensures r.importance in {3, 5, 7, 8}
    ensures r.changeType == FallbackCategory(r.importance)
    ensures r.importance == 8 <==> RelevantAdditions(previous, current) != {}
    ensures r.importance >= 7 <==>
      |Added(previous, current)| > 50 || |Removed(previous, current)| > 50 || RelevantAdditions(previous, current) != {}
    ensures r.importance >= 5 <==>
      |Added(previous, current)| > 10 || |Removed(previous, current)| > 10 || RelevantAdditions(previous, current) != {}
    ensures r.sourceLinks == website
  {
    var added := Added(previous, current);
    var removed := Removed(previous, current);
    var relevant := RelevantAdditions(previous, current);
    if |added| > 50 || |removed| > 50 || relevant != {} then MajorChange(relevant != {}, name, website)
    else if |added| > 10 || |removed| > 10 then ContentChange(name, website)
    else MinorChange(name, website)
  }

  /** The fallback reads words without regard to case. */
  lemma FallbackIgnoresCase(previous: string, current: string, name: string, website: string)
    ensures FallbackNewsAnalysis(Lower(previous), Lower(current), name, website)
         == FallbackNewsAnalysis(previous, current, name, website)
  {
    LowerIdempotent(previous);
    LowerIdempotent(current);
  }

  /** The prompt for a change: the competitor, its site and the first 800
      characters of each text. */
  function ChangePromptFor(previous: string, current: string, name: string, website: string): (p: Prompt)
    ensures p.ChangePrompt? && p.competitor == name && p.website == website
    ensures StartsWith(previous, p.previousHead)
    ensures |p.previousHead| == if |previous| < PromptHead then |previous| else PromptHead
    ensures StartsWith(current, p.currentHead)
    ensures |p.currentHead| == if |current| < PromptHead then |current| else PromptHead
  {
    ChangePrompt(name, website, Take(previous, PromptHead), Take(current, PromptHead))
  }

  /** What `analyze_content_changes` returns: a first scan when either text is
      empty; otherwise the parsed, cleaned model reply, or the fallback when
      the model call fails. */
  function Analysis(previous: string, current: string, name: string, website: string, model: Model): ChangeResult {
    if previous == [] || current == [] then FirstScan(name, website)
    else
      match model(ChangePromptFor(previous, current, name, website))
      case Some(reply) => ParseLines(SplitOn(Clean(reply), '\n'), website)
      case None => FallbackNewsAnalysis(previous, current, name, website)
  }

  /** `analyze_content_changes`, calling the cleaning and parsing methods on
      the model's reply. */
  method AnalyzeContentChanges(previous: string, current: string, name: string, website: string, model: Model)
    returns (r: ChangeResult)
    ensures r == Analysis(previous, current, name, website, model)
  {
    if previous == [] || current == [] {
      return FirstScan(name, website);
    }
    match model(ChangePromptFor(previous, current, name, website))
    case Some(stdout) =>
      var cleaned := CleanOllamaResponse(stdout);
      r := ParseEnhancedResponse(cleaned, website);
    case None =>
      r := FallbackNewsAnalysis(previous, current, name, website);
  }

  /** Every path names the website as the source, and an empty text on either
      side gives a first scan with score 3 whatever the model would say. */
  lemma AnalysisShape(previous: string, current: string, name: string, website: string, model: Model)
    ensures Analysis(previous, current, name, website, model).sourceLinks == website
    ensures previous == [] || current == [] ==>
      Analysis(previous, current, name, website, model) == FirstScan(name, website)
  {
  }

  /** When the model fails, the result is the fallback's, so the score is one
      of 3, 5, 7, 8: classification never fails. */
  lemma AnalysisWithoutModel(previous: string, current: string, name: string, website: string, model: Model)
    requires previous != [] && current != []
    requires model(ChangePromptFor(previous, current, name, website)) == None
    ensures Analysis(previous, current, name, website, model).importance in {3, 5, 7, 8}
  {
  }

  /** A model reply written in the requested protocol is taken as it is
      written: score included, with no clamping to 1..10. */
  lemma AnalysisTakesProtocolReply(previous: string, current: string, name: string, website: string,
                                   model: Model, r: ChangeResult)
    requires previous != [] && current != []
    requires IsProtocolValue(r.changeType) && IsProtocolValue(r.newsTitle)
    requires IsProtocolValue(r.newsExcerpt) && IsProtocolValue(r.analysis)
    requires r.sourceLinks == website
    requires model(ChangePromptFor(previous, current, name, website)) == Some(Join(ProtocolLines(r), "\n"))
    ensures Analysis(previous, current, name, website, model) == r
  {
    ParseOfProtocolReply(r, website);
  }
}
