/** `OllamaAI.generate_weekly_summary` and its fallback `_fallback_news_summary`:
    the selection of the most recent changes as news items, the priority items,
    the per-competitor activity counter and the newsletter text built when the
    model is unavailable. */
module Digest {
  import opened Wrappers
  import opened Text
  import opened Records
  import opened Response
  import opened Ranking

  /** At most this many changes go into a digest. */
  const RecentLimit := 15
  /** The least importance of a priority item. */
  const PriorityThreshold := 7
  /** At most this many priority items are listed as top stories. */
  const TopStories := 3
  /** Excerpts of top stories are cut to this many characters. */
  const ExcerptHead := 80

  const NoNewsText := "No significant competitor news or updates detected this week."

  // ------------------------------------------------------------- news items

  /** Python's `str.title()` on ASCII letters: a letter is upper-cased when it
      starts a run of letters and lower-cased otherwise. */
  function TitleCase(s: string): (r: string)
    ensures |r| == |s|
  {
    seq(|s|, i requires 0 <= i < |s| =>
      if i == 0 || !IsAsciiLetter(s[i - 1]) then UpperChar(s[i]) else LowerChar(s[i]))
  }

  /** `s.replace('_', ' ')`. */
  function Unscore(s: string): (r: string)
    ensures |r| == |s|
  {
    seq(|s|, i requires 0 <= i < |s| => if s[i] == '_' then ' ' else s[i])
  }

  /** `change_type.replace('_', ' ').title()`: the label of a change type. */
  function TypeLabel(changeType: string): (shown: string)
    ensures |shown| == |changeType|
    ensures '_' !in shown
  {
    TitleCase(Unscore(changeType))
  }

  /** In the label each underscore of the change type becomes a space, a letter
      that starts a word (it follows no letter) becomes a capital of the same
      letter, a letter inside a word becomes lower case, and anything else is
      kept. */
  lemma TypeLabelChars(changeType: string)
    ensures forall i :: 0 <= i < |changeType| && changeType[i] == '_' ==> TypeLabel(changeType)[i] == ' '
    ensures forall i :: 0 <= i < |changeType| && IsAsciiLetter(changeType[i]) ==>
      (if i == 0 || !IsAsciiLetter(changeType[i - 1])
       then 'A' <= TypeLabel(changeType)[i] <= 'Z' && LowerChar(TypeLabel(changeType)[i]) == LowerChar(changeType[i])
       else TypeLabel(changeType)[i] == LowerChar(changeType[i]))
    ensures forall i :: 0 <= i < |changeType| && !IsAsciiLetter(changeType[i]) && changeType[i] != '_' ==>
      TypeLabel(changeType)[i] == changeType[i]
  {
    var spaced := Unscore(changeType);
    var shown := TypeLabel(changeType);
    forall i | 0 <= i < |changeType|
      ensures changeType[i] == '_' ==> shown[i] == ' '
      ensures IsAsciiLetter(changeType[i]) ==>
        (if i == 0 || !IsAsciiLetter(changeType[i - 1])
         then 'A' <= shown[i] <= 'Z' && LowerChar(shown[i]) == LowerChar(changeType[i])
         else shown[i] == LowerChar(changeType[i]))
      ensures !IsAsciiLetter(changeType[i]) && changeType[i] != '_' ==> shown[i] == changeType[i]
    {
      var start := i == 0 || !IsAsciiLetter(spaced[i - 1]);
      assert shown[i] == if start then UpperChar(spaced[i]) else LowerChar(spaced[i]);
      if i > 0 {
        assert spaced[i - 1] == if changeType[i - 1] == '_' then ' ' else changeType[i - 1];
      }
      assert spaced[i] == if changeType[i] == '_' then ' ' else changeType[i];
      if IsAsciiLetter(changeType[i]) {
        UpperOfLetter(changeType[i]);
      }
    }
  }

  /** The news item of a stored change: its competitor, title, excerpt and
      score, the label of its type, and the first ten characters of its
      detection time as the date. */
  function NewsItemOf(c: ChangeRecord): (item: NewsItem)
    ensures item.competitor == c.competitorName && item.importance == c.importance
    ensures item.title == c.newsTitle && item.excerpt == c.newsExcerpt
    ensures item.changeType == TypeLabel(c.changeType)
    ensures |item.date| == if |c.detectedAt| < 10 then |c.detectedAt| else 10
    ensures StartsWith(c.detectedAt, item.date)
  {
    NewsItem(c.competitorName, c.newsTitle, c.newsExcerpt, c.importance,
             TypeLabel(c.changeType), Take(c.detectedAt, 10))
  }

  function ItemsOf(changes: seq<ChangeRecord>): seq<NewsItem> {
    seq(|changes|, i requires 0 <= i < |changes| => NewsItemOf(changes[i]))
  }

  /** The news items of the digest: those of the first fifteen changes. */
  function NewsItems(changes: seq<ChangeRecord>): seq<NewsItem> {
    ItemsOf(Take(changes, RecentLimit))
  }

  /** The items of importance at least 7, in order. */
  function Priority(items: seq<NewsItem>): seq<NewsItem> {
    if items == [] then []
    else
      var last := items[|items| - 1];
      Priority(items[..|items| - 1]) + (if last.importance >= PriorityThreshold then [last] else [])
  }

  function Names(items: seq<NewsItem>): seq<string> {
    seq(|items|, i requires 0 <= i < |items| => items[i].competitor)
  }

  /** The competitors that have at least one item. */
  function Competitors(items: seq<NewsItem>): set<string> {
    set n | n in Names(items)
  }

  /** The selection loop of `generate_weekly_summary`: one news item per
      recent change, the priority items among them and the set of
      competitors with updates. */
  method SelectNews(changes: seq<ChangeRecord>) returns (items: seq<NewsItem>, priority: seq<NewsItem>, competitors: set<string>)
    ensures items == NewsItems(changes)
    ensures priority == Priority(items)
    ensures competitors == Competitors(items)
  {
    var recent := Take(changes, RecentLimit);
    items, priority, competitors := [], [], {};
    for i := 0 to |recent|
      invariant items == ItemsOf(recent[..i])
      invariant priority == Priority(items)
      invariant competitors == Competitors(items)
    {
      var change := recent[i];
      competitors := competitors + {change.competitorName};
      var item := NewsItemOf(change);
      ItemsOfAppend(recent[..i], change);
      assert recent[..i + 1] == recent[..i] + [change];
      NamesAppend(items, item);
      var previous := items;
      items := items + [item];
      assert items[..|items| - 1] == previous;
      if change.importance >= PriorityThreshold {
        priority := priority + [item];
      }
    }
    assert recent[..|recent|] == recent;
  }

  lemma ItemsOfAppend(changes: seq<ChangeRecord>, c: ChangeRecord)
    ensures ItemsOf(changes + [c]) == ItemsOf(changes) + [NewsItemOf(c)]
  {
  }

  lemma NamesAppend(items: seq<NewsItem>, item: NewsItem)
    ensures Names(items + [item]) == Names(items) + [item.competitor]
    ensures Competitors(items + [item]) == Competitors(items) + {item.competitor}
  {
    assert Names(items + [item]) == Names(items) + [item.competitor];
  }

  /** At most fifteen items, the i-th one made from the i-th change. */
  lemma NewsItemsAreRecent(changes: seq<ChangeRecord>)
    ensures |NewsItems(changes)| == if |changes| < RecentLimit then |changes| else RecentLimit
    ensures forall i :: 0 <= i < |NewsItems(changes)| ==> NewsItems(changes)[i] == NewsItemOf(changes[i])
  {
  }

  /** An item is a priority item exactly when its importance is at least 7,
      and priority items keep their order. */
  lemma {:induction false} PriorityExactly(items: seq<NewsItem>)
    ensures forall x :: x in Priority(items) <==> x in items && x.importance >= PriorityThreshold
    ensures |Priority(items)| <= |items|
    ensures (forall x :: x in items ==> x.importance >= PriorityThreshold) ==> Priority(items) == items
  {
    if items != [] {
      var init := items[..|items| - 1];
      PriorityExactly(init);
      InitLast(items);
    }
  }

  // ------------------------------------------------------- activity counter

  /** `counts`, with its keys in insertion order `order`, is the dictionary
      counter after counting `names`. */
  ghost predicate IsCounterOf(names: seq<string>, order: seq<string>, counts: map<string, nat>) {
    && order == FirstAppearances(names)
    && (forall k :: k in counts <==> k in order)
    && (forall k :: k in counts ==> counts[k] == Occurrences(names, k))
  }

  /** `counter[name] = counter.get(name, 0) + 1` counts one more name. */
  lemma CounterStep(names: seq<string>, order: seq<string>, counts: map<string, nat>, name: string)
    requires IsCounterOf(names, order, counts)
    ensures IsCounterOf(names + [name],
                        if name in counts then order else order + [name],
                        counts[name := (if name in counts then counts[name] else 0) + 1])
  {
    InitLast(names + [name]);
    assert (names + [name])[..|names|] == names;
    forall k
      ensures Occurrences(names + [name], k) == Occurrences(names, k) + (if name == k then 1 else 0)
    {
      OccurrencesAppend(names, name, k);
    }
    if name !in counts {
      OccurrencesAbsent(names, name);
    }
  }

  /** The counter loop of `_fallback_news_summary`: a dictionary from
      competitor to count, its keys kept in insertion order, read back as
      its items. */
  method CountActivity(items: seq<NewsItem>) returns (act: seq<Activity>)
    ensures act == ActivityOf(Names(items))
  {
    var names := Names(items);
    var counts: map<string, nat> := map[];
    var order: seq<string> := [];
    for i := 0 to |items|
      invariant IsCounterOf(names[..i], order, counts)
    {
      var name := items[i].competitor;
      assert names[..i + 1] == names[..i] + [name];
      CounterStep(names[..i], order, counts, name);
      var previous := if name in counts then counts[name] else 0;
      if name !in counts {
        order := order + [name];
      }
      counts := counts[name := previous + 1];
    }
    assert names[..|items|] == names;
    act := seq(|order|, j requires 0 <= j < |order| => Activity(order[j], counts[order[j]]));
  }

  lemma DistinctCard<T>(d: seq<T>)
    requires forall i, j :: 0 <= i < j < |d| ==> d[i] != d[j]
    ensures |set x | x in d| == |d|
  {
    if d != [] {
      var init := d[..|d| - 1];
      DistinctCard(init);
      InitLast(d);
      assert (set x | x in d) == (set x | x in init) + {d[|d| - 1]};
    }
  }

  /** The counter has one entry per competitor. */
  lemma ActivityPerCompetitor(items: seq<NewsItem>)
    ensures |ActivityOf(Names(items))| == |Competitors(items)|
  {
    var d := FirstAppearances(Names(items));
    DistinctCard(d);
    assert (set x | x in d) == Competitors(items);
  }

  // ------------------------------------------------------------ the digest

  /** What the fallback newsletter reports: the counts of items, competitors
      and priority items, the listed top stories and the most active
      competitors with their counts. */
  datatype DigestFacts = DigestFacts(
    itemCount: nat,
    competitorCount: nat,
    priorityCount: nat,
    stories: seq<NewsItem>,
    active: seq<Activity>)

  function DigestOf(items: seq<NewsItem>, priority: seq<NewsItem>): DigestFacts {
    DigestFacts(|items|, |Competitors(items)|, |priority|, Take(priority, TopStories), TopActive(Names(items)))
  }

  /** At most three stories, the first priority items; at most three active
      competitors, one per competitor up to three, by non-increasing count,
      none left out more active than one listed; the counts add up to the
      number of items. */
  lemma DigestOfFacts(items: seq<NewsItem>, priority: seq<NewsItem>)
    ensures |DigestOf(items, priority).stories| == if |priority| < 3 then |priority| else 3
    ensures DigestOf(items, priority).stories == priority[..|DigestOf(items, priority).stories|]
    ensures |DigestOf(items, priority).active| ==
      if DigestOf(items, priority).competitorCount < 3 then DigestOf(items, priority).competitorCount else 3
    ensures NonIncreasing(DigestOf(items, priority).active)
    ensures forall a, t ::
      a in ActivityOf(Names(items)) && a !in DigestOf(items, priority).active && t in DigestOf(items, priority).active
      ==> t.count >= a.count
    ensures TotalCount(ActivityOf(Names(items))) == |items|
  {
    TopActiveAreMostActive(Names(items));
    ActivityPerCompetitor(items);
    ActivityTotal(Names(items));
    assert |Names(items)| == |items|;
  }

  const DigestHeader := "## \U{1F4F0} Weekly Competitor News Digest\n\n"
  const StoriesHeader := "### \U{1F525} Top Stories This Week\n"
  const BulletOpen := "\U{2022} **"
  const NameClose := "**: "
  const ExcerptOpen := "  _"
  const ExcerptClose := "..._\n\n"
  const NoStoriesLine := "\U{2022} No high-priority news items this week\n\n"
  const MarketHeader := "### \U{1F4CA} Market Intelligence Summary\n"
  const MarketLead := "This week we tracked "
  const MarketMiddle := " news items and updates across "
  const MarketTail := " competitors. "
  const ManyLead := "We detected "
  const ManyTail := " high-priority developments requiring attention.\n\n"
  const SomeLead := "We identified "
  const SomeTail := " important updates worth monitoring.\n\n"
  const RoutineRemark := "Most activity was routine updates and minor changes.\n\n"
  const ActiveHeader := "### \U{1F4C8} Most Active Competitors\n"
  const ActiveTail := " news items\n"
  const InsightsHeader := "\n### \U{1F4A1} Strategic Insights\n"
  const BusyFirst := "\U{2022} High competitor activity suggests increased market competition\n"
  const BusySecond := "\U{2022} Monitor for potential market shifts and new opportunities\n"
  const CalmFirst := "\U{2022} Stable competitive environment with routine updates\n"
  const CalmSecond := "\U{2022} Good opportunity to focus on internal product development\n"
  const ClosingLine := "\U{2022} Continue monitoring for emerging trends and strategic moves"

  function StoryHeadline(item: NewsItem): string {
    BulletOpen + item.competitor + NameClose + item.title + "\n"
  }

  function StoryExcerpt(item: NewsItem): string {
    ExcerptOpen + Take(item.excerpt, ExcerptHead) + ExcerptClose
  }

  function StoryLines(stories: seq<NewsItem>): string {
    if stories == [] then []
    else
      var last := stories[|stories| - 1];
      StoryLines(stories[..|stories| - 1]) + StoryHeadline(last) + StoryExcerpt(last)
  }

  /** The remark on the number of priority items: more than three, some, none. */
  function PriorityRemark(priorityCount: nat): string {
    if priorityCount > 3 then ManyLead + NatToString(priorityCount) + ManyTail
    else if priorityCount > 0 then SomeLead + NatToString(priorityCount) + SomeTail
    else RoutineRemark
  }

  function ActiveLine(a: Activity): string {
    BulletOpen + a.competitor + NameClose + NatToString(a.count) + ActiveTail
  }

  function ActiveLines(active: seq<Activity>): string {
    if active == [] then []
    else ActiveLines(active[..|active| - 1]) + ActiveLine(active[|active| - 1])
  }

  /** The two insight lines: one pair when more than two priority items were
      found, another otherwise. */
  function FirstInsight(priorityCount: nat): string {
    if priorityCount > 2 then BusyFirst else CalmFirst
  }

  function SecondInsight(priorityCount: nat): string {
    if priorityCount > 2 then BusySecond else CalmSecond
  }

  function StoriesSection(stories: seq<NewsItem>): string {
    if stories == [] then NoStoriesLine else StoryLines(stories)
  }

  function TrackedLine(itemCount: nat): string {
    MarketLead + NatToString(itemCount) + MarketMiddle
  }

  function AcrossLine(competitorCount: nat): string {
    NatToString(competitorCount) + MarketTail
  }

  /** The newsletter text, piece by piece. */
  function Render(d: DigestFacts): string {
    DigestHeader + StoriesHeader + StoriesSection(d.stories)
    + MarketHeader + TrackedLine(d.itemCount) + AcrossLine(d.competitorCount) + PriorityRemark(d.priorityCount)
    + ActiveHeader + ActiveLines(d.active)
    + InsightsHeader + FirstInsight(d.priorityCount) + SecondInsight(d.priorityCount) + ClosingLine
  }

  /** What `_fallback_news_summary(news_items, high_priority_news)` returns. */
  function FallbackSummary(items: seq<NewsItem>, priority: seq<NewsItem>): string {
    Render(DigestOf(items, priority))
  }

  /** The top-story lines, appended story by story. */
  method AppendStories(summary: string, top: seq<NewsItem>) returns (text: string)
    ensures text == summary + StoryLines(top)
  {
    text := summary;
    for j := 0 to |top|
      invariant text == summary + StoryLines(top[..j])
    {
      assert top[..j + 1][..j] == top[..j];
      text := text + StoryHeadline(top[j]);
      text := text + StoryExcerpt(top[j]);
    }
    assert top[..|top|] == top;
  }

  /** The most-active lines, appended entry by entry. */
  method AppendActive(summary: string, top: seq<Activity>) returns (text: string)
    ensures text == summary + ActiveLines(top)
  {
    text := summary;
    for j := 0 to |top|
      invariant text == summary + ActiveLines(top[..j])
    {
      assert top[..j + 1][..j] == top[..j];
      text := text + ActiveLine(top[j]);
    }
    assert top[..|top|] == top;
  }

  /** `_fallback_news_summary`: the text built by repeated concatenation. */
  method FallbackNewsSummary(items: seq<NewsItem>, priority: seq<NewsItem>) returns (summary: string)
    ensures summary == FallbackSummary(items, priority)
  {
    summary := DigestHeader;
    summary := summary + StoriesHeader;
    if priority != [] {
      summary := AppendStories(summary, Take(priority, TopStories));
    } else {
      summary := summary + NoStoriesLine;
    }
    summary := summary + MarketHeader;
    summary := summary + (MarketLead + NatToString(|items|) + MarketMiddle);
    summary := summary + (NatToString(|Competitors(items)|) + MarketTail);
    if |priority| > 3 {
      summary := summary + (ManyLead + NatToString(|priority|) + ManyTail);
    } else if |priority| > 0 {
      summary := summary + (SomeLead + NatToString(|priority|) + SomeTail);
    } else {
      summary := summary + RoutineRemark;
    }
    summary := summary + ActiveHeader;
    var act := CountActivity(items);
    var ranked := RankByCount(act);
    summary := AppendActive(summary, Take3(ranked));
    summary := summary + InsightsHeader;
    if |priority| > 2 {
      summary := summary + BusyFirst;
      summary := summary + BusySecond;
    } else {
      summary := summary + CalmFirst;
      summary := summary + CalmSecond;
    }
    summary := summary + ClosingLine;
  }

  // ------------------------------------------------------ the weekly summary

  /** What `generate_weekly_summary(changes)` returns: the fixed text for no
      changes; otherwise the model's cleaned digest, or the fallback
      newsletter when the model call fails. */
  function WeeklySummary(changes: seq<ChangeRecord>, model: Model): string {
    if changes == [] then NoNewsText
    else
      var items := NewsItems(changes);
      var priority := Priority(items);
      match model(DigestPrompt(items, |priority|, |Competitors(items)|))
      case Some(reply) => Clean(reply)
      case None => FallbackSummary(items, priority)
  }

  /** `generate_weekly_summary`. */
  method GenerateWeeklySummary(changes: seq<ChangeRecord>, model: Model) returns (summary: string)
    ensures summary == WeeklySummary(changes, model)
  {
    if changes == [] {
      return NoNewsText;
    }
    var items, priority, competitors := SelectNews(changes);
    match model(DigestPrompt(items, |priority|, |competitors|))
    case Some(stdout) =>
      summary := CleanOllamaResponse(stdout);
    case None =>
      summary := FallbackNewsSummary(items, priority);
  }

  /** With no changes the digest is the fixed text, whatever the model. */
  lemma NoChangesNoNews(model: Model)
    ensures WeeklySummary([], model) == NoNewsText
  {
  }

  /** A digest written by the model is cleaned: it is empty or every one of
      its lines is trimmed, non-blank and not an echo. */
  lemma {:induction false} ModelDigestIsClean(changes: seq<ChangeRecord>, model: Model, reply: string)
    requires changes != []
    requires model(DigestPrompt(NewsItems(changes), |Priority(NewsItems(changes))|,
                                |Competitors(NewsItems(changes))|)) == Some(reply)
    ensures var s := WeeklySummary(changes, model);
      s == [] || forall l :: l in SplitOn(s, '\n') ==> IsCleanLine(l)
  {
    var kept := CleanLines(SplitOn(Strip(reply), '\n'));
    if kept != [] {
      SplitOnJoin(kept, '\n');
    }
  }
}
