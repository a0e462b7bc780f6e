/** The values the tracker passes between its parts: a classification result,
    a stored change record, a digest news item, and the prompts it sends to
    the local language model. */
module Records {
  import opened Wrappers

  /** The dictionary every classification path returns (first scan, parsed
      model reply, lexical fallback, scan error). `changeType` is free text
      because a model reply is stored unchecked. */
  datatype ChangeResult = ChangeResult(
    changeType: string,
    importance: int,
    analysis: string,
    newsTitle: string,
    newsExcerpt: string,
    sourceLinks: string)

  /** One row of the `changes` table, as `analyze_changes_with_ai` writes it. */
  datatype ChangeRecord = ChangeRecord(
    competitorId: int,
    competitorName: string,
    content: string,
    contentHash: string,
    changelogContent: string,
    analysis: string,
    changeType: string,
    importance: int,
    newsTitle: string,
    newsExcerpt: string,
    sourceLinks: string,
    detectedAt: string,
    url: string)

  /** One entry of the weekly digest, derived from a change record. */
  datatype NewsItem = NewsItem(
    competitor: string,
    title: string,
    excerpt: string,
    importance: int,
    changeType: string,
    date: string)

  /** What a prompt to the model carries. The instructions around these values
      are fixed prose and are not modelled. */
  datatype Prompt =
    | ChangePrompt(competitor: string, website: string, previousHead: string, currentHead: string)
    | DigestPrompt(items: seq<NewsItem>, priorityCount: nat, competitorCount: nat)

  /** The local model behind `ollama run`: its raw standard output, or `None`
      when the call raised (non-zero exit status, timeout, binary missing). */
  type Model = Prompt -> Option<string>
}
