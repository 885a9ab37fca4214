/**
 * The synthesize stage: a numbered context built from every seed paper is
 * sent to a completion model, and its answer is stored as the project's
 * validation report.
 */
module Synthesize {
  import opened Wrappers
  import opened Js
  import opened AgentTypes

  /** What the completion gave: an exception with its `message`, or the answer's content. */
  datatype SynthOutcome = SynthThrew(message: Option<string>) | SynthDone(content: Option<string>)

  /** `doc.content || doc.snippet || ""`, cut to its first 1000 characters. */
  function BlockContent(d: Seed): (c: string)
    ensures |c| <= 1000
    ensures c == Take(d.content.GetOr([]), 1000) || c == Take(d.snippet.GetOr([]), 1000) || c == []
    ensures d.content.Some? && d.content.value != [] ==> c == Take(d.content.value, 1000)
    ensures (d.content.None? || d.content.value == []) && d.snippet.Some? && d.snippet.value != [] ==>
              c == Take(d.snippet.value, 1000)
    ensures (d.content.None? || d.content.value == []) && (d.snippet.None? || d.snippet.value == []) ==> c == []
  {
    Take(OrElse(d.content, OrElse(d.snippet, "")), 1000)
  }

  /** The block of the paper at position `i`, numbered from 1. */
  function Block(d: Seed, i: nat): string {
    "[" + NatToString(i + 1) + "] Title: " + d.title + "\nContent: " + BlockContent(d)
  }

  function Blocks(docs: seq<Seed>): (bs: seq<string>)
    ensures |bs| == |docs|
    ensures forall i :: 0 <= i < |docs| ==> bs[i] == Block(docs[i], i)
  {
    seq(|docs|, i requires 0 <= i < |docs| => Block(docs[i], i))
  }

  /** The context: one block per paper, in order, separated by a blank line. */
  function Context(docs: seq<Seed>): string {
    Join(Blocks(docs), "\n\n")
  }

  lemma {:induction false} JoinSnoc(parts: seq<string>, p: string, sep: string)
    requires parts != []
    ensures Join(parts + [p], sep) == Join(parts, sep) + sep + p
    decreases |parts|
  {
    if |parts| == 1 {
      assert parts + [p] == [parts[0], p];
      assert [parts[0], p][1..] == [p];
    } else {
      assert (parts + [p])[1..] == parts[1..] + [p];
      JoinSnoc(parts[1..], p, sep);
    }
  }

  /**
   * Adding a paper adds exactly one block, numbered after the others, after
   * a blank line; the context of one paper is its block numbered 1.
   */
  lemma ContextSnoc(docs: seq<Seed>, d: Seed)
    ensures docs == [] ==> Context([d]) == "[1] Title: " + d.title + "\nContent: " + BlockContent(d)
    ensures docs != [] ==> Context(docs + [d]) == Context(docs) + "\n\n" + Block(d, |docs|)
  {
    if docs == [] {
      assert Blocks([d]) == [Block(d, 0)];
    } else {
      assert Blocks(docs + [d]) == Blocks(docs) + [Block(d, |docs|)];
      JoinSnoc(Blocks(docs), Block(d, |docs|), "\n\n");
    }
  }

  /** `completion.choices[0].message.content || "No report generated."`. */
  function ReportText(content: Option<string>): (t: string)
    ensures t != []
    ensures content.Some? && content.value != [] ==> t == content.value
  {
    OrElse(content, "No report generated.")
  }

  /** `${error.message}`: an absent message renders as "undefined". */
  function FailedLog(message: Option<string>): LogEntry {
    LogEntry("synthesize", "Failed: " + (if message.Some? then message.value else "undefined"), None)
  }

  const NoDocsLog := LogEntry("synthesize", "No docs to synthesize.", None)
  const GeneratedLog := LogEntry("synthesize", "Generated final research report.", None)
  const ReportFinding := Finding("Report Generated", Supported, 1.0, [])

  /**
   * `synthesizeReport`: the completion is the `outcome` (the prompt it is
   * sent holds the query and `Context`). Returns the partial state and the
   * writes issued.
   */
  method SynthesizeReport(state: ResearchState, outcome: SynthOutcome) returns (r: Partial, writes: seq<Write>)
    ensures state.seedPapers == [] ==> r == LogsOnly([NoDocsLog]) && writes == []
    ensures state.seedPapers != [] && outcome.SynthThrew? ==> r == LogsOnly([FailedLog(outcome.message)]) && writes == []
    ensures state.seedPapers != [] && outcome.SynthDone? ==>
              && r == Partial(None, None, Some([GeneratedLog]), Some([ReportFinding]))
              && writes == [InsertReport(ReportRow(state.projectId, "completed", ReportText(outcome.content)))]
  {
    if |state.seedPapers| == 0 {
      return LogsOnly([NoDocsLog]), [];
    }
    match outcome {
      case SynthThrew(message) =>
        r := LogsOnly([FailedLog(message)]);
        writes := [];
      case SynthDone(content) =>
        var report := ReportText(content);
        writes := [InsertReport(ReportRow(state.projectId, "completed", report))];
        var logs := [GeneratedLog];
        r := Partial(None, None, Some(logs), Some([ReportFinding]));
    }
  }
}
