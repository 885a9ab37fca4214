/**
 * The pipeline orchestrator: looks the project up, builds the initial
 * state, runs the fixed sequence of stages and appends every log entry to
 * the append-only `agent_logs` table.
 */
module Workflow {
  import opened Wrappers
  import opened Js
  import opened AgentTypes

  /** The project row as the orchestrator reads it. */
  datatype Project = Project(rawSpec: Option<string>)

  /** A row of `agent_logs`. */
  datatype LogRow = LogRow(projectId: string, step: string, message: string, metadata: Option<Meta>)

  /** What awaiting a stage gives: its partial state, or the exception it threw. */
  datatype StageResult = Returned(partial: Partial) | Threw(message: string)

  /**
   * What each stage returned (or threw) in this run, when awaited on the
   * state the orchestrator handed it; the stages themselves are modelled in
   * their own modules.
   */
  datatype Stages = Stages(
    retrieve: StageResult,
    embed: StageResult,
    monitor: StageResult,
    mathOcr: StageResult,
    expand: StageResult,
    autoTag: StageResult,
    synthesize: StageResult)

  /** `${x}` for a string that may be null. */
  function Show(s: Option<string>): string {
    if s.Some? then s.value else "null"
  }

  /** The state built right after the project lookup. */
  function InitialState(project: Project, projectId: string): (s: ResearchState)
    ensures s.query == project.rawSpec && s.projectId == projectId
    ensures s.seedPapers == [] && s.logs == [] && s.findings == []
    ensures s.depth == 0 && s.maxDepth == 2
  {
    ResearchState(project.rawSpec, projectId, [], 0, 2, [], [])
  }

  function InitRow(projectId: string, s: ResearchState): LogRow {
    LogRow(projectId, "init", "Initialized agent for query: " + Show(s.query), None)
  }

  function StartRow(projectId: string, name: string): LogRow {
    LogRow(projectId, name, "Starting " + name + "...", None)
  }

  function CompleteRow(projectId: string): LogRow {
    LogRow(projectId, "complete", "Workflow cycle completed.", None)
  }

  function ErrorRow(projectId: string, message: string): LogRow {
    LogRow(projectId, "error", "Workflow failed: " + message, None)
  }

  function EntryRow(projectId: string, e: LogEntry): LogRow {
    LogRow(projectId, e.step, e.message, e.metadata)
  }

  /** One row per returned log entry, in the returned order. */
  function EntryRows(projectId: string, logs: seq<LogEntry>): (rows: seq<LogRow>)
    ensures |rows| == |logs|
    ensures forall i :: 0 <= i < |logs| ==> rows[i] == EntryRow(projectId, logs[i])
  {
    seq(|logs|, i requires 0 <= i < |logs| => EntryRow(projectId, logs[i]))
  }

  /** The row written for a saved seed paper, with the orchestrator's defaults. */
  function SavedRow(projectId: string, p: Seed): DocRow {
    DocRow(p.id, projectId, p.title, OrElse(p.url, ""), "web_search",
           OrElse(p.content, OrElse(p.snippet, "")), Some(0.1), Some(p.metadata.GetOr(map[])))
  }

  function SavedRows(projectId: string, seeds: seq<Seed>): (rows: seq<DocRow>)
    ensures |rows| == |seeds|
    ensures forall i :: 0 <= i < |seeds| ==> rows[i] == SavedRow(projectId, seeds[i])
  {
    seq(|seeds|, i requires 0 <= i < |seeds| => SavedRow(projectId, seeds[i]))
  }

  function SaveRow(projectId: string, n: nat): LogRow {
    LogRow(projectId, "save_docs", "Saved " + NatToString(n) + " seed documents.", None)
  }

  /**
   * What the run has done so far: rows logged, document batches upserted,
   * the state each stage was handed, the current state, and the exception
   * if one was thrown.
   */
  datatype Trace = Trace(rows: seq<LogRow>, saved: seq<seq<DocRow>>, inputs: seq<ResearchState>,
                         state: ResearchState, failure: Option<string>)

  /** The rows `runStep` writes for one stage outcome: the start row, then the returned entries in order. */
  function StepRows(projectId: string, name: string, r: StageResult): seq<LogRow> {
    [StartRow(projectId, name)] +
    (if r.Returned? && r.partial.logs.Some? then EntryRows(projectId, r.partial.logs.value) else [])
  }

  /** `state = await runStep(...)`; after an exception nothing more happens. */
  function AfterStage(projectId: string, name: string, r: StageResult, t: Trace): Trace {
    if t.failure.Some? then t
    else if r.Threw? then
      Trace(t.rows + StepRows(projectId, name, r), t.saved, t.inputs + [t.state], t.state, Some(r.message))
    else
      Trace(t.rows + StepRows(projectId, name, r), t.saved, t.inputs + [t.state], Merge(t.state, r.partial), None)
  }

  /** The inline `save_docs` step: one upsert batch and one row, only when there are seed papers. */
  function AfterSave(projectId: string, t: Trace): Trace {
    if t.failure.Some? || |t.state.seedPapers| == 0 then t
    else Trace(t.rows + [SaveRow(projectId, |t.state.seedPapers|)],
               t.saved + [SavedRows(projectId, t.state.seedPapers)], t.inputs, t.state, None)
  }

  /** The trace before any stage ran. */
  function Start(project: Project, projectId: string): Trace {
    Trace([], [], [], InitialState(project, projectId), None)
  }

  /** The trace after each step of the pipeline, in its fixed order. */
  function AfterRetrieve(p: Project, pid: string, st: Stages): Trace {
    AfterStage(pid, "retrieve_seed", st.retrieve, Start(p, pid))
  }

  function AfterSaveDocs(p: Project, pid: string, st: Stages): Trace {
    AfterSave(pid, AfterRetrieve(p, pid, st))
  }

  function AfterEmbed(p: Project, pid: string, st: Stages): Trace {
    AfterStage(pid, "embed", st.embed, AfterSaveDocs(p, pid, st))
  }

  function AfterMonitor(p: Project, pid: string, st: Stages): Trace {
    AfterStage(pid, "monitor_sources", st.monitor, AfterEmbed(p, pid, st))
  }

  function AfterMathOcr(p: Project, pid: string, st: Stages): Trace {
    AfterStage(pid, "math_ocr", st.mathOcr, AfterMonitor(p, pid, st))
  }

  function AfterExpand(p: Project, pid: string, st: Stages): Trace {
    AfterStage(pid, "expand_graph", st.expand, AfterMathOcr(p, pid, st))
  }

  function AfterAutoTag(p: Project, pid: string, st: Stages): Trace {
    AfterStage(pid, "auto_tag", st.autoTag, AfterExpand(p, pid, st))
  }

  /** The whole pipeline: retrieve_seed, save_docs, embed, monitor_sources, math_ocr, expand_graph, auto_tag, synthesize. */
  function RunTrace(p: Project, pid: string, st: Stages): Trace {
    AfterStage(pid, "synthesize", st.synthesize, AfterAutoTag(p, pid, st))
  }

  /** Every row a run appends to `agent_logs` once the project was found. */
  function RunLog(project: Project, projectId: string, stages: Stages): seq<LogRow> {
    var t := RunTrace(project, projectId, stages);
    [InitRow(projectId, InitialState(project, projectId))] + t.rows + Closing(projectId, t)
  }

  /** The append-only `agent_logs` table. */
  class LogTable {
    var rows: seq<LogRow>

    constructor ()
      ensures rows == []
    {
      rows := [];
    }

    /** `logStep`: insert one row at the end. */
    method Insert(row: LogRow)
      modifies this
      ensures rows == old(rows) + [row]
    {
      rows := rows + [row];
    }
  }

  /** `runStep`: log the start, await the stage, merge its result, then log its entries in order. */
  method RunStep(table: LogTable, projectId: string, name: string, result: StageResult, s: ResearchState)
    returns (r: Result<ResearchState>)
    modifies table
    ensures table.rows == old(table.rows) + StepRows(projectId, name, result)
    ensures result.Threw? ==> r == Err(result.message)
    ensures result.Returned? ==> r == Ok(Merge(s, result.partial))
  {
    table.Insert(StartRow(projectId, name));
    if result.Threw? {
      return Err(result.message);
    }
    var newState := Merge(s, result.partial);
    if result.partial.logs.Some? {
      var logs := result.partial.logs.value;
      var i := 0;
      while i < |logs|
        invariant 0 <= i <= |logs|
        invariant table.rows == old(table.rows) + [StartRow(projectId, name)] + EntryRows(projectId, logs[..i])
      {
        assert EntryRows(projectId, logs[..i + 1]) == EntryRows(projectId, logs[..i]) + [EntryRow(projectId, logs[i])];
        table.Insert(EntryRow(projectId, logs[i]));
        i := i + 1;
      }
      assert logs[..i] == logs;
    }
    return Ok(newState);
  }

  /** The row that closes a run with trace `t`: "complete", or the "error" row of the exception. */
  function Closing(projectId: string, t: Trace): seq<LogRow> {
    if t.failure.None? then [CompleteRow(projectId)] else [ErrorRow(projectId, t.failure.value)]
  }

  /** What `agent_logs` holds, past `base`, while the run is at trace `t`; the error row is written as soon as a stage throws. */
  function Logged(projectId: string, base: seq<LogRow>, t: Trace): seq<LogRow> {
    if t.failure.None? then base + t.rows else base + t.rows + Closing(projectId, t)
  }

  /** Runs one stage through `RunStep` unless an earlier one threw; an exception logs the error row. */
  method Stage(table: LogTable, projectId: string, name: string, r: StageResult, t: Trace, ghost base: seq<LogRow>)
    returns (t': Trace)
    requires table.rows == Logged(projectId, base, t)
    modifies table
    ensures t' == AfterStage(projectId, name, r, t)
    ensures table.rows == Logged(projectId, base, t')
  {
    if t.failure.Some? {
      return t;
    }
    var out := RunStep(table, projectId, name, r, t.state);
    if out.Err? {
      t' := Trace(t.rows + StepRows(projectId, name, r), t.saved, t.inputs + [t.state], t.state, Some(out.message));
      table.Insert(ErrorRow(projectId, out.message));
    } else {
      t' := Trace(t.rows + StepRows(projectId, name, r), t.saved, t.inputs + [t.state], out.value, None);
    }
  }

  /**
   * `runResearchAgent`: a missing project throws before anything is logged;
   * otherwise the run logs "init", every step in the fixed order, and ends
   * with "complete", or with one "error" row when a stage threw.
   */
  method RunResearchAgent(table: LogTable, found: Option<Project>, projectId: string, stages: Stages)
    returns (r: Result<()>, saved: seq<seq<DocRow>>)
    modifies table
    ensures found.None? ==> r == Err("Project not found: " + projectId) && table.rows == old(table.rows) && saved == []
    ensures found.Some? ==> r == Ok(())
    ensures found.Some? ==> table.rows == old(table.rows) + RunLog(found.value, projectId, stages)
    ensures found.Some? ==> saved == RunTrace(found.value, projectId, stages).saved
  {
    if found.None? {
      return Err("Project not found: " + projectId), [];
    }
    var project := found.value;
    var s0 := InitialState(project, projectId);
    table.Insert(InitRow(projectId, s0));
    ghost var base := table.rows;
    var t := Trace([], [], [], s0, None);
    t := Stage(table, projectId, "retrieve_seed", stages.retrieve, t, base);
    assert t == AfterRetrieve(project, projectId, stages);
    if t.failure.None? && |t.state.seedPapers| > 0 {
      var rows := SavedRows(projectId, t.state.seedPapers);
      table.Insert(SaveRow(projectId, |rows|));
      t := Trace(t.rows + [SaveRow(projectId, |rows|)], t.saved + [rows], t.inputs, t.state, None);
    }
    assert t == AfterSaveDocs(project, projectId, stages);
    t := Stage(table, projectId, "embed", stages.embed, t, base);
    t := Stage(table, projectId, "monitor_sources", stages.monitor, t, base);
    t := Stage(table, projectId, "math_ocr", stages.mathOcr, t, base);
    t := Stage(table, projectId, "expand_graph", stages.expand, t, base);
    t := Stage(table, projectId, "auto_tag", stages.autoTag, t, base);
    t := Stage(table, projectId, "synthesize", stages.synthesize, t, base);
    assert t == RunTrace(project, projectId, stages);
    if t.failure.None? {
      table.Insert(CompleteRow(projectId));
    }
    ghost var log := [InitRow(projectId, s0)] + t.rows + Closing(projectId, t);
    assert RunLog(project, projectId, stages) == log;
    Regroup(old(table.rows), [InitRow(projectId, s0)], t.rows, Closing(projectId, t));
    return Ok(()), t.saved;
  }

  /** Once a stage threw, the later steps change nothing: the run's trace is the trace at the throw. */
  lemma AbortedRunStops(p: Project, pid: string, st: Stages, k: nat)
    requires 1 <= k <= 6
    requires k == 1 ==> AfterRetrieve(p, pid, st).failure.Some?
    requires k == 2 ==> AfterEmbed(p, pid, st).failure.Some?
    requires k == 3 ==> AfterMonitor(p, pid, st).failure.Some?
    requires k == 4 ==> AfterMathOcr(p, pid, st).failure.Some?
    requires k == 5 ==> AfterExpand(p, pid, st).failure.Some?
    requires k == 6 ==> AfterAutoTag(p, pid, st).failure.Some?
    ensures k == 1 ==> RunTrace(p, pid, st) == AfterRetrieve(p, pid, st)
    ensures k == 2 ==> RunTrace(p, pid, st) == AfterEmbed(p, pid, st)
    ensures k == 3 ==> RunTrace(p, pid, st) == AfterMonitor(p, pid, st)
    ensures k == 4 ==> RunTrace(p, pid, st) == AfterMathOcr(p, pid, st)
    ensures k == 5 ==> RunTrace(p, pid, st) == AfterExpand(p, pid, st)
    ensures k == 6 ==> RunTrace(p, pid, st) == AfterAutoTag(p, pid, st)
  {
  }

  /** The run ends with "complete" exactly when no stage threw, and otherwise with one "Workflow failed" row. */
  lemma CompleteIffNoException(project: Project, projectId: string, stages: Stages)
    ensures var log := RunLog(project, projectId, stages);
      var t := RunTrace(project, projectId, stages);
      && log[0].step == "init"
      && (log[|log| - 1] == CompleteRow(projectId) <==> t.failure.None?)
      && (t.failure.Some? ==> log[|log| - 1] == ErrorRow(projectId, t.failure.value))
  {
  }
}
