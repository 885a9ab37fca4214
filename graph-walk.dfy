/**
 * The graph-walk stage: a depth counter bounded by the state's maximum
 * depth.
 */
module GraphWalk {
  import opened Wrappers
  import opened AgentTypes

  const StopLog := LogEntry("graph-walk", "Max recursion depth reached. Stopping walk.", None)

  function ExpandedLog(depth: int): LogEntry {
    LogEntry("graph-walk", "Expanded graph at depth " + IntToString(depth), None)
  }

  /** A depth inside a template string. */
  function IntToString(n: int): string {
    if n < 0 then "-" + Js.NatToString(-n) else Js.NatToString(n)
  }

  /**
   * `graphWalk`: at or past the maximum depth one stop log and no `depth`
   * key; otherwise the depth one higher and a log naming it.
   */
  function GraphWalk(state: ResearchState): (r: Partial)
    ensures r.seedPapers.None? && r.findings.None?
    ensures state.depth >= state.maxDepth ==> r == LogsOnly([StopLog])
    ensures state.depth < state.maxDepth ==>
              r.depth == Some(state.depth + 1) && r.logs == Some([ExpandedLog(state.depth + 1)])
  {
    if state.depth >= state.maxDepth then LogsOnly([StopLog])
    else Partial(None, Some(state.depth + 1), Some([ExpandedLog(state.depth + 1)]), None)
  }

  /** The state after `n` walks, each merged into the state. */
  function Walk(state: ResearchState, n: nat): ResearchState
    decreases n
  {
    if n == 0 then state else Walk(Merge(state, GraphWalk(state)), n - 1)
  }

  /**
   * From a depth at most the maximum, repeated walks never pass the maximum:
   * after `n` walks the depth is `min(depth + n, maxDepth)`.
   */
  lemma {:induction false} WalkDepth(state: ResearchState, n: nat)
    requires state.depth <= state.maxDepth
    ensures Walk(state, n).maxDepth == state.maxDepth
    ensures Walk(state, n).depth == if state.depth + n <= state.maxDepth then state.depth + n else state.maxDepth
    decreases n
  {
    if n > 0 {
      WalkDepth(Merge(state, GraphWalk(state)), n - 1);
    }
  }

  /** After `maxDepth - depth` walks the next walk takes the stop branch. */
  lemma WalkReachesStop(state: ResearchState)
    requires state.depth <= state.maxDepth
    ensures GraphWalk(Walk(state, state.maxDepth - state.depth)) == LogsOnly([StopLog])
  {
    WalkDepth(state, state.maxDepth - state.depth);
  }
}
