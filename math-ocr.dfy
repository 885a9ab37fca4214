/**
 * The math-OCR stage: the first three seed papers with an image are sent
 * to a vision model, one log per paper processed, and a fallback log when
 * none was.
 */
module MathOcr {
  import opened Wrappers
  import opened Js
  import opened AgentTypes

  /** `p.ogImage || p.screenshot || p.image`, absent when all three are missing or empty. */
  function ImageUrl(p: Seed): (u: Option<string>)
    ensures u.Some? ==> u.value != []
    ensures u.Some? <==> OrElse(p.ogImage, "") != [] || OrElse(p.screenshot, "") != [] || OrElse(p.image, "") != []
    ensures OrElse(p.ogImage, "") != [] ==> u == p.ogImage
    ensures OrElse(p.ogImage, "") == [] && OrElse(p.screenshot, "") != [] ==> u == p.screenshot
    ensures OrElse(p.ogImage, "") == [] && OrElse(p.screenshot, "") == [] && OrElse(p.image, "") != [] ==> u == p.image
  {
    if OrElse(p.ogImage, "") != [] then p.ogImage
    else if OrElse(p.screenshot, "") != [] then p.screenshot
    else if OrElse(p.image, "") != [] then p.image
    else None
  }

  /** A paper is sent only with an image URL and a configured key. */
  predicate Sent(p: Seed, apiKey: bool) {
    ImageUrl(p).Some? && apiKey
  }

  function VisionLog(p: Seed): LogEntry {
    LogEntry("math_ocr", "Vision processed: " + p.title, None)
  }

  const FallbackLog := LogEntry("math_ocr", "No images found for Vision processing.", None)

  /**
   * The logs for the first `i` targets: `ok(i)` says whether the call for
   * the `i`-th target returned; a failed call is swallowed.
   */
  function VisionLogs(targets: seq<Seed>, apiKey: bool, ok: nat -> bool, i: nat): (logs: seq<LogEntry>)
    requires i <= |targets|
    ensures |logs| <= i
  {
    if i == 0 then []
    else VisionLogs(targets, apiKey, ok, i - 1)
         + (if Sent(targets[i - 1], apiKey) && ok(i - 1) then [VisionLog(targets[i - 1])] else [])
  }

  /** The final log list: the vision logs, or the fallback alone when there are none. */
  function OcrLogs(seeds: seq<Seed>, apiKey: bool, ok: nat -> bool): seq<LogEntry> {
    var targets := Take(seeds, 3);
    var logs := VisionLogs(targets, apiKey, ok, |targets|);
    if logs == [] then [FallbackLog] else logs
  }

  /** Only the first three papers can produce a log, each at most one. */
  lemma {:induction false} VisionLogsFrom(targets: seq<Seed>, apiKey: bool, ok: nat -> bool, i: nat)
    requires i <= |targets|
    ensures forall l :: l in VisionLogs(targets, apiKey, ok, i) ==>
              exists j :: 0 <= j < i && Sent(targets[j], apiKey) && ok(j) && l == VisionLog(targets[j])
  {
    if i > 0 {
      VisionLogsFrom(targets, apiKey, ok, i - 1);
    }
  }

  /** Without a key nothing is sent. */
  lemma {:induction false} NoKeyNoLogs(targets: seq<Seed>, ok: nat -> bool, i: nat)
    requires i <= |targets|
    ensures VisionLogs(targets, false, ok, i) == []
  {
    if i > 0 {
      NoKeyNoLogs(targets, ok, i - 1);
    }
  }

  /**
   * The stage always returns between one and three logs, the fallback
   * exactly when no paper was processed, and with no key only the fallback.
   */
  lemma OcrLogsBounds(seeds: seq<Seed>, apiKey: bool, ok: nat -> bool)
    ensures 1 <= |OcrLogs(seeds, apiKey, ok)| <= 3
    ensures var targets := Take(seeds, 3);
            OcrLogs(seeds, apiKey, ok) == [FallbackLog] <==> VisionLogs(targets, apiKey, ok, |targets|) == []
    ensures !apiKey ==> OcrLogs(seeds, false, ok) == [FallbackLog]
  {
    var targets := Take(seeds, 3);
    NoKeyNoLogs(targets, ok, |targets|);
    var logs := VisionLogs(targets, apiKey, ok, |targets|);
    if logs != [] {
      VisionLogsFrom(targets, apiKey, ok, |targets|);
      assert logs[0] in logs;
      var j :| 0 <= j < |targets| && logs[0] == VisionLog(targets[j]);
      assert logs[0].message[0] == 'V' != FallbackLog.message[0];
    }
  }

  /**
   * `extractMath`: `apiKey` says whether the Nebius key is set and `ok(i)`
   * whether the vision call for the `i`-th target returned.
   */
  method ExtractMath(state: ResearchState, apiKey: bool, ok: nat -> bool) returns (r: Partial)
    ensures r == LogsOnly(OcrLogs(state.seedPapers, apiKey, ok))
  {
    var targets := Take(state.seedPapers, 3);
    var logs: seq<LogEntry> := [];
    var i := 0;
    while i < |targets|
      invariant 0 <= i <= |targets|
      invariant logs == VisionLogs(targets, apiKey, ok, i)
    {
      var paper := targets[i];
      if ImageUrl(paper).Some? && apiKey {
        if ok(i) {
          logs := logs + [VisionLog(paper)];
        }
      }
      i := i + 1;
    }
    if |logs| == 0 {
      logs := logs + [FallbackLog];
    }
    assert logs == OcrLogs(state.seedPapers, apiKey, ok);
    r := LogsOnly(logs);
  }
}
