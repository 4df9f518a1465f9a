/** `POST /api/test-story-images`: up to three attempts to generate one image through the
    cache, waiting longer after each failure, with a record of every attempt. The cached
    generator, the clock and the waits are injected: attempt `k` (from 0) asks for
    `prompt` in the fixed style, yields `generate(prompt, STYLE, k)` and takes `duration(k)`
    milliseconds, and each wait is recorded instead of slept. */
module TestStoryImagesRoute {
  import opened Wrappers

  /** A thrown value: an `Error` object (its constructor's name and message) or anything else
      (its `typeof`). */
  datatype Thrown = ErrorObject(constructorName: string, message: string) | OtherThrown(typeName: string)

  datatype Attempt =
    | Succeeded(attempt: nat, duration: int, imageLength: nat, imagePreview: string)
    | Failed(attempt: nat, duration: int, error: string, errorType: string)

  datatype TestReport = TestReport(
    prompt: string,
    attempts: seq<Attempt>,
    success: bool,
    finalImage: Option<string>,
    error: Option<string>)

  datatype TestResponse = Report(report: TestReport) | TestFailure(status: nat, error: string)

  const MAX_ATTEMPTS: nat := 3
  const WAIT_STEP: nat := 2000
  const STYLE: string := "digital art"
  const DEFAULT_PROMPT: string := "A brave little dragon named Ember discovering a magical crystal in a forest"
  const ALL_ATTEMPTS_FAILED: string := "All attempts failed"
  const UNKNOWN_ERROR: string := "Unknown error"
  const PREVIEW_LENGTH: nat := 100

  function ThrownMessage(t: Thrown): string {
    match t
    case ErrorObject(_, m) => m
    case OtherThrown(_) => UNKNOWN_ERROR
  }

  function ThrownType(t: Thrown): string {
    match t
    case ErrorObject(name, _) => name
    case OtherThrown(typeName) => typeName
  }

  /** `image.substring(0, 100)` */
  function Preview(image: string): (p: string)
    ensures |p| <= PREVIEW_LENGTH && p <= image
    ensures |image| <= PREVIEW_LENGTH ==> p == image
  {
    if |image| <= PREVIEW_LENGTH then image else image[..PREVIEW_LENGTH]
  }

  function AttemptRecord(k: nat, outcome: Result<string, Thrown>, duration: int): (a: Attempt)
    ensures a.attempt == k + 1
    ensures a.Succeeded? <==> outcome.Ok?
  {
    match outcome
    case Ok(image) => Succeeded(k + 1, duration, |image|, Preview(image))
    case Err(t) => Failed(k + 1, duration, ThrownMessage(t), ThrownType(t))
  }

  /** The first attempt, from `from` on, that succeeds; `MAX_ATTEMPTS` when none does. */
  function FirstSuccess(generate: (string, string, nat) -> Result<string, Thrown>, prompt: string, from: nat): (k: nat)
    requires from <= MAX_ATTEMPTS
    ensures from <= k <= MAX_ATTEMPTS
    ensures k < MAX_ATTEMPTS ==> generate(prompt, STYLE, k).Ok?
    ensures forall j :: from <= j < k ==> generate(prompt, STYLE, j).Err?
    decreases MAX_ATTEMPTS - from
  {
    if from == MAX_ATTEMPTS || generate(prompt, STYLE, from).Ok? then from
    else FirstSuccess(generate, prompt, from + 1)
  }

  /** The number of attempts made: up to and including the first success, or all three. */
  function AttemptsMade(generate: (string, string, nat) -> Result<string, Thrown>, prompt: string): (n: nat)
    ensures 1 <= n <= MAX_ATTEMPTS
  {
    var k := FirstSuccess(generate, prompt, 0);
    if k < MAX_ATTEMPTS then k + 1 else MAX_ATTEMPTS
  }

  /** The wait after failed attempt `k`. */
  function WaitAfter(k: nat): nat {
    (k + 1) * WAIT_STEP
  }

  /** What the route reports for a prompt: one record per attempt made, every attempt but
      the last a failure; `success` exactly when some attempt succeeded, with the first
      successful image as `finalImage`, and otherwise the all-failed error; and `waits`
      lists the pauses taken, `WaitAfter(k)` after each failed attempt but the last. */
  predicate ReportOf(prompt: string, generate: (string, string, nat) -> Result<string, Thrown>, duration: nat -> int,
                     report: TestReport, waits: seq<nat>)
  {
    && report.prompt == prompt
    && |report.attempts| == AttemptsMade(generate, prompt)
    && (forall k :: 0 <= k < |report.attempts| ==>
          report.attempts[k] == AttemptRecord(k, generate(prompt, STYLE, k), duration(k)))
    && (forall k :: 0 <= k < |report.attempts| - 1 ==> report.attempts[k].Failed?)
    && (report.success <==> report.attempts[|report.attempts| - 1].Succeeded?)
    && (report.success <==> FirstSuccess(generate, prompt, 0) < MAX_ATTEMPTS)
    && (report.success ==>
          report.finalImage == Some(generate(prompt, STYLE, FirstSuccess(generate, prompt, 0)).value) && report.error.None?)
    && (!report.success ==> report.finalImage.None? && report.error == Some(ALL_ATTEMPTS_FAILED))
    && |waits| == (if report.success then FirstSuccess(generate, prompt, 0) else MAX_ATTEMPTS - 1)
    && (forall k :: 0 <= k < |waits| ==> waits[k] == WaitAfter(k))
  }

  /** The loop of the route, with the report's fields as local state; `waits` lists the
      pauses in the order they are taken. */
  method RunAttempts(prompt: string, generate: (string, string, nat) -> Result<string, Thrown>, duration: nat -> int)
    returns (report: TestReport, waits: seq<nat>)
    ensures ReportOf(prompt, generate, duration, report, waits)
  {
    var attempts: seq<Attempt> := [];
    var success := false;
    var finalImage: Option<string> := None;
    waits := [];
    var i := 0;
    while i < MAX_ATTEMPTS
      invariant 0 <= i <= MAX_ATTEMPTS
      invariant !success
      invariant forall j :: 0 <= j < i ==> generate(prompt, STYLE, j).Err?
      invariant |attempts| == i
      invariant forall k :: 0 <= k < i ==> attempts[k] == AttemptRecord(k, generate(prompt, STYLE, k), duration(k))
      invariant |waits| == if i < MAX_ATTEMPTS then i else MAX_ATTEMPTS - 1
      invariant forall k :: 0 <= k < |waits| ==> waits[k] == WaitAfter(k)
      invariant finalImage.None?
    {
      var result := generate(prompt, STYLE, i);
      attempts := attempts + [AttemptRecord(i, result, duration(i))];
      if result.Ok? {
        success := true;
        finalImage := Some(result.value);
        break;
      }
      if i < MAX_ATTEMPTS - 1 {
        waits := waits + [WaitAfter(i)];
      }
      i := i + 1;
    }
    FirstSuccessIs(generate, prompt, i);
    var error: Option<string> := None;
    if !success {
      error := Some(ALL_ATTEMPTS_FAILED);
    }
    report := TestReport(prompt, attempts, success, finalImage, error);
  }

  /** The first success is the attempt the loop stopped at. */
  lemma {:induction false} FirstSuccessIs(generate: (string, string, nat) -> Result<string, Thrown>, prompt: string, i: nat)
    requires i <= MAX_ATTEMPTS
    requires forall j :: 0 <= j < i ==> generate(prompt, STYLE, j).Err?
    requires i < MAX_ATTEMPTS ==> generate(prompt, STYLE, i).Ok?
    ensures FirstSuccess(generate, prompt, 0) == i
  {
    FirstSuccessFrom(generate, prompt, 0, i);
  }

  lemma {:induction false} FirstSuccessFrom(generate: (string, string, nat) -> Result<string, Thrown>, prompt: string, from: nat, i: nat)
    requires from <= i <= MAX_ATTEMPTS
    requires forall j :: from <= j < i ==> generate(prompt, STYLE, j).Err?
    requires i < MAX_ATTEMPTS ==> generate(prompt, STYLE, i).Ok?
    ensures FirstSuccess(generate, prompt, from) == i
    decreases i - from
  {
    if from < i {
      FirstSuccessFrom(generate, prompt, from + 1, i);
    }
  }

  /** The waits grow: 2000 ms after the first failure, 4000 ms after the second, and none
      after the last attempt. */
  lemma WaitsIncrease()
    ensures WaitAfter(0) == 2000 && WaitAfter(1) == 4000
    ensures forall k: nat, l: nat :: k < l ==> WaitAfter(k) < WaitAfter(l)
  {
  }

  /** The route handler: `body` is the request's `prompt` field (absent when it has none),
      or the thrown value reading the body threw. */
  method HandleTestStoryImages(body: Result<Option<string>, Thrown>,
                               generate: (string, string, nat) -> Result<string, Thrown>, duration: nat -> int)
    returns (resp: TestResponse, waits: seq<nat>)
    ensures body.Err? ==> resp == TestFailure(500, ThrownMessage(body.error)) && waits == []
    ensures body.Ok? ==> resp.Report? && ReportOf(body.value.GetOr(DEFAULT_PROMPT), generate, duration, resp.report, waits)
    ensures body.Ok? ==> 1 <= |resp.report.attempts| <= MAX_ATTEMPTS
  {
    if body.Err? {
      return TestFailure(500, ThrownMessage(body.error)), [];
    }
    var report;
    report, waits := RunAttempts(body.value.GetOr(DEFAULT_PROMPT), generate, duration);
    resp := Report(report);
  }
}
