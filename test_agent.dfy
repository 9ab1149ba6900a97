/** The stateful test workflow: a record threaded through five nodes
    (parse → track → generate → save → execute or skip). Each node returns a
    copy of the record with a few fields replaced. */
module TestAgent {
  import opened Wrappers
  import opened Text
  import opened Steps
  import opened PythonExecutor

  // ---------------------------------------------------------------------------
  // The workflow record
  // ---------------------------------------------------------------------------

  datatype TestState = TestState(
    userInstruction: string,
    parsedSteps: seq<Step>,
    parsingStatus: string,
    browserOpen: bool,
    currentUrl: string,
    loggedIn: bool,
    generatedCode: string,
    codeFilePath: string,
    executionStatus: string,
    executionOutput: string,
    executionErrors: string,
    testPassed: bool)

  /** The record the chat endpoint starts a run from: the message and
      empty or false everywhere else. */
  function Fresh(message: string): TestState {
    TestState(message, [], "", false, "", false, "", "", "", "", "", false)
  }

  /** `a` and `b` agree on the instruction and on everything downstream of the
      browser prediction: the fields that parsing never touches. */
  predicate SameOutsideParse(a: TestState, b: TestState) {
    && a.userInstruction == b.userInstruction
    && a.generatedCode == b.generatedCode
    && a.codeFilePath == b.codeFilePath
    && a.executionStatus == b.executionStatus
    && a.executionOutput == b.executionOutput
    && a.executionErrors == b.executionErrors
    && a.testPassed == b.testPassed
  }

  /** `a` and `b` agree on every field except the three browser predictions. */
  predicate SameOutsideBrowser(a: TestState, b: TestState) {
    a == b.(browserOpen := a.browserOpen, currentUrl := a.currentUrl, loggedIn := a.loggedIn)
  }

  // ---------------------------------------------------------------------------
  // Node 1: parse the instruction with up to three completions
  // ---------------------------------------------------------------------------

  /** What one call to the completion service gives back: its text, or the
      `LLMError` raised once both models have failed. */
  datatype Reply = Completion(text: string) | ServiceFailure

  /** What `json.loads` followed by the `"steps"` test makes of a cleaned
      reply: not JSON at all (`JSONDecodeError`, caught); an object whose
      `"steps"` is a list; a value without such a list (the test is false and
      the loop moves on); or a value that cannot be searched or indexed by
      `"steps"`, such as a number, which raises `TypeError`. */
  datatype Decoded = NotJson | StepList(steps: seq<Step>) | NoStepList | NotSubscriptable

  const MaxAttempts: nat := 3

  const PromptBefore: string :=
    "\n"
    + "Convert user" + " instruction" + " into STRICT" + " JSON test " + "steps.\n"
    + "\n"
    + "Available " + "actions:\n"
    + "- " + "OPEN_BROWSER" + " (url: " + "string) - " + "Open browser" + " and " + "navigate\n"
    + "- SEARCH (" + "query: " + "string) - " + "Search on " + "current page\n"
    + "- CLICK (" + "selector: " + "string) - " + "Click " + "element\n"
    + "- TYPE (" + "selector: " + "string, " + "value: " + "string) - " + "Type text\n"
    + "- " + "CHECK_LOGIN " + "(expected: " + "bool) - " + "Verify login" + " state\n"
    + "- WAIT (" + "duration: " + "number) - " + "Wait " + "milliseconds\n"
    + "- SCREENSHOT" + " (filename: " + "string) - " + "Capture " + "screenshot\n"
    + "\n"
    + "Output ONLY " + "valid JSON:\n"
    + "{\"steps\": [." + "..]}\n"
    + "\n"
    + "Normalize " + "terms:\n"
    + "- \"insta\" \U{2192} " + "\"instagram\"\n"
    + "- \"yt\" \U{2192} \"" + "youtube\"\n"
    + "\n"
    + "Examples:\n"
    + "\n"
    + "Input: \"open" + " browser go " + "to instagram" + " check if " + "logged in\"\n"
    + "Output:\n"
    + "{\n"
    + "  \"steps\": [\n"
    + "    {\"action" + "\": \"" + "OPEN_BROWSER" + "\", \"url\": \"" + "instagram." + "com\"},\n"
    + "    {\"action" + "\": \"" + "CHECK_LOGIN\"" + ", \"expected\"" + ": true}\n"
    + "  ]\n"
    + "}\n"
    + "\n"
    + "Input: \"" + "search for " + "weather take" + " screenshot\"\n"
    + "Output:\n"
    + "{\n"
    + "  \"steps\": [\n"
    + "    {\"action" + "\": \"" + "OPEN_BROWSER" + "\", \"url\": \"" + "google.com\"},\n"
    + "    {\"action" + "\": \"SEARCH\"," + " \"query\": \"" + "weather\"},\n"
    + "    {\"action" + "\": \"" + "SCREENSHOT\"," + " \"filename\":" + " \"weather." + "png\"}\n"
    + "  ]\n"
    + "}\n"
    + "\n"
    + "User " + "instruction: "

  const PromptAfter: string := "\nOutput (" + "JSON only):\n"

  /** The parser prompt with the instruction filled in. */
  function Prompt(instruction: string): string {
    PromptBefore + instruction + PromptAfter
  }

  const Fence: string := "```"

  /** The Markdown clean-up applied to a completion before decoding: the
      stripped reply, or, when it starts with a fence, the lines between its
      first and its last line, with a leading `json` tag and the whitespace
      after it removed. */
  function CleanReply(reply: string): (r: string)
    ensures !StartsWith(Strip(reply), Fence) ==> r == Strip(reply)
  {
    var raw := Strip(reply);
    if StartsWith(raw, Fence) then
      var lines := Split(raw, "\n");
      var inner := if |lines| < 2 then "" else Join(lines[1..|lines| - 1], "\n");
      if StartsWith(inner, "json") then Strip(inner[4..]) else inner
    else
      raw
  }

  /** A fenced reply that fits on one line leaves nothing to decode. */
  lemma OneLineFenceIsEmpty(reply: string)
    requires StartsWith(Strip(reply), Fence) && '\n' !in Strip(reply)
    ensures CleanReply(reply) == ""
  {
    var raw := Strip(reply);
    ContainsChar(raw, '\n');
    assert Split(raw, "\n") == [raw];
  }

  /** Splitting `head + "\n" + payload + "\n" + last` at its newlines, where
      neither `head` nor `last` holds a newline, gives `head` as the first
      line, `last` as the last, and the payload as the lines in between. */
  lemma FencedLines(head: string, payload: string, last: string)
    requires '\n' !in head && '\n' !in last
    ensures var lines := Split(head + "\n" + payload + "\n" + last, "\n");
      && |lines| >= 3
      && Join(lines[1..|lines| - 1], "\n") == payload
  {
    var tail := payload + "\n" + last;
    var s := head + "\n" + payload + "\n" + last;
    assert s == head + "\n" + tail;
    var lines := Split(s, "\n");
    JoinSplit(s, "\n");
    SplitPiecesFree(s, "\n");
    assert tail[|payload|] == '\n';
    assert s[|head|] == '\n';
    forall k | 0 <= k < |lines|
      ensures '\n' !in lines[k]
    {
      ContainsChar(lines[k], '\n');
    }
    if |lines| == 1 {
      assert false;
    } else if |lines| == 2 {
      assert s == lines[0] + "\n" + lines[1];
      FirstSeparator(lines[0], lines[1], head, tail, '\n');
      assert false;
    } else {
      var middle := Join(lines[1..|lines| - 1], "\n");
      JoinMiddle(lines, "\n");
      AppendAssociative(lines[0] + "\n", middle, "\n");
      AppendAssociative(lines[0] + "\n", middle + "\n", Last(lines));
      FirstSeparator(lines[0], middle + "\n" + Last(lines), head, tail, '\n');
      LastSeparator(middle, Last(lines), payload, last, '\n');
    }
  }

  /** A fenced reply of three or more lines: whatever its opening line (any
      tag after the fence) and whatever its last line (a closing fence, or
      the last line of a reply whose fence was never closed), what is left
      is the lines in between, except that a payload that itself starts with
      `json` loses that word and the whitespace around the rest. */
  lemma FencedPayloadRecovered(reply: string, head: string, payload: string, last: string)
    requires Strip(reply) == head + "\n" + payload + "\n" + last
    requires StartsWith(head, Fence) && '\n' !in head && '\n' !in last
    ensures CleanReply(reply) == if StartsWith(payload, "json") then Strip(payload[4..]) else payload
  {
    var s := head + "\n" + payload + "\n" + last;
    assert s[..|Fence|] == head[..|Fence|];
    FencedLines(head, payload, last);
  }

  /** A fenced reply of exactly two lines, such as an opening fence followed
      by the whole JSON on one line with no closing fence, leaves nothing to
      decode: both lines are dropped. */
  lemma TwoLineFenceIsEmpty(reply: string, head: string, last: string)
    requires Strip(reply) == head + "\n" + last
    requires StartsWith(head, Fence) && '\n' !in head && '\n' !in last
    ensures CleanReply(reply) == ""
  {
    var s := head + "\n" + last;
    assert s[..|Fence|] == head[..|Fence|];
    SplitAtFirstChar(head, last, '\n');
    SplitWithoutChar(last, '\n');
    assert Split(s, "\n") == [head, last];
  }

  /** The verdict on one attempt. */
  datatype Attempt = Accepted(steps: seq<Step>) | Retry | Raised(error: PyError)

  /** One pass of the retry loop's body on a reply. */
  function TryReply(reply: Reply, decode: string -> Decoded): (r: Attempt)
    ensures r.Raised? ==> r.error == LLMError || r.error == TypeError
  {
    match reply
    case ServiceFailure => Raised(LLMError)
    case Completion(text) =>
      match decode(CleanReply(text))
      case NotJson => Retry
      case NoStepList => Retry
      case NotSubscriptable => Raised(TypeError)
      case StepList(steps) => Accepted(steps)
  }

  /** The verdicts on the loop's attempts, by attempt number; the completion
      service is an oracle indexed by the prompt and the attempt number. */
  function Trials(prompt: string, llm: (string, nat) -> Reply, decode: string -> Decoded): nat -> Attempt {
    (k: nat) => TryReply(llm(prompt, k), decode)
  }

  /** How the retry loop ends, and at which attempt. */
  datatype ParseOutcome = Found(steps: seq<Step>, at: nat) | Exhausted | Aborted(error: PyError, at: nat)

  /** The retry loop from attempt `attempt` on: the first attempt that does not
      ask for a retry decides, and three retries exhaust the loop. */
  function ParseFrom(trial: nat -> Attempt, attempt: nat): (r: ParseOutcome)
    ensures r.Found? ==> attempt <= r.at < MaxAttempts && trial(r.at) == Accepted(r.steps)
    ensures r.Aborted? ==> attempt <= r.at < MaxAttempts && trial(r.at) == Raised(r.error)
    ensures !r.Exhausted? ==> forall j :: attempt <= j < r.at ==> trial(j).Retry?
    ensures r.Exhausted? <==> forall j :: attempt <= j < MaxAttempts ==> trial(j).Retry?
    decreases MaxAttempts - attempt
  {
    if attempt >= MaxAttempts then Exhausted
    else
      match trial(attempt)
      case Accepted(steps) => Found(steps, attempt)
      case Raised(e) => Aborted(e, attempt)
      case Retry => ParseFrom(trial, attempt + 1)
  }

  /** The loop asks the service at most three times: oracles that agree on
      the first three attempts lead to the same outcome. */
  lemma {:induction false} ParseFromUsesThreeReplies(trial1: nat -> Attempt, trial2: nat -> Attempt, attempt: nat)
    requires forall k :: attempt <= k < MaxAttempts ==> trial1(k) == trial2(k)
    ensures ParseFrom(trial1, attempt) == ParseFrom(trial2, attempt)
    decreases MaxAttempts - attempt
  {
    if attempt < MaxAttempts {
      ParseFromUsesThreeReplies(trial1, trial2, attempt + 1);
    }
  }

  /** The record after a successful parse. */
  function Parsed(state: TestState, steps: seq<Step>): TestState {
    state.(parsedSteps := steps, parsingStatus := "success",
           browserOpen := false, currentUrl := "", loggedIn := false)
  }

  /** The node's result once the prompt is built: the outcome of the retry
      loop, recorded in the state. */
  function ParseWith(state: TestState, prompt: string, llm: (string, nat) -> Reply, decode: string -> Decoded): Result<TestState, PyError> {
    match ParseFrom(Trials(prompt, llm, decode), 0)
    case Found(steps, _) => Ok(Parsed(state, steps))
    case Exhausted => Ok(state.(parsedSteps := [], parsingStatus := "failed"))
    case Aborted(e, _) => Err(e)
  }

  /** Node 1 as a function of the record and the two oracles. */
  function Parse(state: TestState, llm: (string, nat) -> Reply, decode: string -> Decoded): (r: Result<TestState, PyError>)
    ensures r.Ok? ==> SameOutsideParse(state, r.value)
    ensures r.Ok? ==> r.value.parsingStatus == "success" || r.value.parsingStatus == "failed"
    ensures r.Ok? && r.value.parsingStatus == "success" ==>
      && !r.value.browserOpen && r.value.currentUrl == "" && !r.value.loggedIn
      && exists k :: 0 <= k < MaxAttempts
           && Trials(Prompt(state.userInstruction), llm, decode)(k) == Accepted(r.value.parsedSteps)
    ensures r.Ok? && r.value.parsingStatus == "failed" ==>
      && r.value.parsedSteps == []
      && r.value.browserOpen == state.browserOpen
      && r.value.currentUrl == state.currentUrl
      && r.value.loggedIn == state.loggedIn
      && forall k :: 0 <= k < MaxAttempts ==> Trials(Prompt(state.userInstruction), llm, decode)(k).Retry?
    ensures r.Err? ==> exists k :: (0 <= k < MaxAttempts
           && Trials(Prompt(state.userInstruction), llm, decode)(k) == Raised(r.error))
  {
    ParseWith(state, Prompt(state.userInstruction), llm, decode)
  }

  /** The parse fails exactly when all three attempts ask for a retry. */
  lemma ParseFailsIffAllRetry(state: TestState, llm: (string, nat) -> Reply, decode: string -> Decoded)
    ensures (Parse(state, llm, decode).Ok? && Parse(state, llm, decode).value.parsingStatus == "failed")
        <==> forall k :: 0 <= k < MaxAttempts ==> Trials(Prompt(state.userInstruction), llm, decode)(k).Retry?
  {
    var r := ParseFrom(Trials(Prompt(state.userInstruction), llm, decode), 0);
    if r.Found? {
      assert Trials(Prompt(state.userInstruction), llm, decode)(r.at).Accepted?;
    } else if r.Aborted? {
      assert Trials(Prompt(state.userInstruction), llm, decode)(r.at).Raised?;
    }
  }

  /** The first accepted attempt decides: when attempt `k` accepts and every
      earlier one asked for a retry, the parse succeeds with attempt `k`'s steps. */
  lemma ParseTakesFirstAccepted(state: TestState, llm: (string, nat) -> Reply, decode: string -> Decoded, k: nat)
    requires k < MaxAttempts
    requires Trials(Prompt(state.userInstruction), llm, decode)(k).Accepted?
    requires forall j :: 0 <= j < k ==> Trials(Prompt(state.userInstruction), llm, decode)(j).Retry?
    ensures Parse(state, llm, decode)
         == Ok(Parsed(state, Trials(Prompt(state.userInstruction), llm, decode)(k).steps))
  {
    ParseFromFirstAccepted(Trials(Prompt(state.userInstruction), llm, decode), 0, k);
  }

  /** From attempt `attempt` on, the loop ends at the first accepting attempt
      when every attempt before it asked for a retry. */
  lemma {:induction false} ParseFromFirstAccepted(trial: nat -> Attempt, attempt: nat, k: nat)
    requires attempt <= k < MaxAttempts && trial(k).Accepted?
    requires forall j :: attempt <= j < k ==> trial(j).Retry?
    ensures ParseFrom(trial, attempt) == Found(trial(k).steps, k)
    decreases k - attempt
  {
    if attempt < k {
      ParseFromFirstAccepted(trial, attempt + 1, k);
    }
  }

  /** `parse_instruction`: at most three attempts, returning on the first
      decoded step list, skipping undecodable or step-less replies, and
      letting `LLMError` and `TypeError` escape. */
  method ParseInstruction(state: TestState, llm: (string, nat) -> Reply, decode: string -> Decoded)
    returns (r: Result<TestState, PyError>)
    ensures r == Parse(state, llm, decode)
  {
    var prompt := Prompt(state.userInstruction);
    r := RetryLoop(state, prompt, llm, decode);
  }

  /** The loop of `parse_instruction` on the built prompt. */
  method RetryLoop(state: TestState, prompt: string, llm: (string, nat) -> Reply, decode: string -> Decoded)
    returns (r: Result<TestState, PyError>)
    ensures r == ParseWith(state, prompt, llm, decode)
  {
    ghost var trial := Trials(prompt, llm, decode);
    for attempt := 0 to MaxAttempts
      invariant ParseFrom(trial, attempt) == ParseFrom(trial, 0)
    {
      var reply := llm(prompt, attempt);
      assert trial(attempt) == TryReply(reply, decode);
      if reply.ServiceFailure? {
        return Err(LLMError);
      }
      var raw := CleanReply(reply.text);
      var parsed := decode(raw);
      if parsed.NotJson? {
        continue;
      }
      if parsed.NotSubscriptable? {
        return Err(TypeError);
      }
      if parsed.StepList? {
        return Ok(Parsed(state, parsed.steps));
      }
    }
    return Ok(state.(parsedSteps := [], parsingStatus := "failed"));
  }

  // ---------------------------------------------------------------------------
  // Node 2: predict the browser state
  // ---------------------------------------------------------------------------

  datatype Prediction = Prediction(browserOpen: bool, currentUrl: string, loggedIn: bool)

  const NothingOpen: Prediction := Prediction(false, "", false)

  /** The effect of one step on the prediction: opening a browser records the
      normalised URL, a login check records its expected value (false by
      default), and every other step leaves the prediction alone. */
  function Observe(p: Prediction, step: Step): Prediction {
    if IsAction(step, OPEN_BROWSER) then
      p.(browserOpen := true, currentUrl := NormalizeUrl(step.url.GetOr("")))
    else if IsAction(step, CHECK_LOGIN) then
      p.(loggedIn := step.expected.GetOr(false))
    else
      p
  }

  /** The prediction after all of `steps`, observed in order. */
  function Predict(steps: seq<Step>): Prediction {
    if steps == [] then NothingOpen
    else Observe(Predict(steps[..|steps| - 1]), steps[|steps| - 1])
  }

  /** Node 2 on the record: the prediction replaces the browser fields. */
  function Track(state: TestState): (r: TestState)
    ensures SameOutsideBrowser(state, r)
  {
    var p := Predict(state.parsedSteps);
    state.(browserOpen := p.browserOpen, currentUrl := p.currentUrl, loggedIn := p.loggedIn)
  }

  /** `track_browser_state`: one pass over the steps updating three locals. */
  method TrackBrowserState(state: TestState) returns (r: TestState)
    ensures r == Track(state)
  {
    var browserOpen := false;
    var currentUrl := "";
    var loggedIn := false;
    var steps := state.parsedSteps;
    for i := 0 to |steps|
      invariant Prediction(browserOpen, currentUrl, loggedIn) == Predict(steps[..i])
    {
      var step := steps[i];
      var action := step.action;
      if action == Some(OPEN_BROWSER) {
        browserOpen := true;
        var url := step.url.GetOr("");
        if !StartsWith(url, "http") {
          url := "https://" + url;
        }
        currentUrl := url;
      } else if action == Some(CHECK_LOGIN) {
        loggedIn := step.expected.GetOr(false);
      }
      assert steps[..i + 1][..i] == steps[..i];
    }
    assert steps[..|steps|] == steps;
    r := state.(browserOpen := browserOpen, currentUrl := currentUrl, loggedIn := loggedIn);
  }

  /** The prediction of `steps + [step]` is the prediction of `steps` observed
      through `step`. */
  lemma PredictSnoc(steps: seq<Step>, step: Step)
    ensures Predict(steps + [step]) == Observe(Predict(steps), step)
  {
    assert (steps + [step])[..|steps|] == steps;
  }

  /** The browser is predicted open exactly when some step opens it. */
  lemma {:induction false} PredictOpen(steps: seq<Step>)
    ensures Predict(steps).browserOpen <==> exists k :: 0 <= k < |steps| && IsAction(steps[k], OPEN_BROWSER)
  {
    if steps != [] {
      var init := steps[..|steps| - 1];
      PredictOpen(init);
      assert forall k :: 0 <= k < |init| ==> init[k] == steps[k];
      if Predict(steps).browserOpen && !IsAction(steps[|steps| - 1], OPEN_BROWSER) {
        var k :| 0 <= k < |init| && IsAction(init[k], OPEN_BROWSER);
        assert IsAction(steps[k], OPEN_BROWSER);
      }
    }
  }

  /** With no step opening a browser the predicted URL stays empty. */
  lemma {:induction false} PredictNoUrl(steps: seq<Step>)
    requires forall k :: 0 <= k < |steps| ==> !IsAction(steps[k], OPEN_BROWSER)
    ensures Predict(steps).currentUrl == ""
  {
    if steps != [] {
      var init := steps[..|steps| - 1];
      assert forall k :: 0 <= k < |init| ==> init[k] == steps[k];
      PredictNoUrl(init);
    }
  }

  /** The predicted URL is the normalised URL of the last step that opens a
      browser (the empty URL when that step names none). */
  lemma {:induction false} PredictUrl(steps: seq<Step>, k: nat)
    requires k < |steps| && IsAction(steps[k], OPEN_BROWSER)
    requires forall j :: k < j < |steps| ==> !IsAction(steps[j], OPEN_BROWSER)
    ensures Predict(steps).currentUrl == NormalizeUrl(steps[k].url.GetOr(""))
  {
    if k < |steps| - 1 {
      var init := steps[..|steps| - 1];
      assert forall j :: 0 <= j < |init| ==> init[j] == steps[j];
      PredictUrl(init, k);
    }
  }

  /** With no login check the login is predicted false. */
  lemma {:induction false} PredictNoLogin(steps: seq<Step>)
    requires forall k :: 0 <= k < |steps| ==> !IsAction(steps[k], CHECK_LOGIN)
    ensures !Predict(steps).loggedIn
  {
    if steps != [] {
      var init := steps[..|steps| - 1];
      assert forall k :: 0 <= k < |init| ==> init[k] == steps[k];
      PredictNoLogin(init);
    }
  }

  /** The predicted login is the expected value of the last login check,
      false when that check names none. */
  lemma {:induction false} PredictLogin(steps: seq<Step>, k: nat)
    requires k < |steps| && IsAction(steps[k], CHECK_LOGIN)
    requires forall j :: k < j < |steps| ==> !IsAction(steps[j], CHECK_LOGIN)
    ensures Predict(steps).loggedIn == steps[k].expected.GetOr(false)
  {
    if k < |steps| - 1 {
      var init := steps[..|steps| - 1];
      assert forall j :: 0 <= j < |init| ==> init[j] == steps[j];
      PredictLogin(init, k);
    }
  }

  /** The node ignores the browser fields it is given, so running it twice
      changes nothing more. */
  lemma TrackIdempotent(state: TestState)
    ensures Track(Track(state)) == Track(state)
  {
  }

  /** The prediction and the compiled script agree on where the browser goes:
      the block of the last step that opens a browser navigates to the
      predicted URL. */
  lemma ScriptNavigatesToPredictedUrl(steps: seq<Step>, k: nat)
    requires k < |steps| && IsAction(steps[k], OPEN_BROWSER)
    requires forall j :: k < j < |steps| ==> !IsAction(steps[j], OPEN_BROWSER)
    ensures StepLines(k + 1, steps[k])
         == [StepHeader(k + 1, steps[k].action)] + OpenBrowserLines(Predict(steps).currentUrl)
  {
    OpenBrowserNavigates(k + 1, steps[k]);
    PredictUrl(steps, k);
  }

  // ---------------------------------------------------------------------------
  // Nodes 3 to 5 and the skip guard
  // ---------------------------------------------------------------------------

  /** Node 3: the compiled script of the parsed steps becomes the code. */
  function GenerateCode(state: TestState): (r: TestState)
    ensures r == state.(generatedCode := r.generatedCode)
    ensures r.generatedCode == Script(state.parsedSteps)
  {
    state.(generatedCode := Script(state.parsedSteps))
  }

  const TestDir: string := "app/" + "generated_tests"

  /** Node 4 without the file system: the code goes to
      `app/generated_tests/test_<timestamp>.py`, where the timestamp is the
      wall-clock time the caller supplies. */
  function SaveCode(state: TestState, timestamp: string): (r: TestState)
    ensures r == state.(codeFilePath := r.codeFilePath)
    ensures r.codeFilePath == TestDir + "/test_" + timestamp + ".py"
    ensures StartsWith(r.codeFilePath, TestDir + "/test_")
    ensures EndsWith(r.codeFilePath, ".py")
  {
    state.(codeFilePath := TestDir + "/" + "test_" + timestamp + ".py")
  }

  datatype Route = Execute | Skip

  /** The guard after node 4: execute only a successful, non-empty parse. */
  function ShouldExecute(state: TestState): (r: Route)
    ensures r == Execute <==> state.parsingStatus == "success" && |state.parsedSteps| > 0
  {
    if state.parsingStatus == "success" && state.parsedSteps != [] then Execute else Skip
  }

  /** Node 5: run the saved script and report. The node reports a pass for
      every exit status; only a timeout, which escapes, stops it. */
  function ExecuteTest(state: TestState, process: ProcessOutcome): (r: Result<TestState, PyError>)
    ensures r.Ok? <==> process.Exited?
    ensures r.Err? ==> r.error == TimeoutExpired
    ensures r.Ok? ==>
      && r.value.executionStatus == "passed" && r.value.testPassed
      && r.value.executionOutput == LiveOutputNotice && r.value.executionErrors == ""
      && r.value == state.(executionStatus := "passed", executionOutput := LiveOutputNotice,
                           executionErrors := "", testPassed := true)
  {
    match ExecutePythonTest(process)
    case Err(e) => Err(e)
    case Ok(result) =>
      Ok(state.(executionStatus := "passed", executionOutput := result.output,
                executionErrors := result.errors, testPassed := true))
  }

  /** The node and the executor disagree on a failing script: the executor
      calls exit status 1 a failure while the node reports a pass, and the
      node's record does not depend on the exit status at all. */
  lemma ExecuteIgnoresExitStatus(state: TestState, code: int)
    ensures ExecutePythonTest(Exited(1)).value.status == "failed"
    ensures ExecuteTest(state, Exited(1)).value.executionStatus == "passed"
    ensures ExecuteTest(state, Exited(code)) == ExecuteTest(state, Exited(0))
  {
  }

  // ---------------------------------------------------------------------------
  // The whole workflow
  // ---------------------------------------------------------------------------

  /** parse → track → generate → save → (execute | skip). Every run that
      does not raise has compiled the parsed steps and saved them under the
      timestamped name, and a run that took the execute branch reports a pass. */
  function Run(initial: TestState, llm: (string, nat) -> Reply, decode: string -> Decoded,
               timestamp: string, process: ProcessOutcome): (r: Result<TestState, PyError>)
    ensures r.Ok? ==> r.value.generatedCode == Script(r.value.parsedSteps)
    ensures r.Ok? ==> r.value.codeFilePath == TestDir + "/test_" + timestamp + ".py"
    ensures r.Ok? && ShouldExecute(r.value) == Execute ==> r.value.executionStatus == "passed" && r.value.testPassed
  {
    match Parse(initial, llm, decode)
    case Err(e) => Err(e)
    case Ok(parsed) =>
      var saved := SaveCode(GenerateCode(Track(parsed)), timestamp);
      match ShouldExecute(saved)
      case Skip => Ok(saved)
      case Execute => ExecuteTest(saved, process)
  }

  /** A workflow that is skipped keeps the caller's execution fields, still
      compiles and saves a script, and predicts the browser from the steps. */
  lemma RunSkipped(initial: TestState, llm: (string, nat) -> Reply, decode: string -> Decoded,
                   timestamp: string, process: ProcessOutcome)
    requires Parse(initial, llm, decode).Ok?
    requires ShouldExecute(Parse(initial, llm, decode).value) == Skip
    ensures var parsed := Parse(initial, llm, decode).value;
      && Run(initial, llm, decode, timestamp, process).Ok?
      && var s := Run(initial, llm, decode, timestamp, process).value;
      && s.parsedSteps == parsed.parsedSteps
      && s.parsingStatus == parsed.parsingStatus
      && s.generatedCode == Script(parsed.parsedSteps)
      && s.codeFilePath == SaveCode(parsed, timestamp).codeFilePath
      && Prediction(s.browserOpen, s.currentUrl, s.loggedIn) == Predict(parsed.parsedSteps)
      && s.executionStatus == initial.executionStatus
      && s.executionOutput == initial.executionOutput
      && s.executionErrors == initial.executionErrors
      && s.testPassed == initial.testPassed
  {
  }

  /** A failed parse, or a successful one without steps, skips execution and
      leaves the empty script of header and footer. */
  lemma RunWithoutStepsSkips(initial: TestState, llm: (string, nat) -> Reply, decode: string -> Decoded,
                             timestamp: string, process: ProcessOutcome)
    requires Parse(initial, llm, decode).Ok?
    requires Parse(initial, llm, decode).value.parsedSteps == []
    ensures Run(initial, llm, decode, timestamp, process).Ok?
    ensures Run(initial, llm, decode, timestamp, process).value.generatedCode
         == Join(HeaderLines, "") + Join(FooterLines, "")
    ensures Run(initial, llm, decode, timestamp, process).value.executionStatus == initial.executionStatus
  {
    EmptyScript();
  }

  /** A parse with steps always ends in a reported pass, unless the script
      times out, which escapes as an error. */
  lemma RunExecuted(initial: TestState, llm: (string, nat) -> Reply, decode: string -> Decoded,
                    timestamp: string, process: ProcessOutcome)
    requires Parse(initial, llm, decode).Ok?
    requires Parse(initial, llm, decode).value.parsingStatus == "success"
    requires Parse(initial, llm, decode).value.parsedSteps != []
    ensures process.TimedOut? ==> Run(initial, llm, decode, timestamp, process) == Err(TimeoutExpired)
    ensures process.Exited? ==>
      && Run(initial, llm, decode, timestamp, process).Ok?
      && var s := Run(initial, llm, decode, timestamp, process).value;
      && s.executionStatus == "passed" && s.testPassed
      && s.generatedCode == Script(s.parsedSteps)
      && Prediction(s.browserOpen, s.currentUrl, s.loggedIn) == Predict(s.parsedSteps)
  {
  }

  /** An escaping error of the parse ends the workflow with that error. */
  lemma RunAborted(initial: TestState, llm: (string, nat) -> Reply, decode: string -> Decoded,
                   timestamp: string, process: ProcessOutcome)
    requires Parse(initial, llm, decode).Err?
    ensures Run(initial, llm, decode, timestamp, process) == Err(Parse(initial, llm, decode).error)
    ensures Run(initial, llm, decode, timestamp, process).error == LLMError
         || Run(initial, llm, decode, timestamp, process).error == TypeError
  {
    var trials := Trials(Prompt(initial.userInstruction), llm, decode);
    var r := ParseFrom(trials, 0);
    assert trials(r.at) == TryReply(llm(Prompt(initial.userInstruction), r.at), decode);
  }

  /** The whole workflow reads at most three completions. */
  lemma RunUsesThreeReplies(initial: TestState, llm1: (string, nat) -> Reply, llm2: (string, nat) -> Reply,
                            decode: string -> Decoded, timestamp: string, process: ProcessOutcome)
    requires forall k :: (0 <= k < MaxAttempts
      ==> llm1(Prompt(initial.userInstruction), k) == llm2(Prompt(initial.userInstruction), k))
    ensures Run(initial, llm1, decode, timestamp, process) == Run(initial, llm2, decode, timestamp, process)
  {
    ParseFromUsesThreeReplies(Trials(Prompt(initial.userInstruction), llm1, decode),
                              Trials(Prompt(initial.userInstruction), llm2, decode), 0);
  }

  /** From the chat endpoint's fresh record, a run whose parse fails never
      reaches execution: the execution status stays empty. */
  lemma FreshRunWithoutStepsNotPassed(message: string, llm: (string, nat) -> Reply, decode: string -> Decoded,
                                      timestamp: string, process: ProcessOutcome)
    requires forall k :: 0 <= k < MaxAttempts ==> Trials(Prompt(message), llm, decode)(k).Retry?
    ensures Run(Fresh(message), llm, decode, timestamp, process).Ok?
    ensures Run(Fresh(message), llm, decode, timestamp, process).value.parsingStatus == "failed"
    ensures Run(Fresh(message), llm, decode, timestamp, process).value.executionStatus == ""
    ensures !Run(Fresh(message), llm, decode, timestamp, process).value.testPassed
  {
    ParseFailsIffAllRetry(Fresh(message), llm, decode);
  }
}
