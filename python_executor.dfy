/** The step-list-to-script compiler (`generate_python_test`) and the mapping
    from the script's exit status to a result record (`execute_python_test`).
    The script is a list of text lines, each ending in its own line break,
    joined with "" exactly as the compiler's `lines` list is. */
module PythonExecutor {
  import opened Wrappers
  import opened Text
  import opened Steps

  const I12: string := "            "
  const I16: string := I12 + "    "

  /** The fixed opening of every script: imports, browser launch, `try:`. */
  const HeaderLines: seq<string> := [
    "\"\"\"\nAuto-" + "generated " + "Playwright " + "test (" + "VISIBLE MODE" + ")\n\"\"\"\n\n",
    "from " + "playwright." + "sync_api " + "import " + "sync_playwright\n",
    "import time\n",
    "import sys\n\n",
    "def run_test" + "():\n",
    "    print(\"\U{1F3AD}" + " Starting " + "test " + "execution..." + "\")\n",
    "    with " + "sync_playwright" + "() as p:\n",
    "        " + "browser = p." + "chromium." + "launch(" + "headless=" + "False, " + "slow_mo=900)\n",
    "        " + "context = " + "browser." + "new_context(" + "viewport={\"" + "width\":1280," + "\"height\":720" + "})\n",
    "        page" + " = context." + "new_page()\n",
    "        try:\n"
  ]

  /** The fixed closing of every script: the success path returns 0, the
      `except` path returns 1, and the exit status is `run_test()`'s result. */
  const FooterLines: seq<string> := [
    I12 + "print(\"\\n\U{2705} " + "Test " + "COMPLETED " + "successfully" + "\")\n",
    I12 + "print(\"\U{1F6D1} " + "Browser " + "stays open " + "for 20 " + "seconds\")\n",
    I12 + "time.sleep(" + "20)\n",
    I12 + "browser." + "close()\n",
    I12 + "return 0\n",
    "        " + "except " + "Exception as" + " e:\n",
    I12 + "print(f\"\U{274C} " + "Test FAILED:" + " {e}\")\n",
    I12 + "time.sleep(" + "20)\n",
    I12 + "browser." + "close()\n",
    I12 + "return 1\n\n",
    "if __name__ " + "== \"__main__" + "\":\n",
    "    sys.exit" + "(run_test())\n"
  ]

  lemma FooterExitCodes()
    ensures FooterLines[4] == I12 + "return 0\n" && FooterLines[5] == "        " + "except " + "Exception as" + " e:\n"
    ensures FooterLines[9] == I12 + "return 1\n\n" && FooterLines[11] == "    sys.exit" + "(run_test())\n"
  {
  }

  // ---------------------------------------------------------------------------
  // Quote escaping
  // ---------------------------------------------------------------------------

  /** `s.replace('"', '\\"')`: one backslash goes in front of every double quote. */
  function EscapeQuotes(s: string): (r: string)
    ensures forall k :: 0 <= k < |r| && r[k] == '"' ==> 0 < k && r[k - 1] == '\\'
  {
    if s == [] then []
    else
      var head := if s[0] == '"' then "\\\"" else [s[0]];
      var tail := EscapeQuotes(s[1..]);
      assert forall k :: |head| <= k < |head + tail| ==> (head + tail)[k] == tail[k - |head|];
      head + tail
  }

  /** Escaping adds exactly one character per double quote, and leaves a
      text without double quotes as it is. */
  lemma {:induction false} EscapeQuotesLength(s: string)
    ensures |EscapeQuotes(s)| == |s| + multiset(s)['"']
    ensures '"' !in s ==> EscapeQuotes(s) == s
  {
    if s != [] {
      EscapeQuotesLength(s[1..]);
      assert s == [s[0]] + s[1..];
    }
  }

  /** Drops the backslash in front of every escaped double quote. */
  function UnescapeQuotes(s: string): string {
    if |s| >= 2 && s[0] == '\\' && s[1] == '"' then "\"" + UnescapeQuotes(s[2..])
    else if s == [] then []
    else [s[0]] + UnescapeQuotes(s[1..])
  }

  /** Escaping changes nothing but the quotes: undoing it gives the text back. */
  lemma {:induction false} EscapeQuotesRoundTrip(s: string)
    ensures UnescapeQuotes(EscapeQuotes(s)) == s
  {
    if s != [] {
      EscapeQuotesRoundTrip(s[1..]);
      var e := EscapeQuotes(s[1..]);
      if s[0] == '"' {
        assert EscapeQuotes(s) == "\\\"" + e;
        assert EscapeQuotes(s)[2..] == e;
      } else {
        assert EscapeQuotes(s) == [s[0]] + e;
        assert EscapeQuotes(s)[1..] == e;
        assert e != [] ==> e[0] != '"';
      }
    }
  }

  // ---------------------------------------------------------------------------
  // Per-step templates
  // ---------------------------------------------------------------------------

  /** The text an f-string shows for an optional string: `None` when absent. */
  function Shown(v: Option<string>): string {
    match v
    case Some(s) => s
    case None => "None"
  }

  /** The first line of the block of the `i`-th step (counted from 1). */
  function StepHeader(i: nat, action: Option<string>): string {
    I12 + "print(\"\\n\U{27A1}\U{FE0F} " + "Step " + NatToString(i) + ": " + Shown(action) + "\")\n"
  }

  function GotoLine(url: string): string {
    I12 + "page.goto(\"" + url + "\", " + "wait_until=\"" + "domcontentloaded" + "\")\n"
  }

  function OpenBrowserLines(url: string): seq<string> {
    [ I12 + "print(\"\U{1F310} " + "Opening " + url + "\")\n",
      GotoLine(url),
      I12 + "time.sleep(3)\n" ]
  }

  /** The search block: a click and a best-effort cookie dismissal, then a
      branch on the page URL that picks the search box of Google, YouTube or
      Amazon, in that order, and raises for any other site. */
  function SearchLines(query: string): seq<string> {
    [ I12 + "print(\"\U{1F50D} " + "Searching " + "for: " + query + "\")\n",
      I12 + "page.mouse." + "click(300, " + "300)\n",
      I12 + "time.sleep(1)\n",
      I12 + "try:\n",
      I16 + "page." + "get_by_text(" + "\"Accept all\"" + ").click(" + "timeout=3000)\n",
      I12 + "except:\n",
      I16 + "pass\n",
      I12 + "if \"google.\"" + " in page.url:\n",
      I16 + "print(\"\U{1F30D} " + "Google " + "detected\")\n",
      I16 + "page." + "wait_for_selector" + "(\"textarea[" + "name=\\\"q\\\"]," + " input[name=" + "\\\"q\\\"]\", " + "timeout=" + "30000)\n",
      I16 + "page.fill(\"" + "textarea[" + "name=\\\"q\\\"]," + " input[name=" + "\\\"q\\\"]\", \"" + query + "\")\n",
      I16 + "page." + "keyboard." + "press(\"Enter" + "\")\n",
      I12 + "elif \"" + "youtube.com\"" + " in page.url:\n",
      I16 + "print(\"\U{1F4FA} " + "YouTube " + "detected\")\n",
      I16 + "page." + "wait_for_selector" + "(\"input[name" + "=\\\"" + "search_query" + "\\\"]\", " + "timeout=" + "30000)\n",
      I16 + "page.click(\"" + "input[name=\\" + "\"" + "search_query" + "\\\"]\")\n",
      I16 + "page.fill(\"" + "input[name=\\" + "\"" + "search_query" + "\\\"]\", \"" + query + "\")\n",
      I16 + "page." + "keyboard." + "press(\"Enter" + "\")\n",
      I12 + "elif \"amazon" + ".\" in page." + "url:\n",
      I16 + "print(\"\U{1F6D2} " + "Amazon " + "detected\")\n",
      I16 + "page." + "wait_for_selector" + "(\"#" + "twotabsearchtextbox" + "\", timeout=" + "30000)\n",
      I16 + "page.fill(\"#" + "twotabsearchtextbox" + "\", \"" + query + "\")\n",
      I16 + "page." + "keyboard." + "press(\"Enter" + "\")\n",
      I12 + "else:\n",
      I16 + "raise " + "Exception(\"" + "Search not " + "supported " + "for this " + "site\")\n",
      I12 + "page." + "wait_for_load_state" + "(\"" + "networkidle\")\n",
      I12 + "time.sleep(5)\n" ]
  }

  function TypeLines(selector: string, value: string): seq<string> {
    [ I12 + "print(\"\U{2328}\U{FE0F} " + "Typing " + value + " into " + selector + "\")\n",
      I12 + "page." + "wait_for_selector(\"" + selector + "\", timeout=" + "20000)\n",
      I12 + "page.click(\"" + selector + "\")\n",
      I12 + "page.fill(\"" + selector + "\", \"" + value + "\")\n",
      I12 + "time.sleep(1)\n" ]
  }

  function ClickLines(selector: string): seq<string> {
    [ I12 + "print(\"\U{1F5B1}\U{FE0F} " + "Clicking " + selector + "\")\n",
      I12 + "page." + "wait_for_selector(\"" + selector + "\", timeout=" + "20000)\n",
      I12 + "page.click(\"" + selector + "\")\n",
      I12 + "time.sleep(3)\n" ]
  }

  const WaitCallPrefix: string := I12 + "page." + "wait_for_timeout("
  const WaitCallSuffix: string := ")\n"

  function WaitLines(duration: int): seq<string> {
    [ I12 + "print(\"\U{23F1}\U{FE0F} " + "Waiting " + IntToString(duration) + "ms\")\n",
      WaitCallPrefix + IntToString(duration) + WaitCallSuffix ]
  }

  const DefaultWait: int := 3000

  /** The lines the `i`-th step contributes: its header line, then the
      template of its action; any other action contributes the header alone. */
  function StepLines(i: nat, step: Step): (r: seq<string>)
    ensures |r| >= 1 && r[0] == StepHeader(i, step.action)
  {
    [StepHeader(i, step.action)] +
    if IsAction(step, OPEN_BROWSER) then OpenBrowserLines(NormalizeUrl(step.url.GetOr("")))
    else if IsAction(step, SEARCH) then SearchLines(EscapeQuotes(step.query.GetOr("")))
    else if IsAction(step, TYPE) then TypeLines(Shown(step.selector), EscapeQuotes(step.value.GetOr("")))
    else if IsAction(step, CLICK) then ClickLines(Shown(step.selector))
    else if IsAction(step, WAIT) then WaitLines(step.duration.GetOr(DefaultWait))
    else []
  }

  /** The blocks of `steps` under the per-step renderer `render`, the first
      of them numbered `first`. */
  function Blocks(render: (nat, Step) -> seq<string>, steps: seq<Step>, first: nat): seq<string>
    decreases |steps|
  {
    if steps == [] then [] else render(first, steps[0]) + Blocks(render, steps[1..], first + 1)
  }

  function ScriptLines(steps: seq<Step>): seq<string> {
    HeaderLines + Blocks(StepLines, steps, 1) + FooterLines
  }

  /** `generate_python_test(steps)`: the joined lines of the script. */
  function Script(steps: seq<Step>): string {
    Join(ScriptLines(steps), "")
  }

  // ---------------------------------------------------------------------------
  // The compiler as the source writes it: a loop appending to `lines`
  // ---------------------------------------------------------------------------

  method GeneratePythonTest(steps: seq<Step>) returns (code: string)
    ensures code == Script(steps)
  {
    var lines := HeaderLines;
    lines := AppendStepBlocks(lines, steps);
    lines := lines + FooterLines;
    code := Join(lines, "");
  }

  /** The loop over `enumerate(steps, 1)`: appends each step's block to `lines`. */
  method AppendStepBlocks(lines0: seq<string>, steps: seq<Step>) returns (lines: seq<string>)
    ensures lines == lines0 + Blocks(StepLines, steps, 1)
  {
    lines := lines0;
    for i := 0 to |steps|
      invariant lines == lines0 + Blocks(StepLines, steps[..i], 1)
    {
      var block := StepLines(i + 1, steps[i]);
      AppendAssociative(lines0, Blocks(StepLines, steps[..i], 1), block);
      lines := lines + block;
      PrefixSnoc(steps, i);
      BlocksAppend(StepLines, steps[..i], [steps[i]], 1);
      BlocksSingle(StepLines, steps[i], i + 1);
    }
    assert steps[..|steps|] == steps;
  }

  // ---------------------------------------------------------------------------
  // What the compiled script holds
  // ---------------------------------------------------------------------------

  lemma BlocksSingle(render: (nat, Step) -> seq<string>, step: Step, n: nat)
    ensures Blocks(render, [step], n) == render(n, step)
  {
    assert [step][1..] == [];
  }

  /** Compiling one list after another numbers the second list's blocks on
      from where the first stopped. */
  lemma {:induction false} BlocksAppend(render: (nat, Step) -> seq<string>, a: seq<Step>, b: seq<Step>, first: nat)
    ensures Blocks(render, a + b, first) == Blocks(render, a, first) + Blocks(render, b, first + |a|)
    decreases |a|
  {
    if a == [] {
      assert a + b == b;
    } else {
      BlocksAppend(render, a[1..], b, first + 1);
      assert (a + b)[1..] == a[1..] + b;
    }
  }

  /** The `k`-th step (from 0) is rendered in place, numbered `k + 1`, after
      the blocks of the steps before it and before those of the steps after it. */
  lemma BlockAt(render: (nat, Step) -> seq<string>, steps: seq<Step>, k: nat)
    requires k < |steps|
    ensures Blocks(render, steps, 1)
         == Blocks(render, steps[..k], 1) + render(k + 1, steps[k]) + Blocks(render, steps[k + 1..], k + 2)
  {
    var before, from := steps[..k], steps[k..];
    assert before + from == steps;
    BlocksAppend(render, before, from, 1);
    assert from[1..] == steps[k + 1..];
    assert Blocks(render, from, k + 1) == render(k + 1, steps[k]) + Blocks(render, steps[k + 1..], k + 2);
  }

  /** The script text is the header, the step blocks in order, then the footer. */
  lemma ScriptShape(steps: seq<Step>)
    ensures Script(steps) == Join(HeaderLines, "") + Join(Blocks(StepLines, steps, 1), "") + Join(FooterLines, "")
    ensures StartsWith(Script(steps), Join(HeaderLines, ""))
    ensures EndsWith(Script(steps), Join(FooterLines, ""))
  {
    ConcatAppend(HeaderLines + Blocks(StepLines, steps, 1), FooterLines);
    ConcatAppend(HeaderLines, Blocks(StepLines, steps, 1));
  }

  /** An empty step list compiles to the header followed by the footer. */
  lemma EmptyScript()
    ensures Script([]) == Join(HeaderLines, "") + Join(FooterLines, "")
  {
    ScriptShape([]);
  }

  /** A `CHECK_LOGIN`, `SCREENSHOT`, missing or unknown action adds only its
      numbered header line. */
  lemma OtherActionsOnlyHeader(i: nat, step: Step)
    requires !IsAction(step, OPEN_BROWSER) && !IsAction(step, SEARCH) && !IsAction(step, TYPE)
    requires !IsAction(step, CLICK) && !IsAction(step, WAIT)
    ensures StepLines(i, step) == [StepHeader(i, step.action)]
  {
  }

  /** An `OPEN_BROWSER` step navigates to its URL (default "") under the
      shared "https://" rule. */
  lemma OpenBrowserNavigates(i: nat, step: Step)
    requires IsAction(step, OPEN_BROWSER)
    ensures StepLines(i, step) == [StepHeader(i, step.action)] + OpenBrowserLines(NormalizeUrl(step.url.GetOr("")))
    ensures StepLines(i, step)[2] == GotoLine(NormalizeUrl(step.url.GetOr("")))
    ensures StepLines(i, step)[3] == I12 + "time.sleep(3)\n"
  {
  }

  /** The search block tests "google.", "youtube.com" and "amazon." in that
      order and raises in its `else` branch. */
  lemma SearchSiteOrder(query: string)
    ensures SearchLines(query)[7] == I12 + "if \"google.\"" + " in page.url:\n"
    ensures SearchLines(query)[12] == I12 + "elif \"" + "youtube.com\"" + " in page.url:\n"
    ensures SearchLines(query)[18] == I12 + "elif \"amazon" + ".\" in page." + "url:\n"
    ensures SearchLines(query)[23] == I12 + "else:\n"
    ensures SearchLines(query)[24] == I16 + "raise " + "Exception(\"" + "Search not " + "supported " + "for this " + "site\")\n"
  {
  }

  /** Reads the pause back from a `page.wait_for_timeout(...)` line. */
  function ReadWaitCall(line: string): Option<int> {
    if StartsWith(line, WaitCallPrefix) && |line| >= |WaitCallPrefix| + |WaitCallSuffix|
       && EndsWith(line, WaitCallSuffix)
    then ReadInt(line[|WaitCallPrefix|..|line| - |WaitCallSuffix|])
    else None
  }

  /** A `WAIT` step's pause line carries its `duration`, or 3000 when the
      step has none. */
  lemma WaitCarriesDuration(i: nat, step: Step)
    requires IsAction(step, WAIT)
    ensures ReadWaitCall(StepLines(i, step)[2]) == Some(step.duration.GetOr(DefaultWait))
  {
    var d := step.duration.GetOr(DefaultWait);
    var line := StepLines(i, step)[2];
    assert line == WaitCallPrefix + IntToString(d) + WaitCallSuffix;
    assert line[|WaitCallPrefix|..|line| - |WaitCallSuffix|] == IntToString(d);
    IntToStringRoundTrip(d);
  }

  /** A `SEARCH` step's query reaches the three search boxes escaped, and
      undoing the escape gives the query (default "") back. */
  lemma SearchCarriesQuery(i: nat, step: Step)
    requires IsAction(step, SEARCH)
    ensures var q := EscapeQuotes(step.query.GetOr(""));
      && StepLines(i, step)[11] == I16 + "page.fill(\"" + "textarea[" + "name=\\\"q\\\"]," + " input[name=" + "\\\"q\\\"]\", \"" + q + "\")\n"
      && StepLines(i, step)[17] == I16 + "page.fill(\"" + "input[name=\\" + "\"" + "search_query" + "\\\"]\", \"" + q + "\")\n"
      && StepLines(i, step)[22] == I16 + "page.fill(\"#" + "twotabsearchtextbox" + "\", \"" + q + "\")\n"
      && UnescapeQuotes(q) == step.query.GetOr("")
  {
    EscapeQuotesRoundTrip(step.query.GetOr(""));
  }

  /** A TYPE step waits for, clicks and fills its selector, written in as
      given (an absent selector is written `None`); the value is filled in
      with its double quotes escaped, an absent value as the empty text, and
      unescaping gives the value back. */
  lemma TypeCarriesValue(i: nat, step: Step)
    requires IsAction(step, TYPE)
    ensures var sel := Shown(step.selector);
      var v := EscapeQuotes(step.value.GetOr(""));
      && |StepLines(i, step)| == 6
      && StepLines(i, step)[2] == I12 + "page." + "wait_for_selector(\"" + sel + "\", timeout=" + "20000)\n"
      && StepLines(i, step)[3] == I12 + "page.click(\"" + sel + "\")\n"
      && StepLines(i, step)[4] == I12 + "page.fill(\"" + sel + "\", \"" + v + "\")\n"
      && (step.selector.Some? ==> sel == step.selector.value)
      && (step.selector.None? ==> sel == "None")
      && UnescapeQuotes(v) == step.value.GetOr("")
  {
    EscapeQuotesRoundTrip(step.value.GetOr(""));
  }

  /** A CLICK step waits for its selector and clicks it, written in as given
      (an absent selector is written `None`), then pauses three seconds. */
  lemma ClickUsesSelector(i: nat, step: Step)
    requires IsAction(step, CLICK)
    ensures var sel := Shown(step.selector);
      && |StepLines(i, step)| == 5
      && StepLines(i, step)[2] == I12 + "page." + "wait_for_selector(\"" + sel + "\", timeout=" + "20000)\n"
      && StepLines(i, step)[3] == I12 + "page.click(\"" + sel + "\")\n"
      && StepLines(i, step)[4] == I12 + "time.sleep(3)\n"
      && (step.selector.Some? ==> sel == step.selector.value)
      && (step.selector.None? ==> sel == "None")
  {
  }

  // ---------------------------------------------------------------------------
  // Running the script
  // ---------------------------------------------------------------------------

  /** How the script's process ended: with an exit status, or killed at the
      180-second limit, which `subprocess.run` reports by raising. */
  datatype ProcessOutcome = Exited(returnCode: int) | TimedOut

  datatype ExecResult = ExecResult(status: string, output: string, errors: string, returnCode: int)

  const LiveOutputNotice: string := "Live output " + "shown in " + "terminal"

  /** `execute_python_test`: "passed" exactly when the script exits with 0;
      the exit status is passed through and the output is a fixed notice. */
  function ExecutePythonTest(process: ProcessOutcome): (r: Result<ExecResult, PyError>)
    ensures r.Ok? <==> process.Exited?
    ensures r.Err? ==> r.error == TimeoutExpired
    ensures r.Ok? ==> && (r.value.status == "passed" <==> process.returnCode == 0)
                      && (r.value.status == "passed" || r.value.status == "failed")
                      && r.value.returnCode == process.returnCode
                      && r.value.output == LiveOutputNotice
                      && r.value.errors == ""
  {
    match process
    case TimedOut => Err(TimeoutExpired)
    case Exited(code) =>
      Ok(ExecResult(if code == 0 then "passed" else "failed", LiveOutputNotice, "", code))
  }
}
