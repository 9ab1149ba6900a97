# Instruction-to-test pipeline, modelled in Dafny

The system turns a natural-language instruction ("open google search for
weather") into a list of browser-automation steps, compiles the steps into a
Playwright script, runs the script and reports the outcome. This project
models the core of that pipeline:

- **The stateful workflow** (`app/agents/test_agent.py`). A record of twelve
  fields goes through five nodes: parse, track, generate, save, and then
  execute or skip.
  - Parsing asks the completion service for JSON at most three times. It
    cleans a Markdown fence off each reply and takes the first reply that
    decodes to an object with a `"steps"` list.
  - Tracking predicts the browser state the steps will leave behind.
  - Generating compiles the steps into a script. Saving picks the file name.
  - A guard runs the script only after a successful, non-empty parse.
- **The script compiler and runner** (`app/executor/python_executor.py`). The
  compiler writes a fixed header, one numbered block per step and a fixed
  footer. The runner maps the script's exit status to "passed" or "failed".
- **The rule-based baseline** (`app/agents/baseline_agent.py`). It
  lower-cases the input and applies three phrase rules, always in the same
  order.

Each node is a Dafny function from record to record, as in the source, where
every node returns `{**state, ...}`. Exceptions that escape a node become
`Err` values of a `Result`. The loops of the source are methods proved equal
to these functions:

- `parse_instruction` is `TestAgent.ParseInstruction`;
- `track_browser_state` is `TestAgent.TrackBrowserState`;
- the compiler's `lines` accumulation is `PythonExecutor.GeneratePythonTest`
  and `PythonExecutor.AppendStepBlocks`.

The baseline's `respond` has no loop, only three conditional appends to a
list. `BaselineAgent.Respond` is a method that makes those appends in order,
and is proved equal to the function `BaselineAgent.RuleSteps`.

The external services are parameters:

- The completion service is an oracle `llm(prompt, attempt)`. It returns
  the completion text, or the `LLMError` raised once both models have failed.
- `json.loads` is an oracle `decode(text)`. It reports one of four results:
  not JSON; an object with a `"steps"` list; a value without such a list; or
  a value that cannot be searched or indexed by `"steps"`, which raises
  `TypeError`.
- The script process is a `ProcessOutcome`: an exit status, or the 180-second
  timeout.
- The save node's clock is a timestamp string.

Python's string operations are modelled in module `Text`: `strip` (with
Python's whitespace set), `startswith`, `in`, `split`, `join`, `lower` and
`str(int)`. A step is the decoded JSON object read through `dict.get`, so each
field is an `Option`.

Where the source leaves more than one reading, the model follows the code
that runs:

- The reachable body of `execute_test` reports "passed" and `test_passed =
  true` whatever the exit status (`app/agents/test_agent.py:232-238`). A
  second body after that `return` (`app/agents/test_agent.py:240-259`) maps
  exit status 0 to "passed" and anything else to "failed", but it never runs.
  `TestAgent.ExecuteIgnoresExitStatus` shows the gap: the executor calls exit
  status 1 a failure, yet the node reports a pass. The comment above the
  `return` states the always-pass rule on purpose, so the model keeps it.
- A script timeout is not turned into a failed result. `subprocess.run`
  raises `TimeoutExpired`, and nothing in the core catches it, so
  `ExecuteTest` returns `Err(TimeoutExpired)`.
- Parsing makes at most three attempts. Only a reply that is not JSON, or
  one without a `"steps"` list, leads to another attempt. A completion-service
  failure (`LLMError`) escapes at once. So does a `TypeError` from a JSON
  value that `"steps" in parsed` cannot search.

## Model

| member | source | states |
|---|---|---|
| Steps.NormalizeUrl | app/agents/test_agent.py:149-152 | the URL rule shared by tracker and compiler: the result starts with "http"; it equals the input exactly when the input already starts with "http"; otherwise it is "https://" + input |
| Steps.NormalizeUrlIdempotent | app/executor/python_executor.py:29-31 | normalising a normalised URL changes nothing |
| Text.Strip | app/agents/test_agent.py:99 | the stripped reply neither starts nor ends with whitespace |
| Text.StripIsInfix | app/agents/test_agent.py:99 | the strip is the infix of the text between its leading and trailing whitespace |
| Text.StripIdempotent | app/agents/test_agent.py:106 | stripping twice is stripping once |
| Text.FindFrom | app/agents/baseline_agent.py:16 | the index found is an occurrence, no earlier index at or after the start is one, and None means there is no occurrence at or after the start |
| Text.Split | app/agents/baseline_agent.py:31 | `str.split` with a non-empty separator gives at least one piece; its pieces hold no separator and join back to the text (Text.SplitPiecesFree, Text.JoinSplit), and the last piece is the tail after the last separator (Text.SplitLastIsTail) |
| Text.Join | app/agents/test_agent.py:104 | `str.join` undoes `str.split` with the same separator (Text.JoinSplit) |
| Text.JoinSplit | app/agents/test_agent.py:103-104 | joining the pieces of a split with the same separator gives the text back |
| Text.SplitPiecesFree | app/agents/test_agent.py:103 | no piece of a split contains the separator |
| Text.SplitLastIsTail | app/agents/baseline_agent.py:31 | the last piece of a split is the suffix after the last occurrence of the separator, with no occurrence inside it, and is the whole text when there is none |
| Text.Lower | app/agents/baseline_agent.py:12 | lower-casing keeps the length and maps each character through the ASCII lower-case map |
| Text.LowerKeepsOccurrence | app/agents/baseline_agent.py:12-16 | an occurrence of a phrase survives lower-casing of both texts |
| Text.LowerIdempotent | app/agents/baseline_agent.py:12 | lower-casing twice is lower-casing once |
| Text.NatToString | app/executor/python_executor.py:25 | the step number is printed as a non-empty string of decimal digits |
| Text.IntToString | app/executor/python_executor.py:99-102 | `str(int)` of the WAIT duration is never empty, and reads back as the same integer, negative ones included (Text.IntToStringRoundTrip) |
| Text.IntToStringRoundTrip | app/executor/python_executor.py:100-102 | the printed integer reads back as the same integer, negative ones included |
| PythonExecutor.FooterExitCodes | app/executor/python_executor.py:104-117 | the script returns 0 at the end of its guarded region, returns 1 from its exception handler, and exits with run_test's value |
| PythonExecutor.EscapeQuotes | app/executor/python_executor.py:39 | every double quote in the escaped text is preceded by a backslash |
| PythonExecutor.EscapeQuotesLength | app/executor/python_executor.py:39 | escaping adds exactly one character per double quote and leaves quote-free text unchanged |
| PythonExecutor.EscapeQuotesRoundTrip | app/executor/python_executor.py:39 | undoing the escape gives the original text back |
| PythonExecutor.StepLines | app/executor/python_executor.py:23-102 | every step's block starts with its numbered header line |
| PythonExecutor.ScriptLines | app/executor/python_executor.py:7-117 | the appended lines: the fixed header, one numbered block per step in order, the fixed footer (PythonExecutor.ScriptShape, PythonExecutor.BlockAt, PythonExecutor.EmptyScript) |
| PythonExecutor.Script | app/executor/python_executor.py:7-119 | `generate_python_test`: the lines joined with no separator; the loop-built text equals it (PythonExecutor.GeneratePythonTest) |
| PythonExecutor.GeneratePythonTest | app/executor/python_executor.py:7-119 | the loop-built script equals the header, the numbered step blocks and the footer, joined |
| PythonExecutor.AppendStepBlocks | app/executor/python_executor.py:23-102 | the loop appends each step's block, numbered from 1, in order |
| PythonExecutor.BlocksAppend | app/executor/python_executor.py:23 | compiling a list after another numbers the second list's blocks on from where the first stopped |
| PythonExecutor.BlockAt | app/executor/python_executor.py:23-25 | the k-th step's block is numbered k + 1 and sits between the blocks before and after it |
| PythonExecutor.ScriptShape | app/executor/python_executor.py:7-119 | the script is the header text, the step blocks, then the footer text; it starts with the header and ends with the footer |
| PythonExecutor.EmptyScript | app/executor/python_executor.py:10-21 | an empty step list compiles to the header followed by the footer |
| PythonExecutor.OtherActionsOnlyHeader | app/executor/python_executor.py:23-102 | a CHECK_LOGIN, SCREENSHOT, missing or unknown action adds only its header line |
| PythonExecutor.OpenBrowserNavigates | app/executor/python_executor.py:28-35 | an OPEN_BROWSER block prints, navigates to the normalised URL (default "") and sleeps 3 seconds |
| PythonExecutor.SearchSiteOrder | app/executor/python_executor.py:51-74 | the search block tests "google.", "youtube.com" and "amazon." in that order and raises in its else branch |
| PythonExecutor.WaitCarriesDuration | app/executor/python_executor.py:99-102 | a WAIT step's pause line carries its duration, or 3000 when it has none |
| PythonExecutor.SearchCarriesQuery | app/executor/python_executor.py:38-71 | the escaped query reaches the three search boxes, and unescaping it gives the query (default "") back |
| PythonExecutor.TypeCarriesValue | app/executor/python_executor.py:80-88 | a TYPE step waits for, clicks and fills its selector as given ("None" when absent), fills in the value with its quotes escaped (default ""), and unescaping gives the value back |
| PythonExecutor.ClickUsesSelector | app/executor/python_executor.py:91-96 | a CLICK step waits for and clicks its selector as given ("None" when absent), then pauses three seconds |
| PythonExecutor.ExecutePythonTest | app/executor/python_executor.py:122-137 | "passed" exactly when the exit status is 0, "failed" otherwise; the status is passed through with the fixed output notice and no errors; a timeout escapes as TimeoutExpired |
| TestAgent.Prompt | app/agents/test_agent.py:42-94 | `PARSER_PROMPT` with the instruction put in its one placeholder; the retry loop sends this one prompt on every attempt (TestAgent.RetryLoop, TestAgent.ParseInstruction) |
| TestAgent.CleanReply | app/agents/test_agent.py:99-106 | a reply that does not start with a fence is only stripped (the fenced replies are covered by the three lemmas that follow) |
| TestAgent.OneLineFenceIsEmpty | app/agents/test_agent.py:102-104 | a fenced reply on a single line leaves nothing to decode |
| TestAgent.FencedLines | app/agents/test_agent.py:103-104 | splitting a text of a first line, a payload and a last line at its newlines, and joining all lines but the first and last, gives the payload back |
| TestAgent.FencedPayloadRecovered | app/agents/test_agent.py:99-106 | a fenced reply of three or more lines yields the lines between its first and its last, whatever the tag after the opening fence and whether or not the last line is a closing fence, except that a leading "json" is dropped with the whitespace around the rest |
| TestAgent.TwoLineFenceIsEmpty | app/agents/test_agent.py:99-106 | a fenced reply of exactly two lines, such as an unclosed fence followed by one line of JSON, leaves nothing to decode |
| TestAgent.TryReply | app/agents/test_agent.py:97-123 | one attempt can only raise LLMError or TypeError |
| TestAgent.ParseFrom | app/agents/test_agent.py:96-130 | the loop ends at the first attempt that accepts or raises, all earlier attempts asked for a retry, and it is exhausted exactly when all three attempts ask for a retry |
| TestAgent.ParseFromUsesThreeReplies | app/agents/test_agent.py:96 | oracles that agree on the first three attempts give the same outcome |
| TestAgent.Parse | app/agents/test_agent.py:87-130 | only the parse and browser fields change; success resets the browser fields and carries an accepted attempt's steps; failure gives empty steps after three retries and keeps the browser fields; an error is one an attempt raised |
| TestAgent.ParseFailsIffAllRetry | app/agents/test_agent.py:96-130 | the parse fails exactly when all three attempts ask for a retry |
| TestAgent.ParseTakesFirstAccepted | app/agents/test_agent.py:108-120 | when attempt k accepts after k retries, the parse succeeds with attempt k's steps |
| TestAgent.ParseInstruction | app/agents/test_agent.py:87-130 | building the prompt and running the retry loop returns exactly what the parse function specifies |
| TestAgent.RetryLoop | app/agents/test_agent.py:96-130 | the loop of three attempts over the built prompt returns exactly the outcome of the retry function on the attempts' verdicts |
| TestAgent.Observe | app/agents/test_agent.py:144-158 | one step of the tracker: OPEN_BROWSER opens the browser at the normalised URL, CHECK_LOGIN sets the login to its expected value, other steps change nothing (TestAgent.PredictSnoc, TestAgent.PredictOpen, TestAgent.PredictUrl, TestAgent.PredictLogin) |
| TestAgent.Predict | app/agents/test_agent.py:140-158 | the tracker's fold over the steps from nothing open: open exactly when some step opens the browser, the URL of the last OPEN_BROWSER step, the login of the last CHECK_LOGIN step (TestAgent.PredictOpen, TestAgent.PredictUrl, TestAgent.PredictNoUrl, TestAgent.PredictLogin, TestAgent.PredictNoLogin) |
| TestAgent.Track | app/agents/test_agent.py:160-165 | the node changes only the three browser fields |
| TestAgent.TrackBrowserState | app/agents/test_agent.py:133-165 | the loop over the steps leaves the record the prediction function specifies |
| TestAgent.PredictSnoc | app/agents/test_agent.py:144-158 | the prediction of one more step is the old prediction observed through that step |
| TestAgent.PredictOpen | app/agents/test_agent.py:147-148 | the browser is predicted open exactly when some step opens it |
| TestAgent.PredictNoUrl | app/agents/test_agent.py:141 | with no OPEN_BROWSER step the predicted URL stays empty |
| TestAgent.PredictUrl | app/agents/test_agent.py:147-152 | the predicted URL is the normalised URL of the last OPEN_BROWSER step |
| TestAgent.PredictNoLogin | app/agents/test_agent.py:142 | with no CHECK_LOGIN step the login is predicted false |
| TestAgent.PredictLogin | app/agents/test_agent.py:155-157 | the predicted login is the expected value (default false) of the last CHECK_LOGIN step |
| TestAgent.TrackIdempotent | app/agents/test_agent.py:140-165 | tracking twice is tracking once |
| TestAgent.ScriptNavigatesToPredictedUrl | app/agents/test_agent.py:147-152 | the block of the last OPEN_BROWSER step navigates to the predicted URL |
| TestAgent.GenerateCode | app/agents/test_agent.py:168-184 | only the code field changes, and it holds the compiled script of the parsed steps |
| TestAgent.SaveCode | app/agents/test_agent.py:187-215 | only the path changes; it is app/generated_tests/test_<timestamp>.py |
| TestAgent.ShouldExecute | app/agents/test_agent.py:262-268 | execute exactly when the parse succeeded with a non-empty step list |
| TestAgent.ExecuteTest | app/agents/test_agent.py:218-238 | a finished run always reports passed, with the executor's output and errors; a timeout escapes as TimeoutExpired |
| TestAgent.ExecuteIgnoresExitStatus | app/agents/test_agent.py:226-238 | the executor calls exit status 1 a failure, but the node reports passed and does not depend on the exit status |
| TestAgent.Run | app/agents/test_agent.py:271-308 | `build_test_agent`: parse, track, generate, save, then execute or skip; a run that does not raise holds the compiled script of its steps and the timestamped path, and one that took the execute branch reports a pass (TestAgent.RunSkipped, TestAgent.RunExecuted, TestAgent.RunAborted, TestAgent.RunWithoutStepsSkips, TestAgent.RunUsesThreeReplies) |
| TestAgent.RunSkipped | app/agents/test_agent.py:271-308 | a skipped run keeps the caller's execution fields and still compiles, saves and predicts |
| TestAgent.RunWithoutStepsSkips | app/agents/test_agent.py:262-268 | a run without steps skips execution and leaves the header-and-footer script |
| TestAgent.RunExecuted | app/agents/test_agent.py:271-308 | a run with steps reports passed, with the compiled script and the prediction, unless the script times out |
| TestAgent.RunAborted | app/agents/test_agent.py:96-123 | an error escaping the parse ends the run with that error, which is LLMError or TypeError |
| TestAgent.RunUsesThreeReplies | app/agents/test_agent.py:96-98 | the run reads at most three completions |
| TestAgent.FreshRunWithoutStepsNotPassed | app/routes.py:47-60 | from the endpoint's fresh record, a run whose three attempts all fail is not executed and not passed |
| BaselineAgent.Target | app/agents/baseline_agent.py:17-27 | each browser step targets an https://www. page |
| BaselineAgent.TargetIsNormal | app/agents/baseline_agent.py:19-26 | the baseline's targets are absolute URLs that the workflow's URL rule leaves unchanged |
| BaselineAgent.Optional | app/agents/baseline_agent.py:16-35 | a rule contributes its step exactly when its phrase occurs |
| BaselineAgent.RuleSteps | app/agents/baseline_agent.py:13-35 | at most three steps; each rule's step is present exactly when its phrase occurs; no step exactly when no phrase occurs |
| BaselineAgent.RuleStepsOrdered | app/agents/baseline_agent.py:15-35 | steps come in the fixed order Google, Amazon, search, whatever the phrase order in the text |
| BaselineAgent.Respond | app/agents/baseline_agent.py:11-40 | the node keeps the input and its steps are the rules applied to the lower-cased input |
| BaselineAgent.RulesIgnoreCase | app/agents/baseline_agent.py:12-30 | a phrase in any mix of case still fires its rule |
| BaselineAgent.SearchQueryIsTail | app/agents/baseline_agent.py:30-31 | the query is the stripped text after the last "search for" |
| BaselineAgent.QueryIsLowerCase | app/agents/baseline_agent.py:12-31 | the query is lower case |

## Left out

- The completion service (`app/config/llm.py`) and its model fallback are not part of this model. They are an oracle of prompt and attempt number that yields a completion or `LLMError`.
- `json.loads` is an oracle. JSON syntax and decoding are not modelled.
- A step whose fields have the wrong JSON type (a null `url`, a numeric `query`, a list element that is not an object) is not modelled. Every step is an object whose fields are absent or have the type the pipeline expects. `duration` is an integer, although the source would print any JSON number.
- The `SCREENSHOT` action has no template in the compiler and is not special-cased. It contributes its header line only, as in the source.
- Selectors and values go into the script exactly as the source writes them. Unescaped selectors and backslashes are not checked for producing a valid script.
- `TestAgent.SaveCode` does not model the file write, `os.makedirs` or the clock. The timestamp is a parameter. The path is joined with "/" as `os.path.join` does on POSIX.
- `TestAgent.ExecuteTest` and `PythonExecutor.ExecutePythonTest` do not run a process or stream output. The process outcome is a parameter.
- The dead second body of `execute_test` (`app/agents/test_agent.py:240-259`) is not modelled. It can never run.
- `Text.Lower` maps only the ASCII letters. Python's `str.lower` also maps the other Unicode letters.
- The baseline's output text is not modelled. It is `json.dumps` of the step list with an indent of 2, and the model returns the step list itself.
- The LangGraph wiring is not modelled as a graph. `build_test_agent` is modelled as the composition `TestAgent.Run`. `build_agent` is the baseline's one-node graph (respond, then end), and `BaselineAgent.Respond` stands for it. The graph library itself is not part of this model.
- The web endpoints (`app/routes.py`, `app/main.py`, `run.py`) are not part of this model, apart from the fresh record the chat endpoint starts from (`TestAgent.Fresh`).
- Console logging (`print`) is not modelled.
