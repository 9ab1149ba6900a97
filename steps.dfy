/** The step vocabulary shared by the parser, the browser-state predictor and
    the script compiler, and the exceptions that escape a workflow node. */
module Steps {
  import opened Wrappers
  import opened Text

  /** One step as the decoded JSON object the parser hands on. The pipeline
      reads every field with `step.get(key)` or `step.get(key, default)`, so a
      field the object does not hold is `None`. */
  datatype Step = Step(
    action: Option<string>,
    url: Option<string>,
    query: Option<string>,
    selector: Option<string>,
    value: Option<string>,
    expected: Option<bool>,
    duration: Option<int>,
    filename: Option<string>)

  const OPEN_BROWSER: string := "OPEN_BROWSER"
  const SEARCH: string := "SEARCH"
  const CLICK: string := "CLICK"
  const TYPE: string := "TYPE"
  const CHECK_LOGIN: string := "CHECK_LOGIN"
  const WAIT: string := "WAIT"
  const SCREENSHOT: string := "SCREENSHOT"

  predicate IsAction(step: Step, action: string) {
    step.action == Some(action)
  }

  /** Exceptions that leave a workflow node: `LLMError` from the completion
      service, `TypeError` from indexing a decoded value that is not an
      object, `TimeoutExpired` from the 180-second limit on the script run. */
  datatype PyError = LLMError | TypeError | TimeoutExpired

  /** The URL rule shared by the predictor and the compiler: a URL that does
      not start with "http" gets "https://" in front. */
  function NormalizeUrl(url: string): (r: string)
    ensures StartsWith(r, "http")
    ensures r == url <==> StartsWith(url, "http")
    ensures r != url ==> r == "https://" + url
  {
    if StartsWith(url, "http") then url else "https://" + url
  }

  lemma NormalizeUrlIdempotent(url: string)
    ensures NormalizeUrl(NormalizeUrl(url)) == NormalizeUrl(url)
  {
  }
}
