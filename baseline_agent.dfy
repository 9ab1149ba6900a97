/** The rule-based baseline parser: three fixed phrases, matched in the
    lower-cased input, each contributing one step in a fixed order. */
module BaselineAgent {
  import opened Text
  import opened Steps

  /** The two pages the baseline knows how to open. */
  datatype Site = Google | Amazon

  /** The steps the baseline can produce. Its browser step names its page
      under `target`, not under the `url` key the workflow's steps use. */
  datatype RuleStep = OpenBrowser(site: Site) | Search(query: string)

  /** The node's output record: the input as given, and the step list that
      the node serialises as JSON. */
  datatype Response = Response(input: string, steps: seq<RuleStep>)

  /** The `target` URL written for each site. */
  function Target(site: Site): (r: string)
    ensures StartsWith(r, "https://www.")
  {
    match site
    case Google => "https://www." + "google.com"
    case Amazon => "https://www." + "amazon.com"
  }

  /** The targets are absolute URLs already: the workflow's URL rule, which
      puts "https://" in front of anything not starting with "http", leaves
      them as they are, so either agent's script opens the same page. */
  lemma TargetIsNormal(site: Site)
    ensures NormalizeUrl(Target(site)) == Target(site)
  {
    assert Target(site)[..4] == "https://www."[..4];
  }

  const OpenGoogle: string := "open google"
  const OpenAmazon: string := "open amazon"
  const SearchFor: string := "search for"

  /** The query: whatever follows the last "search for", stripped. */
  function SearchQuery(text: string): string {
    Strip(Last(Split(text, SearchFor)))
  }

  /** Position of a step in the fixed output order. */
  function Rank(step: RuleStep): nat {
    match step
    case OpenBrowser(Google) => 0
    case OpenBrowser(Amazon) => 1
    case Search(_) => 2
  }

  /** The one-step list `[step]` when the rule fires, the empty list otherwise. */
  function Optional(fires: bool, step: RuleStep): (r: seq<RuleStep>)
    ensures r == [] || r == [step]
    ensures step in r <==> fires
  {
    if fires then [step] else []
  }

  /** The steps the three rules produce for an already lower-cased text. */
  function RuleSteps(text: string): (r: seq<RuleStep>)
    ensures |r| <= 3
    ensures OpenBrowser(Google) in r <==> Contains(text, OpenGoogle)
    ensures OpenBrowser(Amazon) in r <==> Contains(text, OpenAmazon)
    ensures Search(SearchQuery(text)) in r <==> Contains(text, SearchFor)
    ensures r == [] <==> !Contains(text, OpenGoogle) && !Contains(text, OpenAmazon) && !Contains(text, SearchFor)
  {
    Optional(Contains(text, OpenGoogle), OpenBrowser(Google))
    + Optional(Contains(text, OpenAmazon), OpenBrowser(Amazon))
    + Optional(Contains(text, SearchFor), Search(SearchQuery(text)))
  }

  /** The steps always come in the fixed order Google, Amazon, search,
      whatever the order of the phrases in the text, and a search step
      carries the query. */
  lemma RuleStepsOrdered(text: string)
    ensures var r := RuleSteps(text);
      && (forall j, k :: 0 <= j < k < |r| ==> Rank(r[j]) < Rank(r[k]))
      && (forall k :: 0 <= k < |r| && r[k].Search? ==> r[k].query == SearchQuery(text))
  {
    var g := Optional(Contains(text, OpenGoogle), OpenBrowser(Google));
    var a := Optional(Contains(text, OpenAmazon), OpenBrowser(Amazon));
    var s := Optional(Contains(text, SearchFor), Search(SearchQuery(text)));
    assert RuleSteps(text) == g + a + s;
    OptionalsInOrder(g, a, s, SearchQuery(text));
  }

  /** Three optional single steps of rising rank, concatenated, are in
      strictly rising rank order. */
  lemma OptionalsInOrder(g: seq<RuleStep>, a: seq<RuleStep>, s: seq<RuleStep>, query: string)
    requires g == [] || g == [OpenBrowser(Google)]
    requires a == [] || a == [OpenBrowser(Amazon)]
    requires s == [] || s == [Search(query)]
    ensures var r := g + a + s;
      && (forall j, k :: 0 <= j < k < |r| ==> Rank(r[j]) < Rank(r[k]))
      && (forall k :: 0 <= k < |r| && r[k].Search? ==> r[k].query == query)
  {
  }

  /** `respond`: lower-case the input and append one step per matching rule. */
  method Respond(input: string) returns (r: Response)
    ensures r.input == input
    ensures r.steps == RuleSteps(Lower(input))
  {
    var text := Lower(input);
    var steps: seq<RuleStep> := [];
    if Contains(text, OpenGoogle) {
      steps := steps + [OpenBrowser(Google)];
    }
    ghost var google := steps;
    if Contains(text, OpenAmazon) {
      steps := steps + [OpenBrowser(Amazon)];
    }
    ghost var amazon := steps[|google|..];
    assert steps == google + amazon;
    if Contains(text, SearchFor) {
      var query := Strip(Last(Split(text, SearchFor)));
      steps := steps + [Search(query)];
    }
    ghost var search := steps[|google| + |amazon|..];
    assert steps == google + amazon + search;
    assert google == Optional(Contains(text, OpenGoogle), OpenBrowser(Google));
    assert amazon == Optional(Contains(text, OpenAmazon), OpenBrowser(Amazon));
    assert search == Optional(Contains(text, SearchFor), Search(SearchQuery(text)));
    r := Response(input, steps);
  }

  /** The rules ignore case: a phrase written in any mix of cases still
      fires its rule. */
  lemma RulesIgnoreCase(input: string, phrase: string)
    requires Contains(input, phrase)
    ensures Lower(phrase) == OpenGoogle ==> OpenBrowser(Google) in RuleSteps(Lower(input))
    ensures Lower(phrase) == OpenAmazon ==> OpenBrowser(Amazon) in RuleSteps(Lower(input))
    ensures Lower(phrase) == SearchFor ==> Search(SearchQuery(Lower(input))) in RuleSteps(Lower(input))
  {
    LowerKeepsOccurrence(input, phrase);
  }

  /** The query is the stripped tail after the last "search for": the phrase
      sits right before that tail, and the tail holds no further occurrence. */
  lemma SearchQueryIsTail(text: string)
    requires Contains(text, SearchFor)
    ensures var i := |text| - |Last(Split(text, SearchFor))| - |SearchFor|;
      && 0 <= i
      && IsAt(text, SearchFor, i)
      && !Contains(text[i + |SearchFor|..], SearchFor)
      && SearchQuery(text) == Strip(text[i + |SearchFor|..])
  {
    SplitLastIsTail(text, SearchFor);
  }

  /** The query is cut from the lower-cased text, so it is lower case too. */
  lemma QueryIsLowerCase(input: string)
    ensures IsLower(SearchQuery(Lower(input)))
  {
    var text := Lower(input);
    LowerIsLower(input);
    SplitLastIsTail(text, SearchFor);
    var p := Last(Split(text, SearchFor));
    SliceOfLower(text, |text| - |p|, |text|);
    var q := Strip(p);
    StripIsInfix(p);
    var i := |p| - |StripStart(p)|;
    SliceOfLower(p, i, i + |q|);
  }
}
