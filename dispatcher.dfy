/**
 * The canned-response dispatcher of the AI-query endpoint: the lower-cased
 * query is searched for "resume", then "interview", then "career"; the
 * first keyword found picks the template, and a query with none of them
 * gets the general template.
 */
module Dispatcher {
  import opened Text

  /** The four fixed response templates. */
  datatype Template = ResumeAnalysis | InterviewPreparation | CareerPathGuidance | GeneralCareerAdvice

  /** Each template's HTML body is represented by its heading, a distinct constant. */
  function TemplateText(t: Template): string {
    match t
    case ResumeAnalysis => "Resume Analysis"
    case InterviewPreparation => "Interview Preparation"
    case CareerPathGuidance => "Career Path Guidance"
    case GeneralCareerAdvice => "General Career Advice"
  }

  /** The route's if / else-if chain over `query.toLowerCase().includes(...)`. */
  function Dispatch(query: string): Template {
    var lower := ToLower(query);
    if Contains(lower, "resume") then ResumeAnalysis
    else if Contains(lower, "interview") then InterviewPreparation
    else if Contains(lower, "career") then CareerPathGuidance
    else GeneralCareerAdvice
  }

  /** Distinct templates have distinct texts, so a stored response identifies its template. */
  lemma TemplateTextInjective(a: Template, b: Template)
    ensures TemplateText(a) == TemplateText(b) ==> a == b
  {
  }

  // ---------------------------------------------------------------------
  // Reference definition: an ordered list of (keyword, template) rules
  // ---------------------------------------------------------------------

  const Rules: seq<(string, Template)> :=
    [("resume", ResumeAnalysis), ("interview", InterviewPreparation), ("career", CareerPathGuidance)]

  /** The template of the first rule whose keyword occurs in `text`, or the fallback. */
  function FirstMatch(rules: seq<(string, Template)>, text: string): (t: Template)
    ensures (exists k :: 0 <= k < |rules| && t == rules[k].1) || t == GeneralCareerAdvice
  {
    if rules == [] then GeneralCareerAdvice
    else if Contains(text, rules[0].0) then rules[0].1
    else FirstMatch(rules[1..], text)
  }

  /** The selected template is that of the first matching rule: earlier rules win, later ones are never consulted. */
  lemma {:induction false} FirstMatchIsFirst(rules: seq<(string, Template)>, text: string, k: nat)
    requires k < |rules| && Contains(text, rules[k].0)
    requires forall j :: 0 <= j < k ==> !Contains(text, rules[j].0)
    ensures FirstMatch(rules, text) == rules[k].1
  {
    if k > 0 {
      assert !Contains(text, rules[0].0);
      FirstMatchIsFirst(rules[1..], text, k - 1);
    }
  }

  lemma {:induction false} FirstMatchNone(rules: seq<(string, Template)>, text: string)
    requires forall j :: 0 <= j < |rules| ==> !Contains(text, rules[j].0)
    ensures FirstMatch(rules, text) == GeneralCareerAdvice
  {
    if rules != [] {
      assert !Contains(text, rules[0].0);
      FirstMatchNone(rules[1..], text);
    }
  }

  /** The dispatcher is the rule list evaluated in order over the lower-cased query. */
  lemma DispatchIsFirstMatch(query: string)
    ensures Dispatch(query) == FirstMatch(Rules, ToLower(query))
  {
    var lower := ToLower(query);
    if Contains(lower, "resume") {
      FirstMatchIsFirst(Rules, lower, 0);
    } else if Contains(lower, "interview") {
      FirstMatchIsFirst(Rules, lower, 1);
    } else if Contains(lower, "career") {
      FirstMatchIsFirst(Rules, lower, 2);
    } else {
      FirstMatchNone(Rules, lower);
    }
  }

  // ---------------------------------------------------------------------
  // Selection by keyword, in priority order
  // ---------------------------------------------------------------------

  /** Resume Analysis is chosen exactly when the lower-cased query mentions "resume", whatever else it mentions. */
  lemma ResumeWins(query: string)
    ensures Dispatch(query) == ResumeAnalysis <==> Contains(ToLower(query), "resume")
  {
  }

  /** Interview Preparation is chosen exactly when "interview" occurs and "resume" does not. */
  lemma InterviewSecond(query: string)
    ensures Dispatch(query) == InterviewPreparation <==>
      !Contains(ToLower(query), "resume") && Contains(ToLower(query), "interview")
  {
  }

  /** Career Path Guidance is chosen exactly when "career" is the only keyword category present. */
  lemma CareerThird(query: string)
    ensures Dispatch(query) == CareerPathGuidance <==>
      !Contains(ToLower(query), "resume") && !Contains(ToLower(query), "interview")
      && Contains(ToLower(query), "career")
  {
  }

  /** The fallback is chosen exactly when none of the three keywords occurs. */
  lemma DefaultOtherwise(query: string)
    ensures Dispatch(query) == GeneralCareerAdvice <==>
      !Contains(ToLower(query), "resume") && !Contains(ToLower(query), "interview")
      && !Contains(ToLower(query), "career")
  {
  }

  /** The choice depends only on the lower-cased query: re-casing it changes nothing. */
  lemma DispatchIgnoresCase(query: string)
    ensures Dispatch(ToLower(query)) == Dispatch(query)
  {
    ToLowerIdempotent(query);
  }

  /** Any six characters spelling "resume" in any mix of cases select Resume Analysis. */
  lemma ResumeInAnyCase(query: string, i: nat)
    requires i + 6 <= |query| && ToLower(query[i..i + 6]) == "resume"
    ensures Dispatch(query) == ResumeAnalysis
  {
    LoweredOccurrence(query, "resume", i);
  }

  /** A query text that wraps a phrase selecting Resume Analysis still selects it. */
  lemma ResumeInContext(prefix: string, query: string, suffix: string)
    requires Contains(ToLower(query), "resume")
    ensures Dispatch(prefix + query + suffix) == ResumeAnalysis
  {
    ToLowerAppend(prefix + query, suffix);
    ToLowerAppend(prefix, query);
    ContainsInContext(ToLower(prefix), ToLower(query), ToLower(suffix), "resume");
  }

  // ---------------------------------------------------------------------
  // Sample queries
  // ---------------------------------------------------------------------

  lemma SampleResumeQuery(q: string)
    requires q == "How do I improve my resume?"
    ensures Dispatch(q) == ResumeAnalysis
  {
    assert q[20..26] == "resume";
    ToLowerKeepsOccurrence(q, "resume", 20);
  }

  lemma SampleInterviewQuery(q: string)
    requires q == "interview tips please"
    ensures Dispatch(q) == InterviewPreparation
  {
    ToLowerAvoids(q, 'u');
    NotContainsMissingChar(ToLower(q), "resume", 'u');
    assert q[0..9] == "interview";
    ToLowerKeepsOccurrence(q, "interview", 0);
  }

  /** The first keyword in priority order wins over a later one. */
  lemma SampleResumeAndInterviewQuery(q: string)
    requires q == "resume and interview"
    ensures Dispatch(q) == ResumeAnalysis
  {
    assert q[0..6] == "resume";
    ToLowerKeepsOccurrence(q, "resume", 0);
  }

  /** Which keywords occur in the sample career question. */
  lemma SampleCareerKeywords(q: string)
    requires q == "what career should I pick"
    ensures !Contains(ToLower(q), "resume") && !Contains(ToLower(q), "interview")
    ensures Contains(ToLower(q), "career")
  {
    SampleCareerLacksLetter(q, 'm');
    NotContainsMissingChar(ToLower(q), "resume", 'm');
    SampleCareerLacksLetter(q, 'v');
    NotContainsMissingChar(ToLower(q), "interview", 'v');
    assert q[5..11] == "career";
    ToLowerKeepsOccurrence(q, "career", 5);
  }

  /** Neither case of 'm' or 'v' occurs in the sample career question. */
  lemma SampleCareerLacksLetter(q: string, c: char)
    requires q == "what career should I pick"
    requires c == 'm' || c == 'v'
    ensures c !in ToLower(q)
  {
    ToLowerAvoids(q, c);
  }

  lemma SampleCareerQuery(q: string)
    requires q == "what career should I pick"
    ensures Dispatch(q) == CareerPathGuidance
  {
    SampleCareerKeywords(q);
  }

  lemma SampleOtherQuery(q: string)
    requires q == "hello"
    ensures Dispatch(q) == GeneralCareerAdvice
  {
    ToLowerAvoids(q, 'r');
    NotContainsMissingChar(ToLower(q), "resume", 'r');
    NotContainsMissingChar(ToLower(q), "interview", 'r');
    NotContainsMissingChar(ToLower(q), "career", 'r');
  }
}
