/**
 * The career-assistant page: the query box and the ways it is filled, the
 * blank-query guard in front of the request, and the display of the
 * stored response. The preset buttons and the file picker only write the
 * query; which template the server picks is then fixed by the dispatcher.
 */
module AiTool {
  import opened Wrappers
  import opened Text
  import opened Dispatcher
  import Schema
  import Storage
  import Routes

  const UploadPrefix: string := "Analyzing uploaded resume: "

  /** `setPrompt(p)`: the preset's label followed by a colon and a space. */
  function PromptQuery(prompt: string): (q: string)
    ensures |q| == |prompt| + 2 && q[..|prompt|] == prompt && q[|prompt|..] == ": "
  {
    prompt + ": "
  }

  /** The query the file picker writes for a chosen file. */
  function UploadQuery(fileName: string): (q: string)
    ensures |q| == |UploadPrefix| + |fileName|
    ensures q[..|UploadPrefix|] == UploadPrefix && q[|UploadPrefix|..] == fileName
  {
    UploadPrefix + fileName
  }

  // ---------------------------------------------------------------------
  // Where the page's own queries are routed
  // ---------------------------------------------------------------------

  /** The picker's query selects Resume Analysis whatever the file is called. */
  lemma UploadQuerySelectsResume(fileName: string)
    ensures Dispatch(UploadQuery(fileName)) == ResumeAnalysis
  {
    var p := UploadPrefix;
    assert p[19..25] == "resume";
    ToLowerKeepsOccurrence(p, "resume", 19);
    ResumeInContext("", p, fileName);
    assert "" + p + fileName == UploadQuery(fileName);
  }

  lemma ResumeReviewPreset(q: string)
    requires q == PromptQuery("Resume Review")
    ensures Dispatch(q) == ResumeAnalysis
  {
    assert q[0..6] == "Resume";
    LoweredOccurrence(q, "resume", 0);
  }

  lemma InterviewPrepPreset(q: string)
    requires q == PromptQuery("Interview Prep")
    ensures Dispatch(q) == InterviewPreparation
  {
    ToLowerAvoids(q, 'u');
    NotContainsMissingChar(ToLower(q), "resume", 'u');
    assert q[0..9] == "Interview";
    LoweredOccurrence(q, "interview", 0);
  }

  /** Which keywords the Career Path preset contains. */
  lemma CareerPathKeywords(q: string)
    requires q == PromptQuery("Career Path")
    ensures !Contains(ToLower(q), "resume") && !Contains(ToLower(q), "interview")
    ensures Contains(ToLower(q), "career")
  {
    assert !Contains(ToLower(q), "resume") by {
      ToLowerAvoids(q, 'u');
      NotContainsMissingChar(ToLower(q), "resume", 'u');
    }
    assert !Contains(ToLower(q), "interview") by {
      ToLowerAvoids(q, 'v');
      NotContainsMissingChar(ToLower(q), "interview", 'v');
    }
    assert q[0..6] == "Career";
    LoweredOccurrence(q, "career", 0);
  }

  lemma CareerPathPreset(q: string)
    requires q == PromptQuery("Career Path")
    ensures Dispatch(q) == CareerPathGuidance
  {
    CareerPathKeywords(q);
  }

  /** "Skill Development" has no keyword: it gets the general template. */
  lemma SkillDevelopmentPreset(q: string)
    requires q == PromptQuery("Skill Development")
    ensures Dispatch(q) == GeneralCareerAdvice
  {
    ToLowerAvoids(q, 'r');
    NotContainsMissingChar(ToLower(q), "resume", 'r');
    NotContainsMissingChar(ToLower(q), "interview", 'r');
    NotContainsMissingChar(ToLower(q), "career", 'r');
  }

  // ---------------------------------------------------------------------
  // The client guard against the server guard
  // ---------------------------------------------------------------------

  /** Whatever the page sends passes the server's "Query is required" check. */
  lemma SentQueryPassesServerGuard(q: string)
    requires !IsBlank(q)
    ensures Routes.QueryGiven(map["query" := Schema.Str(q)])
  {
    BlankIffAllWhitespace(q);
  }

  /** The page is stricter than the server: a single space is blocked here but would be accepted there. */
  lemma SpaceBlockedOnlyByPage(q: string)
    requires q == " "
    ensures IsBlank(q)
    ensures Routes.QueryGiven(map["query" := Schema.Str(q)])
  {
    BlankIffAllWhitespace(q);
  }

  // ---------------------------------------------------------------------
  // Page state
  // ---------------------------------------------------------------------

  class AiToolPage {
    var query: string
    var response: string
    var showResponse: bool

    constructor ()
      ensures query == "" && response == "" && !showResponse
    {
      query := "";
      response := "";
      showResponse := false;
    }

    /** Typing in the query box. */
    method SetQuery(text: string)
      modifies this
      ensures query == text && response == old(response) && showResponse == old(showResponse)
    {
      query := text;
    }

    /** `handleSubmit`: a query of whitespace only is not sent; any other is sent exactly as typed. */
    method HandleSubmit() returns (sent: Option<string>)
      ensures sent.None? <==> AllWhitespace(query)
      ensures sent.Some? ==> sent.value == query
    {
      BlankIffAllWhitespace(query);
      if IsBlank(query) {
        sent := None;
      } else {
        sent := Some(query);
      }
    }

    method SetPrompt(prompt: string)
      modifies this
      ensures query == PromptQuery(prompt)
      ensures response == old(response) && showResponse == old(showResponse)
    {
      query := prompt + ": ";
    }

    /** Choosing a file writes its name into the query; cancelling the picker changes nothing. */
    method HandleFileUpload(fileNames: seq<string>)
      modifies this
      ensures fileNames == [] ==> query == old(query)
      ensures fileNames != [] ==> query == UploadQuery(fileNames[0])
      ensures response == old(response) && showResponse == old(showResponse)
    {
      if fileNames != [] {
        var name := fileNames[0];
        query := UploadPrefix + name;
      }
    }

    /** The returned record's response is displayed as it is. */
    method OnSuccess(record: Schema.AiQuery)
      modifies this
      ensures response == record.response && showResponse
      ensures query == old(query)
    {
      response := record.response;
      showResponse := true;
    }
  }

  /**
   * Typed, sent, stored and displayed: for a query that is not blank the
   * page ends up showing the template the dispatcher picks for the query
   * as typed.
   */
  method AskOnce(typed: string, now: Schema.Timestamp) returns (shown: Option<string>)
    ensures AllWhitespace(typed) ==> shown == None
    ensures !AllWhitespace(typed) ==> shown == Some(TemplateText(Dispatch(typed)))
  {
    var page := new AiToolPage();
    page.SetQuery(typed);
    var sent := page.HandleSubmit();
    if sent.None? {
      shown := None;
      return;
    }
    var store := new Storage.DatabaseStorage();
    BlankIffAllWhitespace(typed);
    SentQueryPassesServerGuard(sent.value);
    var reply := Routes.PostAiQuery(store, map["query" := Schema.Str(sent.value)], false, now);
    page.OnSuccess(reply.body);
    shown := if page.showResponse then Some(page.response) else None;
  }
}
