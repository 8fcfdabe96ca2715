/**
 * The developer-application page: the form's own validation schema, the
 * tech-stack checkbox handler, the JSON it posts, and the page state the
 * reply sets. Email validity is a parameter `isEmail`: the page delegates
 * it to zod's email check.
 */
module DeveloperHiring {
  import opened Wrappers
  import opened Schema
  import Storage
  import QueueNumber
  import Routes

  /** The form values; `None` is an optional field left `undefined`. */
  datatype DeveloperForm = DeveloperForm(
    fullName: string,
    email: string,
    experience: string,
    techStack: seq<string>,
    githubProfile: Option<string>,
    portfolioWebsite: Option<string>,
    motivation: string)

  const DefaultForm: DeveloperForm := DeveloperForm("", "", "", [], Some(""), Some(""), "")

  const MinMotivationLength: nat := 10

  // ---------------------------------------------------------------------
  // developerSchema
  // ---------------------------------------------------------------------

  /** The fields the schema checks, in declaration order. */
  datatype Field = FullName | Email | Experience | TechStack | Motivation

  /** One field's rule: `min(1)` on the strings and the array, `min(10)` on the motivation. */
  predicate Passes(f: DeveloperForm, isEmail: string -> bool, field: Field) {
    match field
    case FullName => |f.fullName| >= 1
    case Email => isEmail(f.email)
    case Experience => |f.experience| >= 1
    case TechStack => |f.techStack| >= 1
    case Motivation => |f.motivation| >= MinMotivationLength
  }

  function Check(f: DeveloperForm, isEmail: string -> bool, field: Field): seq<Field> {
    if Passes(f, isEmail, field) then [] else [field]
  }

  /** The failing fields; zod reports every one of them, in declaration order. */
  function SchemaIssues(f: DeveloperForm, isEmail: string -> bool): (r: seq<Field>)
    ensures forall field :: field in r <==> !Passes(f, isEmail, field)
    ensures forall i, j :: 0 <= i < j < |r| ==> r[i] != r[j]
  {
    Check(f, isEmail, FullName) + Check(f, isEmail, Email) + Check(f, isEmail, Experience)
    + Check(f, isEmail, TechStack) + Check(f, isEmail, Motivation)
  }

  /** The rules as one conjunction: the reference the issue list is checked against. */
  predicate FormValid(f: DeveloperForm, isEmail: string -> bool) {
    && f.fullName != ""
    && isEmail(f.email)
    && f.experience != ""
    && f.techStack != []
    && |f.motivation| >= MinMotivationLength
  }

  /** The form is submitted exactly when the schema reports no issue. */
  lemma NoIssuesIffValid(f: DeveloperForm, isEmail: string -> bool)
    ensures SchemaIssues(f, isEmail) == [] <==> FormValid(f, isEmail)
  {
    var r := SchemaIssues(f, isEmail);
    if r != [] {
      assert r[0] in r;
    } else {
      assert Passes(f, isEmail, FullName) && Passes(f, isEmail, Email) && Passes(f, isEmail, Experience);
      assert Passes(f, isEmail, TechStack) && Passes(f, isEmail, Motivation);
    }
  }

  /** Nine characters of motivation are too few; ten are enough. */
  lemma MotivationBoundary(f: DeveloperForm, isEmail: string -> bool, nine: string, ten: string)
    requires |nine| == 9 && |ten| == 10
    ensures !FormValid(f.(motivation := nine), isEmail)
    ensures FormValid(f.(motivation := ten), isEmail) <==>
      f.fullName != "" && isEmail(f.email) && f.experience != "" && f.techStack != []
  {
  }

  /** The GitHub and portfolio fields are never checked: whatever they hold, the issues stay the same. */
  lemma OptionalLinksUnchecked(f: DeveloperForm, isEmail: string -> bool, github: Option<string>,
                               portfolio: Option<string>)
    ensures SchemaIssues(f.(githubProfile := github, portfolioWebsite := portfolio), isEmail)
      == SchemaIssues(f, isEmail)
  {
  }

  /** The untouched form fails on every rule except, possibly, the email one. */
  lemma DefaultFormIssues(isEmail: string -> bool)
    ensures var r := SchemaIssues(DefaultForm, isEmail);
      FullName in r && Experience in r && TechStack in r && Motivation in r
  {
  }

  // ---------------------------------------------------------------------
  // handleTechStackChange
  // ---------------------------------------------------------------------

  /** `stack.filter(item => item !== x)`. */
  function Without(s: seq<string>, x: string): (r: seq<string>)
    ensures x !in r
    ensures |r| <= |s|
    ensures forall y :: y != x ==> multiset(r)[y] == multiset(s)[y]
  {
    if s == [] then []
    else
      assert s == [s[0]] + s[1..];
      if s[0] == x then Without(s[1..], x) else [s[0]] + Without(s[1..], x)
  }

  /** Filtering works piecewise, so the entries that stay keep their relative order. */
  lemma {:induction false} WithoutAppend(a: seq<string>, b: seq<string>, x: string)
    ensures Without(a + b, x) == Without(a, x) + Without(b, x)
  {
    if a == [] {
      assert a + b == b;
    } else {
      assert (a + b)[0] == a[0] && (a + b)[1..] == a[1..] + b;
      WithoutAppend(a[1..], b, x);
    }
  }

  /** Nothing is removed when the entry is not there. */
  lemma {:induction false} WithoutAbsent(s: seq<string>, x: string)
    requires x !in s
    ensures Without(s, x) == s
  {
    if s != [] {
      assert x !in s[1..] by {
        forall y | y in s[1..] ensures y in s { }
      }
      WithoutAbsent(s[1..], x);
    }
  }

  /** The stack after the box for `tech` changes to `checked`. */
  function TechStackAfter(current: seq<string>, tech: string, checked: bool): seq<string> {
    if checked then current + [tech] else Without(current, tech)
  }

  /** Checking appends at the end: one entry more and the earlier entries in place. */
  lemma CheckAppends(current: seq<string>, tech: string)
    ensures |TechStackAfter(current, tech, true)| == |current| + 1
    ensures TechStackAfter(current, tech, true)[..|current|] == current
    ensures TechStackAfter(current, tech, true)[|current|] == tech
  {
  }

  /** Unchecking right after checking removes every copy of the technology, and only that. */
  lemma CheckThenUncheck(current: seq<string>, tech: string)
    ensures TechStackAfter(TechStackAfter(current, tech, true), tech, false) == Without(current, tech)
    ensures tech !in current ==> TechStackAfter(TechStackAfter(current, tech, true), tech, false) == current
  {
    WithoutAppend(current, [tech], tech);
    assert Without([tech], tech) == [];
    if tech !in current {
      WithoutAbsent(current, tech);
    }
  }

  // ---------------------------------------------------------------------
  // What is posted and what the server makes of it
  // ---------------------------------------------------------------------

  /** The JSON body of the request; an `undefined` optional field is not sent at all. */
  function ToJson(f: DeveloperForm): Body {
    var required: Body := map[
      "fullName" := Str(f.fullName),
      "email" := Str(f.email),
      "experience" := Str(f.experience),
      "techStack" := StrList(f.techStack),
      "motivation" := Str(f.motivation)];
    var withGithub := if f.githubProfile.Some? then required["githubProfile" := Str(f.githubProfile.value)] else required;
    if f.portfolioWebsite.Some? then withGithub["portfolioWebsite" := Str(f.portfolioWebsite.value)] else withGithub
  }

  /**
   * The server's schema accepts every body this page can post, valid in the
   * page's own eyes or not, and takes the values as they are.
   */
  lemma ServerAcceptsEveryClientPayload(f: DeveloperForm)
    ensures ParseInsertDeveloperApplication(ToJson(f)) == Ok(InsertDeveloperApplication(
      f.fullName, f.email, f.experience, StrList(f.techStack), f.githubProfile,
      f.portfolioWebsite, f.motivation))
  {
  }

  /**
   * The server is looser than the page: the untouched form, which the page
   * never submits, would be stored, with empty links stored as null.
   */
  lemma ServerStoresUntouchedForm()
    ensures ParseInsertDeveloperApplication(ToJson(DefaultForm)).Ok?
    ensures var input := ParseInsertDeveloperApplication(ToJson(DefaultForm)).value;
      Storage.OrNull(input.githubProfile) == None && input.motivation == ""
  {
    ServerAcceptsEveryClientPayload(DefaultForm);
  }

  // ---------------------------------------------------------------------
  // Page state
  // ---------------------------------------------------------------------

  class DeveloperHiringPage {
    var form: DeveloperForm
    var submitted: bool
    var queueNumber: string

    constructor ()
      ensures form == DefaultForm && !submitted && queueNumber == ""
    {
      form := DefaultForm;
      submitted := false;
      queueNumber := "";
    }

    method HandleTechStackChange(tech: string, checked: bool)
      modifies this
      ensures form == old(form).(techStack := TechStackAfter(old(form.techStack), tech, checked))
      ensures submitted == old(submitted) && queueNumber == old(queueNumber)
    {
      var currentStack := form.techStack;
      if checked {
        form := form.(techStack := currentStack + [tech]);
      } else {
        form := form.(techStack := Without(currentStack, tech));
      }
    }

    /** `form.handleSubmit(onSubmit)`: the body is posted only when the schema finds no issue. */
    method Submit(isEmail: string -> bool) returns (sent: Option<Body>)
      ensures sent.Some? <==> FormValid(form, isEmail)
      ensures sent.Some? ==> sent.value == ToJson(form)
    {
      var issues := SchemaIssues(form, isEmail);
      NoIssuesIffValid(form, isEmail);
      if issues == [] {
        sent := Some(ToJson(form));
      } else {
        sent := None;
      }
    }

    /** The reply's queue number is kept for display and the page switches to its confirmation. */
    method OnSuccess(reply: DeveloperApplication)
      modifies this
      ensures queueNumber == reply.queueNumber && submitted
      ensures form == old(form)
    {
      queueNumber := reply.queueNumber;
      submitted := true;
    }
  }

  /**
   * A form filled in, submitted, posted to the server's handler over an
   * empty store, and the reply shown: a valid form shows the year's first
   * queue number; an invalid one is never posted and shows nothing.
   */
  method SubmitToEmptyStore(f: DeveloperForm, isEmail: string -> bool, year: nat, now: Timestamp)
    returns (shown: Option<string>)
    ensures FormValid(f, isEmail) ==> shown == Some(QueueNumber.Format(year, 1))
    ensures !FormValid(f, isEmail) ==> shown == None
  {
    var page := new DeveloperHiringPage();
    page.form := f;
    var sent := page.Submit(isEmail);
    if sent.None? {
      shown := None;
      return;
    }
    var store := new Storage.DatabaseStorage();
    ServerAcceptsEveryClientPayload(f);
    var reply := Routes.PostDeveloperApplication(store, sent.value, year, false, now);
    if reply.Success? {
      page.OnSuccess(reply.body);
    }
    shown := if page.submitted then Some(page.queueNumber) else None;
  }
}
