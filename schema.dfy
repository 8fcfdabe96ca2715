/**
 * The four tables (users, resumes, developer_applications, ai_queries) and
 * their insert schemas. A stored row is a datatype whose `Option` fields
 * are the nullable columns. An insert schema is modelled by what it checks:
 * which keys of the parsed object must hold text, which may be null or
 * missing, and which are not part of the input at all (those keys are
 * dropped, as zod drops unknown keys).
 */
module Schema {
  import opened Wrappers

  /** A value of a parsed request object, as far as the insert schemas tell values apart. */
  datatype Value =
    | Null
    | Str(s: string)
    | StrList(items: seq<string>)
    | Other   // numbers, booleans, objects and other arrays

  type Body = map<string, Value>

  /** Row identifiers (generated by the database) and creation timestamps are opaque. */
  type Id = nat
  type Timestamp = int

  // ---------------------------------------------------------------------
  // Rows
  // ---------------------------------------------------------------------

  datatype User = User(id: Id, username: string, password: string)

  datatype Resume = Resume(
    id: Id,
    fullName: string,
    email: string,
    phone: Option<string>,
    desiredPosition: Option<string>,
    fileName: string,
    fileSize: string,
    additionalInfo: Option<string>,
    createdAt: Timestamp)

  datatype DeveloperApplication = DeveloperApplication(
    id: Id,
    queueNumber: string,
    fullName: string,
    email: string,
    experience: string,
    techStack: Value,
    githubProfile: Option<string>,
    portfolioWebsite: Option<string>,
    motivation: string,
    createdAt: Timestamp)

  datatype AiQuery = AiQuery(id: Id, query: string, response: string, createdAt: Timestamp)

  // ---------------------------------------------------------------------
  // Insert inputs: the rows without the generated columns
  // ---------------------------------------------------------------------

  datatype InsertUser = InsertUser(username: string, password: string)

  datatype InsertResume = InsertResume(
    fullName: string,
    email: string,
    phone: Option<string>,
    desiredPosition: Option<string>,
    fileName: string,
    fileSize: string,
    additionalInfo: Option<string>)

  datatype InsertDeveloperApplication = InsertDeveloperApplication(
    fullName: string,
    email: string,
    experience: string,
    techStack: Value,
    githubProfile: Option<string>,
    portfolioWebsite: Option<string>,
    motivation: string)

  datatype InsertAiQuery = InsertAiQuery(query: string, response: string)

  // ---------------------------------------------------------------------
  // Column rules
  // ---------------------------------------------------------------------

  /**
   * A `notNull` text column, a nullable text column, or a `notNull` jsonb
   * column. The schema of a jsonb column admits any JSON value, `null`
   * included: only the database's NOT NULL constraint refuses a null.
   */
  datatype Kind = RequiredText | NullableText | RequiredJson

  datatype Column = Column(name: string, kind: Kind)

  predicate IsText(body: Body, key: string) {
    key in body && body[key].Str?
  }

  predicate Accepts(body: Body, c: Column) {
    match c.kind
    case RequiredText => IsText(body, c.name)
    case NullableText => c.name !in body || body[c.name].Null? || body[c.name].Str?
    case RequiredJson => c.name in body
  }

  /** The columns each insert schema keeps, in declaration order. */
  const UserColumns: seq<Column> :=
    [Column("username", RequiredText), Column("password", RequiredText)]

  const ResumeColumns: seq<Column> :=
    [ Column("fullName", RequiredText), Column("email", RequiredText),
      Column("phone", NullableText), Column("desiredPosition", NullableText),
      Column("fileName", RequiredText), Column("fileSize", RequiredText),
      Column("additionalInfo", NullableText) ]

  const DeveloperApplicationColumns: seq<Column> :=
    [ Column("fullName", RequiredText), Column("email", RequiredText),
      Column("experience", RequiredText), Column("techStack", RequiredJson),
      Column("githubProfile", NullableText), Column("portfolioWebsite", NullableText),
      Column("motivation", RequiredText) ]

  const AiQueryColumns: seq<Column> :=
    [Column("query", RequiredText), Column("response", RequiredText)]

  /** The issue one column contributes: its name when it fails, nothing when it accepts. */
  function IssueOf(body: Body, c: Column): seq<string> {
    if Accepts(body, c) then [] else [c.name]
  }

  /** The names of the failing columns, in column order: the paths of the zod issues. */
  function Issues(columns: seq<Column>, body: Body): seq<string> {
    if columns == [] then [] else IssueOf(body, columns[0]) + Issues(columns[1..], body)
  }

  /** An issue names a failing column, and every failing column has one; none means every column accepts. */
  lemma {:induction false} IssuesNameFailingColumns(columns: seq<Column>, body: Body)
    ensures forall k :: k in Issues(columns, body) <==> exists c :: c in columns && c.name == k && !Accepts(body, c)
    ensures Issues(columns, body) == [] <==> forall c :: c in columns ==> Accepts(body, c)
  {
    if columns != [] {
      IssuesNameFailingColumns(columns[1..], body);
      assert forall c :: c in columns <==> c == columns[0] || c in columns[1..];
    }
  }

  /** One column's step of the issue list, from any starting column. */
  lemma IssuesFrom(columns: seq<Column>, body: Body, k: nat)
    requires k < |columns|
    ensures Issues(columns[k..], body) == IssueOf(body, columns[k]) + Issues(columns[k + 1..], body)
  {
    assert columns[k..][0] == columns[k];
    assert columns[k..][1..] == columns[k + 1..];
  }

  /** The issue list of a two-column schema, column by column. */
  lemma IssuesTwo(columns: seq<Column>, body: Body)
    requires |columns| == 2
    ensures Issues(columns, body) == IssueOf(body, columns[0]) + IssueOf(body, columns[1])
  {
    assert columns[0..] == columns;
    IssuesFrom(columns, body, 0);
    IssuesFrom(columns, body, 1);
    assert columns[2..] == [];
    assert IssueOf(body, columns[1]) + [] == IssueOf(body, columns[1]);
  }

  /** The issue list of a seven-column schema, column by column. */
  lemma IssuesSeven(columns: seq<Column>, body: Body)
    requires |columns| == 7
    ensures Issues(columns, body) ==
      IssueOf(body, columns[0]) + (IssueOf(body, columns[1]) + (IssueOf(body, columns[2])
      + (IssueOf(body, columns[3]) + (IssueOf(body, columns[4]) + (IssueOf(body, columns[5])
      + IssueOf(body, columns[6]))))))
  {
    assert columns[0..] == columns;
    IssuesFrom(columns, body, 0);
    IssuesFrom(columns, body, 1);
    IssuesFrom(columns, body, 2);
    IssuesFrom(columns, body, 3);
    IssuesFrom(columns, body, 4);
    IssuesFrom(columns, body, 5);
    IssuesFrom(columns, body, 6);
    assert columns[7..] == [];
    assert IssueOf(body, columns[6]) + [] == IssueOf(body, columns[6]);
  }

  /** Only the listed columns are looked at: a key that names no column never matters. */
  lemma {:induction false} IssuesIgnoreOtherKeys(columns: seq<Column>, body: Body, key: string, v: Value)
    requires forall c :: c in columns ==> c.name != key
    ensures Issues(columns, body[key := v]) == Issues(columns, body)
  {
    if columns != [] {
      assert columns[0] in columns;
      assert Accepts(body[key := v], columns[0]) == Accepts(body, columns[0]);
      IssuesIgnoreOtherKeys(columns[1..], body, key, v);
    }
  }

  function TextOf(body: Body, key: string): string {
    if IsText(body, key) then body[key].s else ""
  }

  function NullableTextOf(body: Body, key: string): Option<string> {
    if IsText(body, key) then Some(body[key].s) else None
  }

  /** Optional text as a request value: `null` when there is none. */
  function OptionalText(v: Option<string>): Value {
    match v
    case None => Null
    case Some(s) => Str(s)
  }

  function JsonOf(body: Body, key: string): Value {
    if key in body then body[key] else Null
  }

  // ---------------------------------------------------------------------
  // Insert schemas
  // ---------------------------------------------------------------------

  /** `insertUserSchema`: exactly `username` and `password`, both required text. */
  function ParseInsertUser(body: Body): (r: Result<InsertUser, seq<string>>)
    ensures r.Ok? <==> IsText(body, "username") && IsText(body, "password")
    ensures r.Ok? ==> r.value == InsertUser(body["username"].s, body["password"].s)
    ensures r.Err? ==> r.error == Issues(UserColumns, body) && r.error != []
  {
    var issues := Issues(UserColumns, body);
    IssuesTwo(UserColumns, body);
    if issues != [] then Err(issues)
    else Ok(InsertUser(TextOf(body, "username"), TextOf(body, "password")))
  }

  /**
   * `insertResumeSchema`: `fullName`, `email`, `fileName` and `fileSize` must be text;
   * `phone`, `desiredPosition` and `additionalInfo` may be text, null or missing.
   */
  function ParseInsertResume(body: Body): (r: Result<InsertResume, seq<string>>)
    ensures r.Ok? <==>
      && IsText(body, "fullName") && IsText(body, "email")
      && IsText(body, "fileName") && IsText(body, "fileSize")
      && Accepts(body, Column("phone", NullableText))
      && Accepts(body, Column("desiredPosition", NullableText))
      && Accepts(body, Column("additionalInfo", NullableText))
    ensures r.Ok? ==> r.value == InsertResume(
      body["fullName"].s, body["email"].s, NullableTextOf(body, "phone"),
      NullableTextOf(body, "desiredPosition"), body["fileName"].s, body["fileSize"].s,
      NullableTextOf(body, "additionalInfo"))
    ensures r.Err? ==> r.error == Issues(ResumeColumns, body) && r.error != []
  {
    var issues := Issues(ResumeColumns, body);
    IssuesSeven(ResumeColumns, body);
    if issues != [] then Err(issues)
    else Ok(InsertResume(
      TextOf(body, "fullName"), TextOf(body, "email"), NullableTextOf(body, "phone"),
      NullableTextOf(body, "desiredPosition"), TextOf(body, "fileName"), TextOf(body, "fileSize"),
      NullableTextOf(body, "additionalInfo")))
  }

  /**
   * `insertDeveloperApplicationSchema`: `fullName`, `email`, `experience` and `motivation`
   * must be text and `techStack` present with any value, null included; `githubProfile` and `portfolioWebsite`
   * may be text, null or missing. No length, format or non-emptiness rule is checked.
   */
  function ParseInsertDeveloperApplication(body: Body): (r: Result<InsertDeveloperApplication, seq<string>>)
    ensures r.Ok? <==>
      && IsText(body, "fullName") && IsText(body, "email") && IsText(body, "experience")
      && "techStack" in body
      && Accepts(body, Column("githubProfile", NullableText))
      && Accepts(body, Column("portfolioWebsite", NullableText))
      && IsText(body, "motivation")
    ensures r.Ok? ==> r.value == InsertDeveloperApplication(
      body["fullName"].s, body["email"].s, body["experience"].s, body["techStack"],
      NullableTextOf(body, "githubProfile"), NullableTextOf(body, "portfolioWebsite"),
      body["motivation"].s)
    ensures r.Err? ==> r.error == Issues(DeveloperApplicationColumns, body) && r.error != []
  {
    var issues := Issues(DeveloperApplicationColumns, body);
    IssuesSeven(DeveloperApplicationColumns, body);
    if issues != [] then Err(issues)
    else Ok(InsertDeveloperApplication(
      TextOf(body, "fullName"), TextOf(body, "email"), TextOf(body, "experience"),
      JsonOf(body, "techStack"), NullableTextOf(body, "githubProfile"),
      NullableTextOf(body, "portfolioWebsite"), TextOf(body, "motivation")))
  }

  /** `insertAiQuerySchema`: both `query` and `response` must be text. */
  function ParseInsertAiQuery(body: Body): (r: Result<InsertAiQuery, seq<string>>)
    ensures r.Ok? <==> IsText(body, "query") && IsText(body, "response")
    ensures r.Ok? ==> r.value == InsertAiQuery(body["query"].s, body["response"].s)
    ensures r.Err? ==> r.error == Issues(AiQueryColumns, body) && r.error != []
  {
    var issues := Issues(AiQueryColumns, body);
    IssuesTwo(AiQueryColumns, body);
    if issues != [] then Err(issues)
    else Ok(InsertAiQuery(TextOf(body, "query"), TextOf(body, "response")))
  }

  /** The resume schema's issues, column by column and in column order. */
  lemma ResumeIssues(body: Body)
    ensures Issues(ResumeColumns, body) ==
      (if IsText(body, "fullName") then [] else ["fullName"])
      + ((if IsText(body, "email") then [] else ["email"])
      + ((if Accepts(body, Column("phone", NullableText)) then [] else ["phone"])
      + ((if Accepts(body, Column("desiredPosition", NullableText)) then [] else ["desiredPosition"])
      + ((if IsText(body, "fileName") then [] else ["fileName"])
      + ((if IsText(body, "fileSize") then [] else ["fileSize"])
      + (if Accepts(body, Column("additionalInfo", NullableText)) then [] else ["additionalInfo"]))))))
  {
    IssuesSeven(ResumeColumns, body);
  }

  // ---------------------------------------------------------------------
  // Generated columns are not client input
  // ---------------------------------------------------------------------

  /** Two request objects that hold the same value, or none, under `name`. */
  ghost predicate AgreeOn(b1: Body, b2: Body, name: string) {
    (name in b1 <==> name in b2) && (name in b1 ==> b1[name] == b2[name])
  }

  /** A key other than `name` can be set without changing what is under `name`. */
  lemma UpdateElsewhere(body: Body, key: string, v: Value, name: string)
    requires key != name
    ensures AgreeOn(body[key := v], body, name)
  {
  }

  /** `id`, `queueNumber` and `createdAt` are omitted: whatever a client sends under them is dropped. */
  lemma DeveloperApplicationIgnoresGenerated(body: Body, key: string, v: Value)
    requires key == "id" || key == "queueNumber" || key == "createdAt"
    ensures ParseInsertDeveloperApplication(body[key := v]) == ParseInsertDeveloperApplication(body)
  {
    var b := body[key := v];
    assert |key| == 2 || |key| == 11 || |key| == 9;
    UpdateElsewhere(body, key, v, "fullName");
    UpdateElsewhere(body, key, v, "email");
    UpdateElsewhere(body, key, v, "experience");
    UpdateElsewhere(body, key, v, "techStack");
    UpdateElsewhere(body, key, v, "githubProfile");
    UpdateElsewhere(body, key, v, "portfolioWebsite");
    UpdateElsewhere(body, key, v, "motivation");
    IssuesSeven(DeveloperApplicationColumns, b);
    IssuesSeven(DeveloperApplicationColumns, body);
  }

  /** `id` and `createdAt` are omitted from a resume's input. */
  lemma ResumeIgnoresGenerated(body: Body, key: string, v: Value)
    requires key == "id" || key == "createdAt"
    ensures ParseInsertResume(body[key := v]) == ParseInsertResume(body)
  {
    var b := body[key := v];
    assert |key| == 2 || |key| == 9;
    UpdateElsewhere(body, key, v, "fullName");
    UpdateElsewhere(body, key, v, "email");
    UpdateElsewhere(body, key, v, "phone");
    UpdateElsewhere(body, key, v, "desiredPosition");
    UpdateElsewhere(body, key, v, "fileName");
    UpdateElsewhere(body, key, v, "fileSize");
    UpdateElsewhere(body, key, v, "additionalInfo");
    IssuesSeven(ResumeColumns, b);
    IssuesSeven(ResumeColumns, body);
  }

  /** An AI query's input omits only `id` and `createdAt`. */
  lemma AiQueryIgnoresGenerated(body: Body, key: string, v: Value)
    requires key == "id" || key == "createdAt"
    ensures ParseInsertAiQuery(body[key := v]) == ParseInsertAiQuery(body)
  {
    IssuesIgnoreOtherKeys(AiQueryColumns, body, key, v);
  }

  /** The user input is picked down to `username` and `password`: every other key is dropped. */
  lemma UserInputIsPicked(body: Body, key: string, v: Value)
    requires key != "username" && key != "password"
    ensures ParseInsertUser(body[key := v]) == ParseInsertUser(body)
  {
    IssuesIgnoreOtherKeys(UserColumns, body, key, v);
  }
}
