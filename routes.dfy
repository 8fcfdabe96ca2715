/**
 * The API routes: the upload gate in front of the resume endpoint, the
 * derivation of the resume record from a multipart request, and the five
 * handlers, each a method over the store that answers with a reply whose
 * status follows the handler's `try` / `catch`: a failed insert-schema parse
 * is a 400 that lists the failing fields, any other failure a 500.
 */
module Routes {
  import opened Wrappers
  import opened Text
  import opened Schema
  import opened Storage
  import opened Dispatcher

  // ---------------------------------------------------------------------
  // The upload gate (multer, memory storage)
  // ---------------------------------------------------------------------

  /** 5 MiB. */
  const MaxFileSize: nat := 5 * 1024 * 1024

  /** PDF, DOC and DOCX. */
  const AllowedTypes: seq<string> := [
    "application/pdf",
    "application/msword",
    "application/vnd.openxmlformats-officedocument.wordprocessingml.document"
  ]

  const InvalidTypeMessage: string := "Invalid file type. Only PDF, DOC, and DOCX files are allowed."
  const FileTooLargeMessage: string := "File too large"

  /** The uploaded part as multer reports it; `size` is in bytes. */
  datatype UploadedFile = UploadedFile(originalName: string, mimetype: string, size: nat)

  /**
   * Why the gate refuses a file, if it does. The type filter runs when the
   * part starts, so a file of the wrong type is refused for its type
   * whatever its size; the size limit trips only on bytes beyond the limit.
   */
  function UploadRejection(file: UploadedFile): (r: Option<string>)
    ensures r == None <==> file.mimetype in AllowedTypes && file.size <= MaxFileSize
    ensures file.mimetype !in AllowedTypes ==> r == Some(InvalidTypeMessage)
    ensures file.mimetype in AllowedTypes && file.size > MaxFileSize ==> r == Some(FileTooLargeMessage)
  {
    if file.mimetype !in AllowedTypes then Some(InvalidTypeMessage)
    else if file.size > MaxFileSize then Some(FileTooLargeMessage)
    else None
  }

  /** Exactly 5 MiB passes the size limit; one byte more does not. */
  lemma UploadSizeBoundary(name: string, mimetype: string)
    requires mimetype in AllowedTypes
    ensures UploadRejection(UploadedFile(name, mimetype, 5 * 1024 * 1024)) == None
    ensures UploadRejection(UploadedFile(name, mimetype, 5 * 1024 * 1024 + 1)) == Some(FileTooLargeMessage)
  {
  }

  // ---------------------------------------------------------------------
  // The resume record (`resumeData`)
  // ---------------------------------------------------------------------

  /** `Math.round(bytes / 1024)`: the whole number of KiB nearest to `bytes`, a half rounded up. */
  function RoundedKilobytes(bytes: nat): (k: nat)
    ensures 1024 * k <= bytes + 512 < 1024 * k + 1024
  {
    (bytes + 512) / 1024
  }

  /** The bounds above pin the rounded value down: no other whole number satisfies them. */
  lemma RoundedKilobytesUnique(bytes: nat, k: nat)
    requires 1024 * k <= bytes + 512 < 1024 * k + 1024
    ensures k == RoundedKilobytes(bytes)
  {
  }

  lemma RoundingSamples()
    ensures RoundedKilobytes(511) == 0 && RoundedKilobytes(512) == 1
    ensures RoundedKilobytes(1535) == 1 && RoundedKilobytes(1536) == 2
    ensures RoundedKilobytes(MaxFileSize) == 5120
  {
  }

  /** `${Math.round(size / 1024)}KB`: the rounded count in decimal, then the unit. */
  function FileSizeLabel(bytes: nat): (r: string)
    ensures |r| >= 3 && r[|r| - 2..] == "KB"
    ensures AllDigits(r[..|r| - 2]) && ParseNat(r[..|r| - 2]) == RoundedKilobytes(bytes)
  {
    var digits := NatToString(RoundedKilobytes(bytes));
    ParseNatToString(RoundedKilobytes(bytes));
    assert (digits + "KB")[..|digits|] == digits;
    digits + "KB"
  }

  /** `req.body.x`: a multipart text field as sent, or `undefined` when it was not sent. */
  function FieldText(fields: map<string, string>, key: string): Option<string> {
    if key in fields then Some(fields[key]) else None
  }

  /** A multipart text field that is absent or empty becomes null (`req.body.x || null`). */
  function FieldOrNull(fields: map<string, string>, key: string): (v: Value)
    ensures v == Null <==> key !in fields || fields[key] == ""
    ensures v != Null ==> v == Str(fields[key])
  {
    OptionalText(OrNull(FieldText(fields, key)))
  }

  /** A field copied as it is: an absent field stays absent (`undefined`). */
  function CopyField(body: Body, fields: map<string, string>, key: string): Body {
    if key in fields then body[key := Str(fields[key])] else body
  }

  /** The object the resume handler builds from the text fields and the uploaded file. */
  function ResumeData(fields: map<string, string>, file: UploadedFile): Body {
    var derived: Body := map[
      "phone" := FieldOrNull(fields, "phone"),
      "desiredPosition" := FieldOrNull(fields, "desiredPosition"),
      "fileName" := Str(file.originalName),
      "fileSize" := Str(FileSizeLabel(file.size)),
      "additionalInfo" := FieldOrNull(fields, "additionalInfo")];
    CopyField(CopyField(derived, fields, "email"), fields, "fullName")
  }

  /** What the derived record holds under each key the resume insert schema looks at. */
  lemma ResumeDataFields(fields: map<string, string>, file: UploadedFile)
    ensures IsText(ResumeData(fields, file), "fullName") <==> "fullName" in fields
    ensures IsText(ResumeData(fields, file), "email") <==> "email" in fields
    ensures "fullName" in fields ==> ResumeData(fields, file)["fullName"] == Str(fields["fullName"])
    ensures "email" in fields ==> ResumeData(fields, file)["email"] == Str(fields["email"])
    ensures ResumeData(fields, file)["fileName"] == Str(file.originalName)
    ensures ResumeData(fields, file)["fileSize"] == Str(FileSizeLabel(file.size))
    ensures "phone" in ResumeData(fields, file)
    ensures ResumeData(fields, file)["phone"] == FieldOrNull(fields, "phone")
    ensures "desiredPosition" in ResumeData(fields, file)
    ensures ResumeData(fields, file)["desiredPosition"] == FieldOrNull(fields, "desiredPosition")
    ensures "additionalInfo" in ResumeData(fields, file)
    ensures ResumeData(fields, file)["additionalInfo"] == FieldOrNull(fields, "additionalInfo")
  {
  }

  /**
   * The derived record fails the resume insert schema exactly when the
   * request has no `fullName` or no `email` field; an empty full name or
   * email is accepted. Otherwise the input carries the fields as sent, the
   * file's name and its size label.
   */
  lemma ResumeDataParse(fields: map<string, string>, file: UploadedFile)
    ensures ParseInsertResume(ResumeData(fields, file)).Ok? <==> "fullName" in fields && "email" in fields
    ensures ParseInsertResume(ResumeData(fields, file)).Ok? ==>
      ParseInsertResume(ResumeData(fields, file)).value == InsertResume(
        fields["fullName"], fields["email"], OrNull(FieldText(fields, "phone")),
        OrNull(FieldText(fields, "desiredPosition")), file.originalName, FileSizeLabel(file.size),
        OrNull(FieldText(fields, "additionalInfo")))
  {
    ResumeDataFields(fields, file);
  }

  /** When the derived record is refused, the issues name exactly the missing `fullName` and `email` fields. */
  lemma ResumeDataIssues(fields: map<string, string>, file: UploadedFile)
    ensures Issues(ResumeColumns, ResumeData(fields, file)) ==
      (if "fullName" in fields then [] else ["fullName"]) + (if "email" in fields then [] else ["email"])
  {
    ResumeDataFields(fields, file);
    ResumeIssues(ResumeData(fields, file));
  }

  // ---------------------------------------------------------------------
  // Replies
  // ---------------------------------------------------------------------

  /** A JSON reply; a 400 lists the zod issue paths when it comes from a failed parse. */
  datatype Reply<T> =
    | Success(body: T)
    | BadRequest(message: string, errors: Option<seq<string>>)
    | ServerError(message: string)

  // ---------------------------------------------------------------------
  // POST /api/resumes
  // ---------------------------------------------------------------------

  /**
   * The upload gate, then the handler. A refused file never reaches the
   * handler: the error goes to the framework's default error handler, a 500
   * carrying the gate's message. `storeFails` stands for the insert throwing.
   */
  method PostResume(store: DatabaseStorage, fields: map<string, string>, file: Option<UploadedFile>,
                    storeFails: bool, now: Timestamp)
    returns (reply: Reply<Resume>)
    requires store.Valid()
    modifies store
    ensures store.Valid()
    ensures file.Some? && UploadRejection(file.value).Some? ==>
      reply == ServerError(UploadRejection(file.value).value) && unchanged(store)
    ensures file.None? ==> reply == BadRequest("Resume file is required", None) && unchanged(store)
    ensures file.Some? && UploadRejection(file.value).None? ==>
      var parsed := ParseInsertResume(ResumeData(fields, file.value));
      && (parsed.Err? ==> reply == BadRequest("Validation error", Some(parsed.error)) && unchanged(store))
      && (parsed.Ok? && storeFails ==> reply == ServerError("Failed to upload resume") && unchanged(store))
      && (parsed.Ok? && !storeFails ==>
            && reply == Success(ResumeRow(old(store.nextId), parsed.value, now))
            && store.resumes == old(store.resumes) + [reply.body]
            && store.nextId == old(store.nextId) + 1
            && store.users == old(store.users) && store.aiQueries == old(store.aiQueries)
            && store.developerApplications == old(store.developerApplications))
  {
    if file.Some? {
      var rejection := UploadRejection(file.value);
      if rejection.Some? {
        reply := ServerError(rejection.value);
        return;
      }
    }
    if file.None? {
      reply := BadRequest("Resume file is required", None);
      return;
    }
    var resumeData := ResumeData(fields, file.value);
    match ParseInsertResume(resumeData)
    case Err(issues) =>
      reply := BadRequest("Validation error", Some(issues));
    case Ok(validated) =>
      if storeFails {
        reply := ServerError("Failed to upload resume");
      } else {
        var resume := store.CreateResume(validated, now);
        reply := Success(resume);
      }
  }

  /** GET /api/resumes: every stored resume, or a 500 when the read throws. */
  method GetResumes(store: DatabaseStorage, storeFails: bool) returns (reply: Reply<seq<Resume>>)
    ensures storeFails ==> reply == ServerError("Failed to fetch resumes")
    ensures !storeFails ==> reply == Success(store.resumes)
  {
    if storeFails {
      reply := ServerError("Failed to fetch resumes");
    } else {
      var resumes := store.GetAllResumes();
      reply := Success(resumes);
    }
  }

  // ---------------------------------------------------------------------
  // POST /api/developer-applications
  // ---------------------------------------------------------------------

  /**
   * The JSON body is parsed by the insert schema and stored under the next
   * queue number of `year`. A null `techStack` passes the schema but is
   * refused by the insert, which the `catch` turns into a 500.
   */
  method PostDeveloperApplication(store: DatabaseStorage, body: Body, year: nat, storeFails: bool,
                                  now: Timestamp)
    returns (reply: Reply<DeveloperApplication>)
    requires store.Valid()
    modifies store
    ensures store.Valid()
    ensures ParseInsertDeveloperApplication(body).Err? ==>
      reply == BadRequest("Validation error", Some(ParseInsertDeveloperApplication(body).error))
      && unchanged(store)
    ensures ParseInsertDeveloperApplication(body).Ok? && (storeFails || body["techStack"].Null?) ==>
      reply == ServerError("Failed to submit application") && unchanged(store)
    ensures ParseInsertDeveloperApplication(body).Ok? && !storeFails && !body["techStack"].Null? ==>
      && reply == Success(ApplicationRow(old(store.nextId),
           QueueNumber.Format(year, |old(store.developerApplications)| + 1),
           ParseInsertDeveloperApplication(body).value, now))
      && (forall i :: 0 <= i < |old(store.developerApplications)| ==>
            old(store.developerApplications)[i].queueNumber != reply.body.queueNumber)
      && store.developerApplications == old(store.developerApplications) + [reply.body]
      && store.nextId == old(store.nextId) + 1
      && store.users == old(store.users) && store.resumes == old(store.resumes)
      && store.aiQueries == old(store.aiQueries)
  {
    match ParseInsertDeveloperApplication(body)
    case Err(issues) =>
      reply := BadRequest("Validation error", Some(issues));
    case Ok(validated) =>
      if storeFails {
        reply := ServerError("Failed to submit application");
      } else {
        var created := store.CreateDeveloperApplication(validated, year, now);
        match created
        case Err(_) =>
          reply := ServerError("Failed to submit application");
        case Ok(application) =>
          reply := Success(application);
      }
  }

  /** GET /api/developer-applications. */
  method GetDeveloperApplications(store: DatabaseStorage, storeFails: bool)
    returns (reply: Reply<seq<DeveloperApplication>>)
    ensures storeFails ==> reply == ServerError("Failed to fetch applications")
    ensures !storeFails ==> reply == Success(store.developerApplications)
  {
    if storeFails {
      reply := ServerError("Failed to fetch applications");
    } else {
      var applications := store.GetAllDeveloperApplications();
      reply := Success(applications);
    }
  }

  // ---------------------------------------------------------------------
  // POST /api/ai-queries
  // ---------------------------------------------------------------------

  /** `query` is present, a string, and not the empty string (`!query || typeof query !== 'string'` fails). */
  predicate QueryGiven(body: Body) {
    "query" in body && body["query"].Str? && body["query"].s != ""
  }

  /** The guard turns away a missing, null, non-string or empty query, and lets any other string through. */
  lemma QueryGuard(body: Body)
    ensures "query" !in body ==> !QueryGiven(body)
    ensures "query" in body && !body["query"].Str? ==> !QueryGiven(body)
    ensures QueryGiven(body) <==> exists q :: q != "" && "query" in body && body["query"] == Str(q)
  {
    if QueryGiven(body) {
      assert body["query"] == Str(body["query"].s);
    }
  }

  /** A query of blanks only is a non-empty string: the server's guard lets it through. */
  lemma WhitespaceQueryPassesGuard(q: string)
    requires q != "" && AllWhitespace(q)
    ensures QueryGiven(map["query" := Str(q)])
    ensures IsBlank(q)
  {
    BlankIffAllWhitespace(q);
  }

  /** The record built from a query and its response always passes the insert schema. */
  lemma AiQueryDataIsValid(query: string, response: string)
    ensures ParseInsertAiQuery(map["query" := Str(query), "response" := Str(response)])
      == Ok(InsertAiQuery(query, response))
  {
  }

  /**
   * Picks the template for the query and stores the query untouched beside
   * the template's text.
   */
  method PostAiQuery(store: DatabaseStorage, body: Body, storeFails: bool, now: Timestamp)
    returns (reply: Reply<AiQuery>)
    requires store.Valid()
    modifies store
    ensures store.Valid()
    ensures !QueryGiven(body) ==> reply == BadRequest("Query is required", None) && unchanged(store)
    ensures QueryGiven(body) && storeFails ==>
      reply == ServerError("Failed to process AI query") && unchanged(store)
    ensures QueryGiven(body) && !storeFails ==>
      && reply == Success(AiQuery(old(store.nextId), body["query"].s,
           TemplateText(Dispatch(body["query"].s)), now))
      && store.aiQueries == old(store.aiQueries) + [reply.body]
      && store.nextId == old(store.nextId) + 1
      && store.users == old(store.users) && store.resumes == old(store.resumes)
      && store.developerApplications == old(store.developerApplications)
  {
    if !QueryGiven(body) {
      reply := BadRequest("Query is required", None);
      return;
    }
    var query := body["query"].s;
    var response := TemplateText(Dispatch(query));
    var aiQueryData: Body := map["query" := Str(query), "response" := Str(response)];
    var parsed := ParseInsertAiQuery(aiQueryData);
    AiQueryDataIsValid(query, response);
    if storeFails {
      reply := ServerError("Failed to process AI query");
    } else {
      var aiQuery := store.CreateAiQuery(parsed.value, now);
      reply := Success(aiQuery);
    }
  }

  /** A stored response names the template it came from: reading it back recovers the dispatcher's choice. */
  lemma StoredResponseIdentifiesTemplate(q: AiQuery, t: Template)
    requires q.response == TemplateText(t)
    ensures forall u: Template :: q.response == TemplateText(u) ==> u == t
  {
    forall u: Template | q.response == TemplateText(u) ensures u == t {
      TemplateTextInjective(u, t);
    }
  }
}
