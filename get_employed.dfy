/**
 * The resume page: its form schema, the gate a chosen file must pass
 * before it is kept, the multipart body it posts, and what the server
 * makes of that body.
 */
module GetEmployed {
  import opened Wrappers
  import opened Schema
  import Routes
  import Storage

  /** The form values; `None` is an optional field left `undefined`. */
  datatype EmploymentForm = EmploymentForm(
    fullName: string,
    email: string,
    phone: Option<string>,
    desiredPosition: Option<string>,
    additionalInfo: Option<string>)

  const DefaultForm: EmploymentForm := EmploymentForm("", "", Some(""), Some(""), Some(""))

  // ---------------------------------------------------------------------
  // employmentSchema
  // ---------------------------------------------------------------------

  datatype Field = FullName | Email

  /** The failing fields: a non-empty full name and a valid email; the other fields are free text. */
  function SchemaIssues(f: EmploymentForm, isEmail: string -> bool): (r: seq<Field>)
    ensures FullName in r <==> f.fullName == ""
    ensures Email in r <==> !isEmail(f.email)
    ensures |r| <= 2
  {
    (if |f.fullName| >= 1 then [] else [FullName]) + (if isEmail(f.email) then [] else [Email])
  }

  predicate FormValid(f: EmploymentForm, isEmail: string -> bool) {
    f.fullName != "" && isEmail(f.email)
  }

  lemma NoIssuesIffValid(f: EmploymentForm, isEmail: string -> bool)
    ensures SchemaIssues(f, isEmail) == [] <==> FormValid(f, isEmail)
  {
    var r := SchemaIssues(f, isEmail);
    if r != [] {
      assert r[0] in r;
    }
  }

  /** Phone, position and notes never make the form invalid, whatever they hold. */
  lemma OptionalFieldsUnchecked(f: EmploymentForm, isEmail: string -> bool,
                                phone: Option<string>, position: Option<string>, info: Option<string>)
    ensures SchemaIssues(f.(phone := phone, desiredPosition := position, additionalInfo := info), isEmail)
      == SchemaIssues(f, isEmail)
  {
  }

  // ---------------------------------------------------------------------
  // The file gate (handleFileChange)
  // ---------------------------------------------------------------------

  /** A file as the browser describes it; `mimeType` is `file.type`. */
  datatype File = File(name: string, mimeType: string, size: nat)

  const MaxFileSize: nat := 5 * 1024 * 1024

  const AllowedTypes: seq<string> := [
    "application/pdf",
    "application/msword",
    "application/vnd.openxmlformats-officedocument.wordprocessingml.document"
  ]

  datatype FileCheck = TooLarge | WrongType | Accepted

  /** The size is checked first, so a file that is both too large and of the wrong type is refused for its size. */
  function CheckFile(file: File): (r: FileCheck)
    ensures r == TooLarge <==> file.size > MaxFileSize
    ensures r == WrongType <==> file.size <= MaxFileSize && file.mimeType !in AllowedTypes
    ensures r == Accepted <==> file.size <= MaxFileSize && file.mimeType in AllowedTypes
  {
    if file.size > MaxFileSize then TooLarge
    else if file.mimeType !in AllowedTypes then WrongType
    else Accepted
  }

  /** Exactly 5 MiB passes the size check; one byte more does not. */
  lemma SizeBoundary(name: string, mimeType: string)
    ensures CheckFile(File(name, mimeType, 5 * 1024 * 1024)) != TooLarge
    ensures CheckFile(File(name, mimeType, 5 * 1024 * 1024 + 1)) == TooLarge
  {
  }

  /** The file as the upload gate on the server sees it: the part carries the file's name and type. */
  function AsUpload(file: File): Routes.UploadedFile {
    Routes.UploadedFile(file.name, file.mimeType, file.size)
  }

  /** The page and the server agree: a file the page keeps passes the server's upload gate, and only such a file does. */
  lemma PageAndServerGatesAgree(file: File)
    ensures CheckFile(file) == Accepted <==> Routes.UploadRejection(AsUpload(file)) == None
  {
  }

  /** Where the two gates differ is only the reason given for a file that is both too large and of the wrong type. */
  lemma GatesDisagreeOnReason(file: File)
    requires file.size > MaxFileSize && file.mimeType !in AllowedTypes
    ensures CheckFile(file) == TooLarge
    ensures Routes.UploadRejection(AsUpload(file)) == Some(Routes.InvalidTypeMessage)
  {
  }

  // ---------------------------------------------------------------------
  // The multipart body
  // ---------------------------------------------------------------------

  /** The names the page appends under. */
  datatype Key = FullNameKey | EmailKey | PhoneKey | DesiredPositionKey | AdditionalInfoKey

  function KeyName(k: Key): string {
    match k
    case FullNameKey => "fullName"
    case EmailKey => "email"
    case PhoneKey => "phone"
    case DesiredPositionKey => "desiredPosition"
    case AdditionalInfoKey => "additionalInfo"
  }

  lemma KeyNameInjective(a: Key, b: Key)
    ensures KeyName(a) == KeyName(b) ==> a == b
  {
  }

  /** A text entry, or the file appended under `resume`. */
  datatype FormEntry = TextEntry(key: Key, value: string) | ResumeEntry(file: File)

  predicate HasText(entries: seq<FormEntry>, key: Key, value: string) {
    TextEntry(key, value) in entries
  }

  /** `if (x) formData.append(...)`: an optional field is sent only when it is a non-empty string. */
  predicate Sent(x: Option<string>, value: string) {
    x == Some(value) && value != ""
  }

  /** What the form holds for a key, as the page decides whether and what to send. */
  predicate SendsText(f: EmploymentForm, key: Key, value: string) {
    match key
    case FullNameKey => value == f.fullName
    case EmailKey => value == f.email
    case PhoneKey => Sent(f.phone, value)
    case DesiredPositionKey => Sent(f.desiredPosition, value)
    case AdditionalInfoKey => Sent(f.additionalInfo, value)
  }

  /**
   * What the page's multipart body holds: the full name and email first
   * and always, each optional field exactly when it is non-empty, and the
   * resume last and only there.
   */
  ghost predicate IsFormData(f: EmploymentForm, resume: File, entries: seq<FormEntry>) {
    && |entries| >= 3
    && entries[0] == TextEntry(FullNameKey, f.fullName)
    && entries[1] == TextEntry(EmailKey, f.email)
    && entries[|entries| - 1] == ResumeEntry(resume)
    && (forall k, v :: HasText(entries, k, v) <==> SendsText(f, k, v))
    && (forall i :: 0 <= i < |entries| - 1 ==> entries[i].TextEntry?)
  }

  /** What an optional field contributes: one entry when it is a non-empty string. */
  function OptionalEntry(key: Key, x: Option<string>): (r: seq<FormEntry>)
    ensures forall k, v :: TextEntry(k, v) in r <==> k == key && Sent(x, v)
    ensures forall e :: e in r ==> e.TextEntry?
  {
    if x.Some? && x.value != "" then [TextEntry(key, x.value)] else []
  }

  /** The `FormData` the page builds, append by append. */
  method BuildFormData(f: EmploymentForm, resume: File) returns (entries: seq<FormEntry>)
    ensures entries == [TextEntry(FullNameKey, f.fullName), TextEntry(EmailKey, f.email)]
      + OptionalEntry(PhoneKey, f.phone) + OptionalEntry(DesiredPositionKey, f.desiredPosition)
      + OptionalEntry(AdditionalInfoKey, f.additionalInfo) + [ResumeEntry(resume)]
    ensures IsFormData(f, resume, entries)
  {
    entries := [TextEntry(FullNameKey, f.fullName)];
    entries := entries + [TextEntry(EmailKey, f.email)];
    ghost var head := entries;
    if f.phone.Some? && f.phone.value != "" {
      entries := entries + [TextEntry(PhoneKey, f.phone.value)];
    }
    assert entries == head + OptionalEntry(PhoneKey, f.phone);
    if f.desiredPosition.Some? && f.desiredPosition.value != "" {
      entries := entries + [TextEntry(DesiredPositionKey, f.desiredPosition.value)];
    }
    assert entries == head + OptionalEntry(PhoneKey, f.phone) + OptionalEntry(DesiredPositionKey, f.desiredPosition);
    if f.additionalInfo.Some? && f.additionalInfo.value != "" {
      entries := entries + [TextEntry(AdditionalInfoKey, f.additionalInfo.value)];
    }
    ghost var texts := entries;
    assert texts == head + OptionalEntry(PhoneKey, f.phone) + OptionalEntry(DesiredPositionKey, f.desiredPosition)
      + OptionalEntry(AdditionalInfoKey, f.additionalInfo);
    entries := entries + [ResumeEntry(resume)];
    FormDataShape(f, resume, texts, entries);
  }

  lemma FormDataShape(f: EmploymentForm, resume: File, texts: seq<FormEntry>, entries: seq<FormEntry>)
    requires texts == [TextEntry(FullNameKey, f.fullName), TextEntry(EmailKey, f.email)]
      + OptionalEntry(PhoneKey, f.phone) + OptionalEntry(DesiredPositionKey, f.desiredPosition)
      + OptionalEntry(AdditionalInfoKey, f.additionalInfo)
    requires entries == texts + [ResumeEntry(resume)]
    ensures IsFormData(f, resume, entries)
  {
    var p := OptionalEntry(PhoneKey, f.phone);
    var d := OptionalEntry(DesiredPositionKey, f.desiredPosition);
    var a := OptionalEntry(AdditionalInfoKey, f.additionalInfo);
    forall e | e in texts ensures e.TextEntry? {
      assert e in [TextEntry(FullNameKey, f.fullName), TextEntry(EmailKey, f.email)] || e in p || e in d || e in a;
    }
    forall k, v ensures HasText(entries, k, v) <==> SendsText(f, k, v) {
      assert TextEntry(k, v) in entries <==> TextEntry(k, v) in texts;
    }
    forall i | 0 <= i < |entries| - 1 ensures entries[i].TextEntry? {
      assert entries[i] == texts[i] && texts[i] in texts;
    }
  }

  /** The text fields the server reads out of a multipart body, by name. */
  ghost predicate FieldsOf(entries: seq<FormEntry>, fields: map<string, string>) {
    forall k: Key :: (KeyName(k) in fields <==> exists v :: HasText(entries, k, v))
      && (KeyName(k) in fields ==> HasText(entries, k, fields[KeyName(k)]))
  }

  /** How the server reads back an optional field the page sent or left out. */
  lemma OptionalFieldRead(f: EmploymentForm, resume: File, entries: seq<FormEntry>, fields: map<string, string>,
                          key: Key, x: Option<string>)
    requires IsFormData(f, resume, entries) && FieldsOf(entries, fields)
    requires forall v :: SendsText(f, key, v) <==> Sent(x, v)
    ensures Storage.OrNull(Routes.FieldText(fields, KeyName(key))) == Storage.OrNull(x)
  {
    if KeyName(key) in fields {
      assert HasText(entries, key, fields[KeyName(key)]);
    }
    if x.Some? && x.value != "" {
      assert HasText(entries, key, x.value);
    }
  }

  /**
   * Whatever the page sends passes the server's resume insert schema, and
   * the record holds the form's values, with the optional fields that were
   * left empty read as absent.
   */
  lemma PageUploadParses(f: EmploymentForm, resume: File, entries: seq<FormEntry>, fields: map<string, string>)
    requires IsFormData(f, resume, entries) && FieldsOf(entries, fields)
    ensures ParseInsertResume(Routes.ResumeData(fields, AsUpload(resume))) == Ok(InsertResume(
      f.fullName, f.email, Storage.OrNull(f.phone), Storage.OrNull(f.desiredPosition), resume.name,
      Routes.FileSizeLabel(resume.size), Storage.OrNull(f.additionalInfo)))
  {
    assert HasText(entries, FullNameKey, f.fullName) && HasText(entries, EmailKey, f.email);
    assert KeyName(FullNameKey) in fields && KeyName(EmailKey) in fields;
    assert HasText(entries, FullNameKey, fields["fullName"]) && HasText(entries, EmailKey, fields["email"]);
    OptionalFieldRead(f, resume, entries, fields, PhoneKey, f.phone);
    OptionalFieldRead(f, resume, entries, fields, DesiredPositionKey, f.desiredPosition);
    OptionalFieldRead(f, resume, entries, fields, AdditionalInfoKey, f.additionalInfo);
    Routes.ResumeDataParse(fields, AsUpload(resume));
  }

  // ---------------------------------------------------------------------
  // Page state
  // ---------------------------------------------------------------------

  class GetEmployedPage {
    var form: EmploymentForm
    var selectedFile: Option<File>
    var submitted: bool

    constructor ()
      ensures form == DefaultForm && selectedFile == None && !submitted
    {
      form := DefaultForm;
      selectedFile := None;
      submitted := false;
    }

    /** Keeps the first chosen file if it passes both checks; otherwise the earlier choice stays. */
    method HandleFileChange(files: seq<File>)
      modifies this
      ensures files != [] && CheckFile(files[0]) == Accepted ==> selectedFile == Some(files[0])
      ensures files == [] || CheckFile(files[0]) != Accepted ==> selectedFile == old(selectedFile)
      ensures form == old(form) && submitted == old(submitted)
    {
      if files != [] {
        var file := files[0];
        if file.size > MaxFileSize {
          return;
        }
        if file.mimeType !in AllowedTypes {
          return;
        }
        selectedFile := Some(file);
      }
    }

    /**
     * `form.handleSubmit(onSubmit)`: nothing is sent while the schema finds
     * an issue or no file is kept; otherwise the multipart body is sent.
     */
    method Submit(isEmail: string -> bool) returns (sent: Option<seq<FormEntry>>)
      ensures sent.Some? <==> FormValid(form, isEmail) && selectedFile.Some?
      ensures sent.Some? ==> IsFormData(form, selectedFile.value, sent.value)
    {
      var issues := SchemaIssues(form, isEmail);
      NoIssuesIffValid(form, isEmail);
      if issues != [] {
        sent := None;
        return;
      }
      if selectedFile.None? {
        sent := None;
        return;
      }
      var entries := BuildFormData(form, selectedFile.value);
      sent := Some(entries);
    }

    method OnSuccess()
      modifies this
      ensures submitted
      ensures form == old(form) && selectedFile == old(selectedFile)
    {
      submitted := true;
    }
  }
}
