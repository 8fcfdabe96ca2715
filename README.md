# ShitPostAI intake pipeline, modelled in Dafny

ShitPostAI is a careers site. Its logic is a form-intake pipeline. Three pages take input:

- a resume upload form;
- a developer-application form;
- an AI career assistant.

Each page checks its input in the browser and posts it to an Express API. The API checks the request again. For the assistant, it picks one of four canned advice templates by keyword. It then appends one row to one of four append-only tables and returns the row.

This project models that pipeline and proves properties about it:

| file | module | models |
|---|---|---|
| `wrappers.dfy` | `Wrappers` | `Option` and `Result` |
| `text.dfy` | `Text` | the JavaScript string operations the pipeline uses: `toLowerCase`, `includes`, `trim`, `String(n)`, `padStart`; each comes with its inverse or characterisation |
| `dispatcher.dfy` | `Dispatcher` | the keyword dispatcher of the AI-query route and an ordered rule list it is proved equal to |
| `queue_number.dfy` | `QueueNumber` | `DEV-<year>-<padded count+1>` and a parser that reads it back |
| `schema.dfy` | `Schema` | the four tables' rows (nullable columns as `Option`) and the four insert schemas, as field-presence checks over a parsed request object |
| `storage.dfy` | `Storage` | `DatabaseStorage` as a class over four sequences, with the invariant that queue number `i` carries sequence `i+1` |
| `routes.dfy` | `Routes` | the upload gate, the derived resume record, the handlers as methods over the store, and the 400/500 mapping |
| `developer_hiring.dfy` | `DeveloperHiring` | the page's zod schema, the tech-stack checkbox handler, the posted JSON and the page state |
| `get_employed.dfy` | `GetEmployed` | the page's schema, the file gate, the `FormData` it builds and the page state |
| `ai_tool.dfy` | `AiTool` | the blank-query guard, the preset-prompt and file-picker query builders, and the page state |

Browser rules and server rules are kept apart. The server checks none of the page's rules. Its insert schemas come from `notNull` columns and check only that a field is present and of the right kind (`shared/schema.ts:44-63`). The page rules are checked only in the browser: a valid email, a non-empty tech stack, a motivation of at least ten characters, and a non-blank query. Lemmas such as `DeveloperHiring.ServerStoresUntouchedForm` and `AiTool.SpaceBlockedOnlyByPage` show the gap.

External inputs the model takes as parameters:

- the current year (`new Date().getFullYear()`);
- the creation timestamp;
- whether a database call throws (`storeFails`);
- email validity (`isEmail`).

Row ids come from a counter inside the store. The real ids are random UUIDs. The model treats them as opaque fresh values.

## Model

| member | source | states |
|---|---|---|
| Text.LowerChar | ShitPostAI/server/routes.ts:102 | one character of `toLowerCase`: an ASCII capital becomes its small letter, every other character stays |
| Text.ToLower | ShitPostAI/server/routes.ts:102 | `query.toLowerCase()`, character by character; its properties are the lemmas below |
| Text.ToLowerHasNoUpper | ShitPostAI/server/routes.ts:102 | no ASCII capital survives lower-casing |
| Text.ToLowerIdempotent | ShitPostAI/server/routes.ts:102 | lower-casing twice is lower-casing once |
| Text.ToLowerSlice | ShitPostAI/server/routes.ts:102 | lower-casing commutes with taking a slice |
| Text.ToLowerAppend | ShitPostAI/server/routes.ts:102 | lower-casing distributes over concatenation |
| Text.ToLowerFixed | ShitPostAI/server/routes.ts:102 | text without ASCII capitals is its own lower-case form |
| Text.OccursAt | ShitPostAI/server/routes.ts:102 | the keyword occurs at a given position |
| Text.Contains | ShitPostAI/server/routes.ts:102 | `includes`: the keyword occurs at some position |
| Text.ContainsAt | ShitPostAI/server/routes.ts:102 | an occurrence at a known position makes `includes` true |
| Text.ToLowerKeepsOccurrence | ShitPostAI/server/routes.ts:102 | an occurrence of a keyword with no capitals survives lower-casing |
| Text.LoweredOccurrence | ShitPostAI/server/routes.ts:102 | characters that spell a keyword once lower-cased, in any mix of cases, make the lower-cased query contain it |
| Text.ToLowerAvoids | ShitPostAI/server/routes.ts:102 | a lower-case letter absent from the query in both cases is absent from its lower-cased form |
| Text.NotContainsMissingChar | ShitPostAI/server/routes.ts:102 | `includes` fails when one character of the keyword never occurs |
| Text.ContainsInContext | ShitPostAI/server/routes.ts:102 | text around an occurrence does not hide it |
| Text.IsJsWhitespace | ShitPostAI/client/src/pages/ai-tool.tsx:42 | the ECMAScript WhiteSpace and LineTerminator characters that `trim` removes |
| Text.AllWhitespace | ShitPostAI/client/src/pages/ai-tool.tsx:42 | every character is such whitespace |
| Text.TrimStart | ShitPostAI/client/src/pages/ai-tool.tsx:42 | the result is a suffix, what was dropped is whitespace, and the result does not start with whitespace |
| Text.WhitespaceTail | ShitPostAI/client/src/pages/ai-tool.tsx:42 | a whitespace run extended by a whitespace character is still whitespace |
| Text.TrimEnd | ShitPostAI/client/src/pages/ai-tool.tsx:42 | the result is a prefix, what was dropped is whitespace, and the result does not end with whitespace |
| Text.WhitespaceConcat | ShitPostAI/client/src/pages/ai-tool.tsx:42 | whitespace followed by whitespace is whitespace |
| Text.Trim | ShitPostAI/client/src/pages/ai-tool.tsx:42 | `trim`: leading whitespace removed, then trailing |
| Text.IsBlank | ShitPostAI/client/src/pages/ai-tool.tsx:42 | `!query.trim()`: nothing is left after trimming |
| Text.TrimStartAllWhitespace | ShitPostAI/client/src/pages/ai-tool.tsx:42 | a string of whitespace only trims to nothing at the front |
| Text.BlankIffAllWhitespace | ShitPostAI/client/src/pages/ai-tool.tsx:42 | `!query.trim()` holds exactly when every character is ECMAScript whitespace |
| Text.IsDigit | ShitPostAI/server/storage.ts:61 | a decimal digit character |
| Text.AllDigits | ShitPostAI/server/storage.ts:61 | every character is a decimal digit |
| Text.DigitChar | ShitPostAI/server/storage.ts:61 | the character of a digit value below ten |
| Text.DigitValue | ShitPostAI/server/storage.ts:61 | the value of a digit character |
| Text.NatToString | ShitPostAI/server/storage.ts:61 | `String(n)`: the decimal digits of `n`, most significant first, at least one of them |
| Text.ParseNat | ShitPostAI/server/storage.ts:61 | reads a digit string as a number: the inverse against which `String(n)` and the padding are checked |
| Text.NatToStringDigits | ShitPostAI/server/storage.ts:61 | `String(n)` is made of digits only and, from 10 on, has no leading zero |
| Text.ParseNatToString | ShitPostAI/server/storage.ts:61 | reading the decimal rendering gives back the number |
| Text.PadStartShape | ShitPostAI/server/storage.ts:61 | `padStart` reaches the width with the fill character on the left and never cuts a longer string |
| Text.Repeat | ShitPostAI/server/storage.ts:61 | `k` copies of the fill character, and nothing else |
| Text.PadStart | ShitPostAI/server/storage.ts:61 | `padStart(width, c)`: fill characters in front up to the width, a longer string as it is |
| Text.ParseNatLeadingZeros | ShitPostAI/server/storage.ts:61 | zeros in front of a digit string keep it digits and keep its value |
| Text.ZerosParseToZero | ShitPostAI/server/storage.ts:61 | a run of zeros reads as 0 |
| Text.ParsePadded | ShitPostAI/server/storage.ts:61 | zero padding keeps a digit string's value |
| Dispatcher.Dispatch | ShitPostAI/server/routes.ts:102-212 | the if / else-if chain on `query.toLowerCase().includes(...)` for "resume", "interview" and "career", with the general template last; the lemmas below state what it picks |
| Dispatcher.TemplateText | ShitPostAI/server/routes.ts:103-211 | the four response texts, each represented by its heading |
| Dispatcher.FirstMatch | ShitPostAI/server/routes.ts:102-212 | the reference rule list always yields one of its templates or the fallback |
| Dispatcher.FirstMatchIsFirst | ShitPostAI/server/routes.ts:102-187 | the first rule whose keyword occurs decides, when no earlier one does |
| Dispatcher.FirstMatchNone | ShitPostAI/server/routes.ts:187-212 | when no keyword occurs the fallback is chosen |
| Dispatcher.DispatchIsFirstMatch | ShitPostAI/server/routes.ts:102-212 | the if / else-if chain equals the ordered rules resume, interview, career over the lower-cased query |
| Dispatcher.ResumeWins | ShitPostAI/server/routes.ts:102 | Resume Analysis is chosen exactly when the lower-cased query contains "resume", whatever else it contains |
| Dispatcher.InterviewSecond | ShitPostAI/server/routes.ts:102-127 | Interview Preparation exactly when "interview" occurs and "resume" does not |
| Dispatcher.CareerThird | ShitPostAI/server/routes.ts:102-154 | Career Path Guidance exactly when "career" occurs and neither earlier keyword does |
| Dispatcher.DefaultOtherwise | ShitPostAI/server/routes.ts:187-212 | General Career Advice exactly when no keyword occurs |
| Dispatcher.DispatchIgnoresCase | ShitPostAI/server/routes.ts:102 | re-casing the query never changes the choice |
| Dispatcher.ResumeInAnyCase | ShitPostAI/server/routes.ts:102 | "resume" in any mix of cases selects Resume Analysis |
| Dispatcher.ResumeInContext | ShitPostAI/server/routes.ts:102 | a query that embeds a Resume-Analysis query still selects it |
| Dispatcher.TemplateTextInjective | ShitPostAI/server/routes.ts:103-211 | the four templates are distinct texts |
| Dispatcher.SampleResumeQuery | ShitPostAI/server/routes.ts:102 | "How do I improve my resume?" selects Resume Analysis |
| Dispatcher.SampleInterviewQuery | ShitPostAI/server/routes.ts:127 | "interview tips please" selects Interview Preparation |
| Dispatcher.SampleResumeAndInterviewQuery | ShitPostAI/server/routes.ts:102-127 | a query naming both "resume" and "interview" selects Resume Analysis |
| Dispatcher.SampleCareerKeywords | ShitPostAI/server/routes.ts:102-154 | "what career should I pick" contains "career" and neither earlier keyword |
| Dispatcher.SampleCareerLacksLetter | ShitPostAI/server/routes.ts:102-154 | "what career should I pick" has no `m` and no `v` in any case, so neither "resume" nor "interview" can occur |
| Dispatcher.SampleCareerQuery | ShitPostAI/server/routes.ts:154 | that query selects Career Path Guidance |
| Dispatcher.SampleOtherQuery | ShitPostAI/server/routes.ts:187 | "hello" selects General Career Advice |
| QueueNumber.SequenceText | ShitPostAI/server/storage.ts:61 | `String(count + 1).padStart(3, '0')` |
| QueueNumber.Format | ShitPostAI/server/storage.ts:58-63 | `DEV-${year}-${number}` |
| QueueNumber.FindChar | ShitPostAI/server/storage.ts:62 | the position of the first dash, or the length when there is none: every earlier character is not a dash |
| QueueNumber.Parse | ShitPostAI/server/storage.ts:62 | the inverse of the format: `DEV-`, digits, a dash, digits, read back as two numbers, or nothing |
| QueueNumber.ParseFields | ShitPostAI/server/storage.ts:62 | the part of that inverse after `DEV-` |
| QueueNumber.DashAfterDigits | ShitPostAI/server/storage.ts:62 | in `<digits>-<rest>` the first dash is the one after the digits |
| QueueNumber.ParseFieldsJoined | ShitPostAI/server/storage.ts:62 | two digit runs joined by a dash read back as their values |
| QueueNumber.ParsePrefixed | ShitPostAI/server/storage.ts:62 | reading a queue number strips `DEV-` and reads what follows |
| QueueNumber.ParseJoined | ShitPostAI/server/storage.ts:62 | `DEV-<digits>-<digits>` reads back as the two numbers |
| QueueNumber.ParseFormat | ShitPostAI/server/storage.ts:58-63 | a queue number reads back as the year and sequence number it was made from |
| QueueNumber.FormatInjective | ShitPostAI/server/storage.ts:58-63 | distinct (year, sequence) pairs give distinct queue numbers |
| QueueNumber.SequenceTextWidth | ShitPostAI/server/storage.ts:61 | below 1000 the sequence part has three characters; from 1000 on it is the full number, never truncated |
| QueueNumber.DecimalLength | ShitPostAI/server/storage.ts:61 | the digit count of `String(n)` at the thresholds 100 and 1000 |
| QueueNumber.FirstSequenceTexts | ShitPostAI/server/storage.ts:61 | sequences 1 and 2 render as "001" and "002" |
| QueueNumber.SampleQueueNumbers | ShitPostAI/server/storage.ts:58-63 | sequence 7 in 2025 gives "DEV-2025-007"; sequence 1200 gives "DEV-2025-1200" |
| Schema.IsText | ShitPostAI/shared/schema.ts:12-42 | a `text(...).notNull()` column's value is present and a string |
| Schema.Accepts | ShitPostAI/shared/schema.ts:12-42 | one column's rule: required text is a present string; nullable text is missing, null or a string; required jsonb is present with any JSON value, null included |
| Schema.IssueOf | ShitPostAI/shared/schema.ts:12-42 | the issue one column contributes: its name exactly when its rule fails |
| Schema.Issues | ShitPostAI/shared/schema.ts:12-42 | the failing columns' names in declaration order: the paths of the zod issues |
| Schema.IssuesNameFailingColumns | ShitPostAI/shared/schema.ts:12-42 | the issue paths are exactly the columns whose rule the request object breaks; none means every rule holds |
| Schema.IssuesFrom | ShitPostAI/shared/schema.ts:12-42 | the issue list is built column by column in declaration order |
| Schema.IssuesTwo | ShitPostAI/shared/schema.ts:44-63 | a two-column schema's issues are the first column's then the second's |
| Schema.IssuesSeven | ShitPostAI/shared/schema.ts:49-58 | a seven-column schema's issues are its columns' issues in order |
| Schema.IssuesIgnoreOtherKeys | ShitPostAI/shared/schema.ts:44-63 | a key naming no column of the schema never affects the result |
| Schema.TextOf | ShitPostAI/shared/schema.ts:44-63 | the string a required text column takes from the request |
| Schema.NullableTextOf | ShitPostAI/shared/schema.ts:49-58 | a nullable column's value as optional text: null or missing reads as none |
| Schema.OptionalText | ShitPostAI/shared/schema.ts:49-58 | optional text as a request value, none being null |
| Schema.JsonOf | ShitPostAI/shared/schema.ts:30 | the value a jsonb column takes from the request |
| Schema.ParseInsertUser | ShitPostAI/shared/schema.ts:44-47 | accepted exactly when `username` and `password` are text; the input holds those two and nothing else |
| Schema.ParseInsertResume | ShitPostAI/shared/schema.ts:49-52 | accepted exactly when `fullName`, `email`, `fileName` and `fileSize` are text and the three nullable fields are text, null or missing; otherwise the error lists the failing columns |
| Schema.ParseInsertDeveloperApplication | ShitPostAI/shared/schema.ts:54-58 | accepted exactly when the four required texts are present and `techStack` is present, with any value including null; no email, length or non-emptiness rule |
| Schema.ParseInsertAiQuery | ShitPostAI/shared/schema.ts:60-63 | accepted exactly when `query` and `response` are both text |
| Schema.ResumeIssues | ShitPostAI/shared/schema.ts:12-22 | the resume schema's issues: each failing column's name, in declaration order |
| Schema.AgreeOn | ShitPostAI/shared/schema.ts:49-63 | two request objects hold the same value, or none, under a key |
| Schema.UpdateElsewhere | ShitPostAI/shared/schema.ts:49-63 | setting one key leaves what is under every other key as it was |
| Schema.DeveloperApplicationIgnoresGenerated | ShitPostAI/shared/schema.ts:54-58 | whatever a client sends as `id`, `queueNumber` or `createdAt` is dropped |
| Schema.ResumeIgnoresGenerated | ShitPostAI/shared/schema.ts:49-52 | a client's `id` or `createdAt` on a resume is dropped |
| Schema.AiQueryIgnoresGenerated | ShitPostAI/shared/schema.ts:60-63 | an AI query's input omits only `id` and `createdAt` |
| Schema.UserInputIsPicked | ShitPostAI/shared/schema.ts:44-47 | user input is cut down to `username` and `password` |
| Storage.OrNull | ShitPostAI/server/storage.ts:46-48 | `x or null`: missing and empty text become null, and anything else is kept |

| Storage.OrNullIdempotent | ShitPostAI/server/storage.ts:46-48 | normalising a normalised value changes nothing |
| Storage.ResumeRow | ShitPostAI/server/storage.ts:41-52 | the stored resume: the input with the generated id and timestamp, and empty optional text as null |
| Storage.ApplicationRow | ShitPostAI/server/storage.ts:65-76 | the stored application: the input under the queue number, with empty links as null |
| Storage.QueueNumbersSequential | ShitPostAI/server/storage.ts:58-63 | row `i` carries the queue number of its own year and sequence `i+1` |
| Storage.SequentialQueueNumbersAreUnique | ShitPostAI/shared/schema.ts:26 | a table whose row `i` carries the queue number of its own year and sequence `i+1` never repeats a queue number |
| Storage.NextQueueNumberIsFresh | ShitPostAI/server/storage.ts:58-63 | the number generated for the next row is not yet taken, for any year |
| Storage.AppendKeepsSequential | ShitPostAI/server/storage.ts:65-76 | appending under the generated number keeps the table sequential |
| Storage.UsernamesUnique | ShitPostAI/shared/schema.ts:8 | the unique constraint on `username` |
| Storage.UsernameTaken | ShitPostAI/shared/schema.ts:8 | some stored user has the username |
| Storage.TablesValid | ShitPostAI/shared/schema.ts:6-42 | the store's invariant: unique usernames, sequential queue numbers, no null tech stack, and ids that increase and stay below the next one |
| Storage.ApplicationKeepsTablesValid | ShitPostAI/server/storage.ts:65-76 | appending an application under the generated number and the next id keeps every table invariant of the store |
| Storage.FindById | ShitPostAI/server/storage.ts:23-26 | a user is found exactly when one has the id, and the one found has it |
| Storage.FindByUsername | ShitPostAI/server/storage.ts:28-31 | a user is found exactly when one has the username |
| Storage.DatabaseStorage.Valid | ShitPostAI/shared/schema.ts:6-42 | the store's fields satisfy that invariant |
| Storage.DatabaseStorage.constructor | ShitPostAI/server/storage.ts:96 | the store starts with four empty tables |
| Storage.DatabaseStorage.GetUser | ShitPostAI/server/storage.ts:23-26 | the stored user with that id, if there is one |
| Storage.DatabaseStorage.GetUserByUsername | ShitPostAI/server/storage.ts:28-31 | the stored user with that username, if there is one |
| Storage.DatabaseStorage.CreateUser | ShitPostAI/server/storage.ts:33-39 | a taken username is refused by the unique constraint and nothing changes; otherwise exactly one user is appended and usernames stay unique |
| Storage.DatabaseStorage.CreateResume | ShitPostAI/server/storage.ts:41-52 | appends exactly one resume: the input with empty optional fields as null; the other tables are unchanged |
| Storage.DatabaseStorage.GetAllResumes | ShitPostAI/server/storage.ts:54-56 | every stored resume; the model returns them in insertion order |
| Storage.DatabaseStorage.GenerateQueueNumber | ShitPostAI/server/storage.ts:58-63 | `DEV-year-pad3(count+1)`, different from every stored queue number |
| Storage.DatabaseStorage.CreateDeveloperApplication | ShitPostAI/server/storage.ts:65-76 | a null tech stack is refused by the NOT NULL constraint and nothing changes; otherwise one application is appended under the generated number, which is new to the table, with empty links as null; the other tables are unchanged |
| Storage.DatabaseStorage.GetAllDeveloperApplications | ShitPostAI/server/storage.ts:79-81 | every stored application; the model returns them in insertion order |
| Storage.DatabaseStorage.CreateAiQuery | ShitPostAI/server/storage.ts:83-89 | appends exactly the input as one AI query; the other tables are unchanged |
| Storage.DatabaseStorage.GetAllAiQueries | ShitPostAI/server/storage.ts:91-93 | every stored AI query; the model returns them in insertion order |
| Storage.DatabaseStorage.QueueNumbersUnique | ShitPostAI/shared/schema.ts:26 | in a valid store no two applications share a queue number |
| Routes.UploadRejection | ShitPostAI/server/routes.ts:9-22 | a file passes exactly when its type is PDF, DOC or DOCX and it is at most 5 MiB; a wrong type is refused for its type whatever its size |
| Routes.UploadSizeBoundary | ShitPostAI/server/routes.ts:12 | exactly 5 MiB passes; one byte more is "File too large" |
| Routes.RoundedKilobytes | ShitPostAI/server/routes.ts:39 | the KiB count is within half a KiB of the byte count, halves rounded up |
| Routes.RoundedKilobytesUnique | ShitPostAI/server/routes.ts:39 | those bounds admit only one whole number |
| Routes.RoundingSamples | ShitPostAI/server/routes.ts:39 | 511 B is 0 KB, 512 B is 1 KB, 1536 B is 2 KB, 5 MiB is 5120 KB |
| Routes.FileSizeLabel | ShitPostAI/server/routes.ts:39 | digits then "KB", and the digits read back as the rounded KiB count |
| Routes.FieldText | ShitPostAI/server/routes.ts:34-35 | `req.body.x`: the multipart field as sent, or undefined |
| Routes.FieldOrNull | ShitPostAI/server/routes.ts:36-40 | `req.body.x`, or null: absent or empty text becomes null |
| Routes.CopyField | ShitPostAI/server/routes.ts:34-35 | a field copied as it is; an absent field stays absent |
| Routes.ResumeData | ShitPostAI/server/routes.ts:33-41 | the `resumeData` object built from the text fields and the uploaded file |
| Routes.ResumeDataFields | ShitPostAI/server/routes.ts:33-41 | what the derived record holds under each key the schema reads |
| Routes.ResumeDataParse | ShitPostAI/server/routes.ts:33-43 | the derived record passes the insert schema exactly when `fullName` and `email` were sent, even empty ones; the input holds the sent values, the file name and the size label |
| Routes.ResumeDataIssues | ShitPostAI/server/routes.ts:43-49 | a refused record's issues are exactly the missing `fullName`, then the missing `email` |
| Routes.PostResume | ShitPostAI/server/routes.ts:27-53 | refused file gives a 500 with the gate's message; no file gives 400 "Resume file is required"; a schema failure gives 400 with the issues; a store failure gives 500; otherwise one resume is appended and returned. Nothing is stored on any failure |
| Routes.GetResumes | ShitPostAI/server/routes.ts:56-63 | every stored resume (in the model's insertion order), or 500 "Failed to fetch resumes" |
| Routes.PostDeveloperApplication | ShitPostAI/server/routes.ts:66-78 | schema failure gives 400 with the issues; a store failure, or a null `techStack` refused by the insert, gives 500; otherwise the application is stored under a new queue number and returned |
| Routes.GetDeveloperApplications | ShitPostAI/server/routes.ts:81-88 | every stored application (in the model's insertion order), or 500 "Failed to fetch applications" |
| Routes.QueryGiven | ShitPostAI/server/routes.ts:93-97 | `query` is present, a string and not empty: the negation of the 400 guard |
| Routes.QueryGuard | ShitPostAI/server/routes.ts:93-97 | the guard passes exactly the non-empty strings; missing, null and non-string queries are turned away |
| Routes.WhitespaceQueryPassesGuard | ShitPostAI/server/routes.ts:95 | a non-empty query of whitespace only passes the server's guard although it is blank |
| Routes.AiQueryDataIsValid | ShitPostAI/server/routes.ts:214-215 | `{query, response}` always passes the insert schema unchanged |
| Routes.PostAiQuery | ShitPostAI/server/routes.ts:91-225 | a missing or empty query gives 400 "Query is required" and stores nothing; otherwise the query is stored untouched with the dispatcher's template as its response, or 500 when the store fails |
| Routes.StoredResponseIdentifiesTemplate | ShitPostAI/server/routes.ts:214-218 | a stored response determines the template it came from |
| DeveloperHiring.Passes | ShitPostAI/client/src/pages/developer-hiring.tsx:17-25 | one field's rule of `developerSchema` |
| DeveloperHiring.Check | ShitPostAI/client/src/pages/developer-hiring.tsx:17-25 | the issue one field contributes |
| DeveloperHiring.SchemaIssues | ShitPostAI/client/src/pages/developer-hiring.tsx:17-25 | the reported fields are exactly those whose rule fails, each once |
| DeveloperHiring.FormValid | ShitPostAI/client/src/pages/developer-hiring.tsx:17-25 | the schema's rules written as one conjunction, the reference the issue list is checked against |
| DeveloperHiring.NoIssuesIffValid | ShitPostAI/client/src/pages/developer-hiring.tsx:17-25 | no issue exactly when full name and experience are non-empty, the email is valid, at least one technology is chosen and the motivation has at least 10 characters |
| DeveloperHiring.MotivationBoundary | ShitPostAI/client/src/pages/developer-hiring.tsx:24 | 9 characters fail; 10 pass when every other rule holds |
| DeveloperHiring.OptionalLinksUnchecked | ShitPostAI/client/src/pages/developer-hiring.tsx:22-23 | GitHub and portfolio values never change the outcome |
| DeveloperHiring.DefaultFormIssues | ShitPostAI/client/src/pages/developer-hiring.tsx:45-53 | the untouched form fails on name, experience, tech stack and motivation |
| DeveloperHiring.Without | ShitPostAI/client/src/pages/developer-hiring.tsx:87 | `filter(item => item !== x)`: no copy of `x` is left and every other entry keeps its count |
| DeveloperHiring.WithoutAppend | ShitPostAI/client/src/pages/developer-hiring.tsx:87 | filtering works piece by piece, so the remaining entries keep their order |
| DeveloperHiring.WithoutAbsent | ShitPostAI/client/src/pages/developer-hiring.tsx:87 | filtering out an absent entry changes nothing |
| DeveloperHiring.TechStackAfter | ShitPostAI/client/src/pages/developer-hiring.tsx:82-89 | `handleTechStackChange`'s new stack: the technology appended when checked, filtered out when unchecked |
| DeveloperHiring.CheckAppends | ShitPostAI/client/src/pages/developer-hiring.tsx:84-85 | checking appends at the end: length plus one, earlier entries in place |
| DeveloperHiring.CheckThenUncheck | ShitPostAI/client/src/pages/developer-hiring.tsx:82-89 | unchecking right after checking removes every copy; a technology that was absent leaves the stack as it was |
| DeveloperHiring.ToJson | ShitPostAI/client/src/pages/developer-hiring.tsx:57-58 | the JSON body `apiRequest` posts; an undefined optional field is not sent |
| DeveloperHiring.ServerAcceptsEveryClientPayload | ShitPostAI/client/src/pages/developer-hiring.tsx:57-58 | the server's schema accepts every body the page can post, with the values as sent |
| DeveloperHiring.ServerStoresUntouchedForm | ShitPostAI/shared/schema.ts:24-35 | the server would accept the untouched form that the page never sends; its empty links become null |
| DeveloperHiring.DeveloperHiringPage.constructor | ShitPostAI/client/src/pages/developer-hiring.tsx:39-54 | the default form values; not submitted; no queue number |
| DeveloperHiring.DeveloperHiringPage.HandleTechStackChange | ShitPostAI/client/src/pages/developer-hiring.tsx:82-89 | the stack grows by the technology when checked and loses every copy when unchecked; nothing else changes |
| DeveloperHiring.DeveloperHiringPage.Submit | ShitPostAI/client/src/pages/developer-hiring.tsx:78-80 | the body is posted exactly when the schema holds, and it is the form's JSON |
| DeveloperHiring.DeveloperHiringPage.OnSuccess | ShitPostAI/client/src/pages/developer-hiring.tsx:61-63 | the reply's queue number is shown and the page switches to confirmation |
| DeveloperHiring.SubmitToEmptyStore | ShitPostAI/client/src/pages/developer-hiring.tsx:56-63 | a valid form, submitted and posted to the server's handler over an empty store, shows the year's first queue number; an invalid form is never posted and shows nothing |
| GetEmployed.SchemaIssues | ShitPostAI/client/src/pages/get-employed.tsx:15-21 | the full name is reported exactly when empty, and the email exactly when invalid |
| GetEmployed.FormValid | ShitPostAI/client/src/pages/get-employed.tsx:15-21 | a non-empty full name and a valid email |
| GetEmployed.NoIssuesIffValid | ShitPostAI/client/src/pages/get-employed.tsx:15-21 | no issue exactly when the name is non-empty and the email valid |
| GetEmployed.OptionalFieldsUnchecked | ShitPostAI/client/src/pages/get-employed.tsx:18-20 | phone, position and notes never affect validity |
| GetEmployed.CheckFile | ShitPostAI/client/src/pages/get-employed.tsx:92-123 | above 5 MiB is too large whatever the type; otherwise a type outside the three is refused; the rest is accepted |
| GetEmployed.SizeBoundary | ShitPostAI/client/src/pages/get-employed.tsx:96 | exactly 5 MiB passes the size check; one byte more fails it |
| GetEmployed.AsUpload | ShitPostAI/client/src/pages/get-employed.tsx:49 | the chosen file as the server's upload gate sees the part: its name, type and size |
| GetEmployed.PageAndServerGatesAgree | ShitPostAI/client/src/pages/get-employed.tsx:96-119 | the page keeps a file exactly when the server's upload gate would pass it |
| GetEmployed.GatesDisagreeOnReason | ShitPostAI/server/routes.ts:14-21 | a file both too large and of the wrong type is refused for size by the page and for type by the server |
| GetEmployed.KeyName | ShitPostAI/client/src/pages/get-employed.tsx:44-48 | the names the page appends under |
| GetEmployed.KeyNameInjective | ShitPostAI/client/src/pages/get-employed.tsx:44-48 | distinct keys have distinct names |
| GetEmployed.HasText | ShitPostAI/client/src/pages/get-employed.tsx:44-48 | the body holds a text entry |
| GetEmployed.Sent | ShitPostAI/client/src/pages/get-employed.tsx:46-48 | `if (x)`: an optional field is sent only as a non-empty string |
| GetEmployed.SendsText | ShitPostAI/client/src/pages/get-employed.tsx:44-48 | what the page sends under each key for a form |
| GetEmployed.IsFormData | ShitPostAI/client/src/pages/get-employed.tsx:43-49 | full name and email first, each optional field exactly when non-empty, only text before the resume, the resume last |
| GetEmployed.OptionalEntry | ShitPostAI/client/src/pages/get-employed.tsx:46-48 | an optional field adds one entry exactly when it is a non-empty string |
| GetEmployed.BuildFormData | ShitPostAI/client/src/pages/get-employed.tsx:42-49 | exactly the entries full name, email, each non-empty optional field in order, then the resume; that body has the shape `IsFormData` states |
| GetEmployed.FormDataShape | ShitPostAI/client/src/pages/get-employed.tsx:42-49 | the appended sequence has that shape |
| GetEmployed.FieldsOf | ShitPostAI/server/routes.ts:34-40 | the text fields the server reads out of the multipart body, by name |
| GetEmployed.OptionalFieldRead | ShitPostAI/server/routes.ts:36-40 | the server's `x or null` reading of an optional field equals that of the form's value |
| GetEmployed.PageUploadParses | ShitPostAI/server/routes.ts:33-43 | every body the page sends passes the server's resume schema and yields the form's values, empty optional fields as null |
| GetEmployed.GetEmployedPage.constructor | ShitPostAI/client/src/pages/get-employed.tsx:26-39 | the default values; no file; not submitted |
| GetEmployed.GetEmployedPage.HandleFileChange | ShitPostAI/client/src/pages/get-employed.tsx:92-123 | the first chosen file is kept only when both checks pass; otherwise the earlier choice stays |
| GetEmployed.GetEmployedPage.Submit | ShitPostAI/client/src/pages/get-employed.tsx:79-90 | nothing is sent while the schema fails or no file is kept; otherwise the multipart body is sent |
| GetEmployed.GetEmployedPage.OnSuccess | ShitPostAI/client/src/pages/get-employed.tsx:63-64 | the page switches to its confirmation |
| AiTool.PromptQuery | ShitPostAI/client/src/pages/ai-tool.tsx:53-55 | the preset label followed by ": " |
| AiTool.UploadQuery | ShitPostAI/client/src/pages/ai-tool.tsx:60 | "Analyzing uploaded resume: " followed by the file name |
| AiTool.UploadQuerySelectsResume | ShitPostAI/client/src/pages/ai-tool.tsx:60 | the picker's query selects Resume Analysis whatever the file is called |
| AiTool.ResumeReviewPreset | ShitPostAI/client/src/pages/ai-tool.tsx:92 | "Resume Review: " selects Resume Analysis |
| AiTool.InterviewPrepPreset | ShitPostAI/client/src/pages/ai-tool.tsx:101 | "Interview Prep: " selects Interview Preparation |
| AiTool.CareerPathKeywords | ShitPostAI/client/src/pages/ai-tool.tsx:110 | "Career Path: " contains "career" and neither earlier keyword |
| AiTool.CareerPathPreset | ShitPostAI/client/src/pages/ai-tool.tsx:110 | "Career Path: " selects Career Path Guidance |
| AiTool.SkillDevelopmentPreset | ShitPostAI/client/src/pages/ai-tool.tsx:119 | "Skill Development: " selects General Career Advice |
| AiTool.SentQueryPassesServerGuard | ShitPostAI/client/src/pages/ai-tool.tsx:42-50 | any query the page sends passes the server's "Query is required" check |
| AiTool.SpaceBlockedOnlyByPage | ShitPostAI/client/src/pages/ai-tool.tsx:42 | " " is blocked by the page but would pass the server's check |
| AiTool.AiToolPage.constructor | ShitPostAI/client/src/pages/ai-tool.tsx:13-15 | empty query and response; nothing shown |
| AiTool.AiToolPage.SetQuery | ShitPostAI/client/src/pages/ai-tool.tsx:128 | typing sets the query and nothing else |
| AiTool.AiToolPage.HandleSubmit | ShitPostAI/client/src/pages/ai-tool.tsx:40-51 | nothing is sent exactly when the query is whitespace only; otherwise the query is sent untrimmed |
| AiTool.AiToolPage.SetPrompt | ShitPostAI/client/src/pages/ai-tool.tsx:53-55 | the query becomes the label plus ": " |
| AiTool.AiToolPage.HandleFileUpload | ShitPostAI/client/src/pages/ai-tool.tsx:57-66 | choosing a file writes its query; cancelling changes nothing |
| AiTool.AiToolPage.OnSuccess | ShitPostAI/client/src/pages/ai-tool.tsx:23-25 | the shown response is the record's response |
| AiTool.AskOnce | ShitPostAI/client/src/pages/ai-tool.tsx:18-51 | a non-blank query, sent and stored, ends up shown as the template the dispatcher picks for it as typed; a blank one shows nothing |

## Left out

- JSX rendering, styling, icons and toasts are presentation. The toast texts are not modelled.
- Express, multer's streaming, HTTP and the react-query plumbing are left out. The model keeps only the decisions they make: which reply, which status, what is stored.
- The drizzle/Postgres layer is replaced by sequences in memory. `gen_random_uuid()` ids become a fresh counter value. `defaultNow()` becomes a `now` parameter.
- The template HTML is left out. A template is represented by its heading, one distinct constant per template.
- Email validity is the abstract predicate `isEmail`, a parameter. Zod's email regex is not modelled.
- A failure in the database is the `storeFails` parameter of each handler. The model does not try to say when Postgres fails.
- Storage.DatabaseStorage.GenerateQueueNumber: uniqueness is proved for sequential calls only. Two concurrent requests can read the same row count, and only the unique constraint on `queueNumber` (`shared/schema.ts:26`) would stop the duplicate. Concurrency is not modelled.
- Text.ToLower: only ASCII letters are lower-cased. Lower-casing outside ASCII can create an ASCII letter from only two characters: U+0130 gives "i" plus a combining dot, and U+212A gives "k". Neither creates an occurrence of "resume", "interview" or "career", so keyword selection is unaffected.
- DeveloperHiring.SchemaIssues: `min` counts UTF-16 code units in zod but Unicode scalar values here. The two counts differ only for characters outside the Basic Multilingual Plane.
- Routes.ResumeData: multipart text fields are a map from name to string. A field sent twice, which multer turns into an array, is not modelled.
- A multer rejection is a 500 carrying the gate's message. This is how the framework's default error handler answers an error without a status. Its HTML body is not modelled.
- Routes.PostResume: a file sent under a field name other than `resume`, which multer rejects, is not modelled.
- Schema.Value: request values are text, a list of texts, null or "other". That is as fine as the insert schemas tell values apart. The `techStack` schema accepts any JSON value, null included; a null is refused only by the column's NOT NULL constraint, which `Storage.DatabaseStorage.CreateDeveloperApplication` models.
- Storage.DatabaseStorage.GetAllResumes: `select` without `order by` promises no order. The model returns the rows in insertion order.
- Storage.DatabaseStorage.GetAllDeveloperApplications: the model fixes insertion order, which the query does not promise.
- Storage.DatabaseStorage.GetAllAiQueries: the model fixes insertion order, which the query does not promise.
- Routes.GetResumes: the reply lists the rows in the model's insertion order; the database may return another order.
- Routes.GetDeveloperApplications: the reply lists the rows in the model's insertion order; the database may return another order.
- The page's option lists (technologies, experience levels) and its field error messages are presentation and are not modelled.
- The users table has no route. Its store operations are modelled as plain lookups and an insert with the username uniqueness rule.
- The `about`, `home`, `shitpost-ai` and navigation pages and the route table are not part of this model.
