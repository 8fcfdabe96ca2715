/**
 * `DatabaseStorage`: four append-only tables. Every `create*` appends one
 * row to its own table and returns it; every `getAll*` returns the whole
 * table. Nothing is ever updated or deleted.
 */
module Storage {
  import opened Wrappers
  import opened Schema
  import QueueNumber
  import Text

  /** `x || null` on optional text: an empty string and a missing value both become null. */
  function OrNull(x: Option<string>): (r: Option<string>)
    ensures r == None <==> x == None || x == Some("")
    ensures r != None ==> r == x
  {
    if x == Some("") then None else x
  }

  /** Normalising twice is normalising once. */
  lemma OrNullIdempotent(x: Option<string>)
    ensures OrNull(OrNull(x)) == OrNull(x)
  {
  }

  /** The row `createResume` stores: the input, with empty optional text stored as null. */
  function ResumeRow(id: Id, input: InsertResume, now: Timestamp): Resume {
    Resume(id, input.fullName, input.email, OrNull(input.phone), OrNull(input.desiredPosition),
      input.fileName, input.fileSize, OrNull(input.additionalInfo), now)
  }

  /** The row `createDeveloperApplication` stores under `queueNumber`. */
  function ApplicationRow(id: Id, queueNumber: string, input: InsertDeveloperApplication, now: Timestamp)
    : DeveloperApplication
  {
    DeveloperApplication(id, queueNumber, input.fullName, input.email, input.experience,
      input.techStack, OrNull(input.githubProfile), OrNull(input.portfolioWebsite),
      input.motivation, now)
  }

  /** A violated unique or NOT NULL constraint, named by its column. */
  datatype StoreError = UniqueViolation(column: string) | NotNullViolation(column: string)

  /**
   * Application `i` (from 0) of the table carries sequence number `i + 1`
   * in its queue number; `years[i]` is the year it was generated in.
   */
  ghost predicate QueueNumbersSequential(apps: seq<DeveloperApplication>, years: seq<nat>) {
    && |years| == |apps|
    && forall i :: 0 <= i < |apps| ==> apps[i].queueNumber == QueueNumber.Format(years[i], i + 1)
  }

  /** The unique constraint on `queueNumber` holds of a table whose numbers are sequential. */
  lemma SequentialQueueNumbersAreUnique(apps: seq<DeveloperApplication>, years: seq<nat>)
    requires QueueNumbersSequential(apps, years)
    ensures forall i, j :: 0 <= i < j < |apps| ==> apps[i].queueNumber != apps[j].queueNumber
  {
    forall i, j | 0 <= i < j < |apps| ensures apps[i].queueNumber != apps[j].queueNumber {
      QueueNumber.FormatInjective(years[i], i + 1, years[j], j + 1);
    }
  }

  /** The number generated for the next row is not yet in a table whose numbers are sequential, whatever the year. */
  lemma NextQueueNumberIsFresh(apps: seq<DeveloperApplication>, years: seq<nat>, year: nat)
    requires QueueNumbersSequential(apps, years)
    ensures forall i :: 0 <= i < |apps| ==> apps[i].queueNumber != QueueNumber.Format(year, |apps| + 1)
  {
    forall i | 0 <= i < |apps| ensures apps[i].queueNumber != QueueNumber.Format(year, |apps| + 1) {
      QueueNumber.FormatInjective(years[i], i + 1, year, |apps| + 1);
    }
  }

  /** Appending a row under the number generated for `|apps| + 1` keeps the numbers sequential. */
  lemma AppendKeepsSequential(apps: seq<DeveloperApplication>, years: seq<nat>, a: DeveloperApplication,
                              year: nat)
    requires QueueNumbersSequential(apps, years)
    requires a.queueNumber == QueueNumber.Format(year, |apps| + 1)
    ensures QueueNumbersSequential(apps + [a], years + [year])
  {
    forall i | 0 <= i < |apps| + 1
      ensures (apps + [a])[i].queueNumber == QueueNumber.Format((years + [year])[i], i + 1)
    {
      if i < |apps| {
        assert (apps + [a])[i] == apps[i] && (years + [year])[i] == years[i];
      }
    }
  }

  ghost predicate UsernamesUnique(users: seq<User>) {
    forall i, j :: 0 <= i < j < |users| ==> users[i].username != users[j].username
  }

  predicate UsernameTaken(users: seq<User>, username: string) {
    exists i :: 0 <= i < |users| && users[i].username == username
  }

  /** The first user with the given id (`select ... where id = ?`, first row). */
  function FindById(users: seq<User>, id: Id): (r: Option<User>)
    ensures r.Some? <==> exists i :: 0 <= i < |users| && users[i].id == id
    ensures r.Some? ==> r.value in users && r.value.id == id
  {
    if users == [] then None
    else if users[0].id == id then Some(users[0])
    else
      var r := FindById(users[1..], id);
      assert forall i :: 0 < i < |users| ==> users[i] == users[1..][i - 1];
      r
  }

  /** The first user with the given username. */
  function FindByUsername(users: seq<User>, username: string): (r: Option<User>)
    ensures r.Some? <==> UsernameTaken(users, username)
    ensures r.Some? ==> r.value in users && r.value.username == username
  {
    if users == [] then None
    else if users[0].username == username then Some(users[0])
    else
      var r := FindByUsername(users[1..], username);
      assert forall i :: 0 < i < |users| ==> users[i] == users[1..][i - 1];
      r
  }

  /**
   * What the tables keep between calls: usernames are unique, queue numbers
   * are sequential, no application has a null tech stack (the NOT NULL
   * column), and in every table the ids increase and stay below the next id
   * to hand out.
   */
  ghost predicate TablesValid(users: seq<User>, resumes: seq<Resume>, apps: seq<DeveloperApplication>,
                              years: seq<nat>, queries: seq<AiQuery>, nextId: nat)
  {
    && UsernamesUnique(users)
    && QueueNumbersSequential(apps, years)
    && (forall i :: 0 <= i < |apps| ==> !apps[i].techStack.Null?)
    && (forall i, j :: 0 <= i < j < |users| ==> users[i].id < users[j].id)
    && (forall i :: 0 <= i < |users| ==> users[i].id < nextId)
    && (forall i, j :: 0 <= i < j < |resumes| ==> resumes[i].id < resumes[j].id)
    && (forall i :: 0 <= i < |resumes| ==> resumes[i].id < nextId)
    && (forall i, j :: 0 <= i < j < |apps| ==> apps[i].id < apps[j].id)
    && (forall i :: 0 <= i < |apps| ==> apps[i].id < nextId)
    && (forall i, j :: 0 <= i < j < |queries| ==> queries[i].id < queries[j].id)
    && (forall i :: 0 <= i < |queries| ==> queries[i].id < nextId)
  }

  /** Storing an application with a tech stack under the next id and the generated number keeps the tables valid. */
  lemma ApplicationKeepsTablesValid(users: seq<User>, resumes: seq<Resume>, apps: seq<DeveloperApplication>,
                                    years: seq<nat>, queries: seq<AiQuery>, nextId: nat,
                                    a: DeveloperApplication, year: nat)
    requires TablesValid(users, resumes, apps, years, queries, nextId)
    requires a.id == nextId && a.queueNumber == QueueNumber.Format(year, |apps| + 1)
    requires !a.techStack.Null?
    ensures TablesValid(users, resumes, apps + [a], years + [year], queries, nextId + 1)
  {
    AppendKeepsSequential(apps, years, a, year);
  }

  class DatabaseStorage {
    var users: seq<User>
    var resumes: seq<Resume>
    var developerApplications: seq<DeveloperApplication>
    var aiQueries: seq<AiQuery>
    /** The next identifier the database hands out; every stored id is below it. */
    var nextId: nat
    /** The year each stored application's queue number was generated in. */
    ghost var years: seq<nat>

    ghost predicate Valid()
      reads this
    {
      TablesValid(users, resumes, developerApplications, years, aiQueries, nextId)
    }

    constructor ()
      ensures Valid()
      ensures users == [] && resumes == [] && developerApplications == [] && aiQueries == []
    {
      users, resumes, developerApplications, aiQueries := [], [], [], [];
      nextId := 0;
      years := [];
    }

    method GetUser(id: Id) returns (u: Option<User>)
      requires Valid()
      ensures u.Some? <==> exists i :: 0 <= i < |users| && users[i].id == id
      ensures u.Some? ==> u.value in users && u.value.id == id
    {
      u := FindById(users, id);
    }

    method GetUserByUsername(username: string) returns (u: Option<User>)
      requires Valid()
      ensures u.Some? <==> UsernameTaken(users, username)
      ensures u.Some? ==> u.value in users && u.value.username == username
    {
      u := FindByUsername(users, username);
    }

    /** Inserts a user, unless the unique constraint on `username` rejects it. */
    method CreateUser(input: InsertUser) returns (r: Result<User, StoreError>)
      requires Valid()
      modifies this
      ensures Valid()
      ensures UsernameTaken(old(users), input.username) ==>
        r == Err(UniqueViolation("username")) && users == old(users) && nextId == old(nextId)
      ensures !UsernameTaken(old(users), input.username) ==>
        r == Ok(User(old(nextId), input.username, input.password)) && users == old(users) + [r.value]
        && nextId == old(nextId) + 1
      ensures resumes == old(resumes) && developerApplications == old(developerApplications)
      ensures aiQueries == old(aiQueries)
    {
      var existing := FindByUsername(users, input.username);
      if existing.Some? {
        r := Err(UniqueViolation("username"));
      } else {
        var user := User(nextId, input.username, input.password);
        users := users + [user];
        nextId := nextId + 1;
        r := Ok(user);
      }
    }

    /** Inserts a resume with empty optional fields stored as null. */
    method CreateResume(input: InsertResume, now: Timestamp) returns (r: Resume)
      requires Valid()
      modifies this
      ensures Valid()
      ensures r == ResumeRow(old(nextId), input, now)
      ensures resumes == old(resumes) + [r] && nextId == old(nextId) + 1
      ensures users == old(users) && developerApplications == old(developerApplications)
      ensures aiQueries == old(aiQueries)
    {
      r := Resume(nextId, input.fullName, input.email, OrNull(input.phone),
        OrNull(input.desiredPosition), input.fileName, input.fileSize,
        OrNull(input.additionalInfo), now);
      resumes := resumes + [r];
      nextId := nextId + 1;
    }

    method GetAllResumes() returns (rs: seq<Resume>)
      ensures rs == resumes
    {
      rs := resumes;
    }

    /** The queue number for the next application: the current row count plus one. */
    method GenerateQueueNumber(year: nat) returns (q: string)
      requires Valid()
      ensures q == QueueNumber.Format(year, |developerApplications| + 1)
      ensures forall i :: 0 <= i < |developerApplications| ==> developerApplications[i].queueNumber != q
    {
      var count := developerApplications;
      q := QueueNumber.Format(year, |count| + 1);
      NextQueueNumberIsFresh(developerApplications, years, year);
    }

    /**
     * Inserts an application under a freshly generated queue number; empty
     * `githubProfile` and `portfolioWebsite` are stored as null. A null
     * `techStack` violates the column's NOT NULL constraint: the insert is
     * refused and nothing is stored.
     */
    method CreateDeveloperApplication(input: InsertDeveloperApplication, year: nat, now: Timestamp)
      returns (r: Result<DeveloperApplication, StoreError>)
      requires Valid()
      modifies this
      ensures Valid()
      ensures input.techStack.Null? ==> r == Err(NotNullViolation("techStack")) && unchanged(this)
      ensures !input.techStack.Null? ==>
        && r == Ok(ApplicationRow(old(nextId), QueueNumber.Format(year, |old(developerApplications)| + 1),
             input, now))
        && (forall i :: 0 <= i < |old(developerApplications)| ==>
              old(developerApplications)[i].queueNumber != r.value.queueNumber)
        && developerApplications == old(developerApplications) + [r.value] && nextId == old(nextId) + 1
        && users == old(users) && resumes == old(resumes) && aiQueries == old(aiQueries)
    {
      var queueNumber := GenerateQueueNumber(year);
      if input.techStack.Null? {
        r := Err(NotNullViolation("techStack"));
        return;
      }
      var a := DeveloperApplication(nextId, queueNumber, input.fullName, input.email,
        input.experience, input.techStack, OrNull(input.githubProfile),
        OrNull(input.portfolioWebsite), input.motivation, now);
      ApplicationKeepsTablesValid(users, resumes, developerApplications, years, aiQueries, nextId, a, year);
      developerApplications := developerApplications + [a];
      years := years + [year];
      nextId := nextId + 1;
      r := Ok(a);
    }

    method GetAllDeveloperApplications() returns (apps: seq<DeveloperApplication>)
      ensures apps == developerApplications
    {
      apps := developerApplications;
    }

    method CreateAiQuery(input: InsertAiQuery, now: Timestamp) returns (q: AiQuery)
      requires Valid()
      modifies this
      ensures Valid()
      ensures q == AiQuery(old(nextId), input.query, input.response, now)
      ensures aiQueries == old(aiQueries) + [q] && nextId == old(nextId) + 1
      ensures users == old(users) && resumes == old(resumes)
      ensures developerApplications == old(developerApplications)
    {
      q := AiQuery(nextId, input.query, input.response, now);
      aiQueries := aiQueries + [q];
      nextId := nextId + 1;
    }

    method GetAllAiQueries() returns (qs: seq<AiQuery>)
      ensures qs == aiQueries
    {
      qs := aiQueries;
    }

    /** No two stored applications share a queue number. */
    lemma QueueNumbersUnique()
      requires Valid()
      ensures forall i, j :: 0 <= i < j < |developerApplications| ==>
        developerApplications[i].queueNumber != developerApplications[j].queueNumber
    {
      SequentialQueueNumbersAreUnique(developerApplications, years);
    }
  }
}
