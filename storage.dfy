/**
 * The in-memory store `MemStorage`: five tables keyed by id, each with its
 * own id counter. Creating a row takes the table's counter as its id and
 * bumps the counter; updating overlays the given fields on the stored row;
 * deleting reports whether the id was there. Listings are the table's rows
 * in insertion order, which is ascending key order because ids only grow,
 * filtered by owner.
 *
 * Every `new Date()` is the parameter `now`.
 */
module Storage {
  import opened Core
  import opened Json
  import opened Schema

  // The falsy-to-null conversions of `x || null`.

  /** `s || null` for an optional string: absent and "" become null. */
  function TextOrNull(s: Option<string>): (r: Option<string>)
    ensures r.None? <==> s.None? || s == Some("")
    ensures r.Some? ==> r == s
  {
    if s == Some("") then None else s
  }

  /** `s || null` for a string that is always present. */
  function StringOrNull(s: string): (r: Option<string>)
    ensures r.None? <==> s == ""
    ensures r.Some? ==> r.value == s
  {
    if s == "" then None else Some(s)
  }

  /** `n || null` for an optional number: absent and 0 become null. */
  function NumberOrNull(n: Option<int>): (r: Option<int>)
    ensures r.None? <==> n.None? || n == Some(0)
    ensures r.Some? ==> r == n
  {
    if n == Some(0) then None else n
  }

  /** `n || null` for a number that is always present. */
  function IntOrNull(n: int): (r: Option<int>)
    ensures r.None? <==> n == 0
    ensures r.Some? ==> r.value == n
  {
    if n == 0 then None else Some(n)
  }

  /** `b || null`: false becomes null, so only `true` survives. */
  function BoolOrNull(b: bool): (r: Option<bool>)
    ensures r.None? <==> !b
    ensures r.Some? ==> r.value
  {
    if b then Some(true) else None
  }

  // The rows `create*` builds.

  function NewUser(id: int, x: InsertUser, now: Timestamp): (r: User)
    ensures r.id == id && r.username == x.username && r.password == x.password
    ensures r.fullName == TextOrNull(x.fullName) && r.plan == StringOrNull(x.plan)
    ensures r.createdAt == Some(now) && r.updatedAt == Some(now)
  {
    User(id, x.username, x.password, TextOrNull(x.fullName), StringOrNull(x.plan),
      Some(now), Some(now))
  }

  /** Every optional text field `|| null`, the score `|| null`, `userId` kept as given. */
  function NewLead(id: int, x: InsertLead, now: Timestamp): (r: Lead)
    ensures r.id == id && r.name == x.name && r.source == x.source && r.userId == Some(x.userId)
    ensures r.address == TextOrNull(x.address) && r.city == TextOrNull(x.city)
    ensures r.state == TextOrNull(x.state) && r.zip == TextOrNull(x.zip)
    ensures r.phone == TextOrNull(x.phone) && r.email == TextOrNull(x.email)
    ensures r.notes == TextOrNull(x.notes) && r.amountOwed == TextOrNull(x.amountOwed)
    ensures r.motivationScore == NumberOrNull(x.motivationScore)
    ensures r.status == StringOrNull(x.status)
    ensures r.createdAt == Some(now) && r.updatedAt == Some(now)
  {
    Lead(id, x.name, TextOrNull(x.address), TextOrNull(x.city), TextOrNull(x.state),
      TextOrNull(x.zip), TextOrNull(x.phone), TextOrNull(x.email), x.source,
      NumberOrNull(x.motivationScore), StringOrNull(x.status), TextOrNull(x.notes),
      TextOrNull(x.amountOwed), Some(now), Some(now), Some(x.userId))
  }

  /** A new workflow has never run; `active: false` is stored as null. */
  function NewWorkflow(id: int, x: InsertWorkflow, now: Timestamp): (r: Workflow)
    ensures r.id == id && r.name == x.name && r.trigger == x.trigger
    ensures r.actions == JArray(x.actions)
    ensures r.description == TextOrNull(x.description)
    ensures r.active == BoolOrNull(x.active) && r.userId == IntOrNull(x.userId)
    ensures r.lastRun.None? && r.createdAt == Some(now)
  {
    Workflow(id, x.name, TextOrNull(x.description), x.trigger, JArray(x.actions),
      BoolOrNull(x.active), None, Some(now), IntOrNull(x.userId))
  }

  function NewDocument(id: int, x: InsertDocument, now: Timestamp): (r: Document)
    ensures r.id == id && r.name == x.name && r.docType == x.docType
    ensures r.content == TextOrNull(x.content) && r.url == TextOrNull(x.url)
    ensures r.status == StringOrNull(x.status)
    ensures r.leadId == NumberOrNull(x.leadId) && r.userId == IntOrNull(x.userId)
    ensures r.createdAt == Some(now)
  {
    Document(id, x.name, x.docType, TextOrNull(x.content), TextOrNull(x.url),
      StringOrNull(x.status), Some(now), NumberOrNull(x.leadId), IntOrNull(x.userId))
  }

  /**
   * A new scraping job starts with no results and no last run, whatever the
   * input. `notes` and `schedule` are read from the input object although
   * the insert shape does not declare them, so they are separate parameters.
   */
  function NewScrapingJob(id: int, x: InsertScrapingJob, notes: Option<string>,
                          schedule: Option<string>, now: Timestamp): (r: ScrapingJob)
    ensures r.id == id && r.name == x.name && r.source == x.source
    ensures r.url == TextOrNull(x.url) && r.status == StringOrNull(x.status)
    ensures r.userId == IntOrNull(x.userId)
    ensures r.notes == TextOrNull(notes) && r.schedule == TextOrNull(schedule)
    ensures r.results == Some([]) && r.lastRun.None? && r.createdAt == Some(now)
  {
    ScrapingJob(id, x.name, x.source, TextOrNull(x.url), StringOrNull(x.status), Some([]),
      None, Some(now), IntOrNull(x.userId), TextOrNull(notes), TextOrNull(schedule))
  }

  // `Partial<T>` updates: a field the patch gives replaces the stored one.

  function Over<T>(v: T, p: Option<T>): (r: T)
    ensures p.Some? ==> r == p.value
    ensures p.None? ==> r == v
  {
    if p.Some? then p.value else v
  }

  datatype LeadPatch = LeadPatch(
    id: Option<int>, name: Option<string>, address: Option<Option<string>>,
    city: Option<Option<string>>, state: Option<Option<string>>, zip: Option<Option<string>>,
    phone: Option<Option<string>>, email: Option<Option<string>>, source: Option<string>,
    motivationScore: Option<Option<int>>, status: Option<Option<string>>,
    notes: Option<Option<string>>, amountOwed: Option<Option<string>>,
    createdAt: Option<Option<Timestamp>>, updatedAt: Option<Option<Timestamp>>,
    userId: Option<Option<int>>)

  /** `{ ...lead, ...updates }`. */
  function PatchLead(l: Lead, p: LeadPatch): Lead {
    Lead(Over(l.id, p.id), Over(l.name, p.name), Over(l.address, p.address),
      Over(l.city, p.city), Over(l.state, p.state), Over(l.zip, p.zip),
      Over(l.phone, p.phone), Over(l.email, p.email), Over(l.source, p.source),
      Over(l.motivationScore, p.motivationScore), Over(l.status, p.status),
      Over(l.notes, p.notes), Over(l.amountOwed, p.amountOwed),
      Over(l.createdAt, p.createdAt), Over(l.updatedAt, p.updatedAt), Over(l.userId, p.userId))
  }

  /** The patch that gives no field. */
  const NoLeadChange := LeadPatch(None, None, None, None, None, None, None, None, None,
    None, None, None, None, None, None, None)

  /** A patch that gives only the score and the notes. */
  function ScoreAndNotes(score: Option<int>, notes: string): (p: LeadPatch)
    ensures p.motivationScore == Some(score) && p.notes == Some(Some(notes))
  {
    NoLeadChange.(motivationScore := Some(score), notes := Some(Some(notes)))
  }

  datatype WorkflowPatch = WorkflowPatch(
    id: Option<int>, name: Option<string>, description: Option<Option<string>>,
    trigger: Option<string>, actions: Option<Json>, active: Option<Option<bool>>,
    lastRun: Option<Option<Timestamp>>, createdAt: Option<Option<Timestamp>>,
    userId: Option<Option<int>>)

  function PatchWorkflow(w: Workflow, p: WorkflowPatch): Workflow {
    Workflow(Over(w.id, p.id), Over(w.name, p.name), Over(w.description, p.description),
      Over(w.trigger, p.trigger), Over(w.actions, p.actions), Over(w.active, p.active),
      Over(w.lastRun, p.lastRun), Over(w.createdAt, p.createdAt), Over(w.userId, p.userId))
  }

  datatype DocumentPatch = DocumentPatch(
    id: Option<int>, name: Option<string>, docType: Option<string>,
    content: Option<Option<string>>, url: Option<Option<string>>,
    status: Option<Option<string>>, createdAt: Option<Option<Timestamp>>,
    leadId: Option<Option<int>>, userId: Option<Option<int>>)

  function PatchDocument(d: Document, p: DocumentPatch): Document {
    Document(Over(d.id, p.id), Over(d.name, p.name), Over(d.docType, p.docType),
      Over(d.content, p.content), Over(d.url, p.url), Over(d.status, p.status),
      Over(d.createdAt, p.createdAt), Over(d.leadId, p.leadId), Over(d.userId, p.userId))
  }

  datatype ScrapingJobPatch = ScrapingJobPatch(
    id: Option<int>, name: Option<string>, source: Option<string>,
    url: Option<Option<string>>, status: Option<Option<string>>,
    results: Option<Option<seq<ScrapedRecord>>>, lastRun: Option<Option<Timestamp>>,
    createdAt: Option<Option<Timestamp>>, userId: Option<Option<int>>,
    notes: Option<Option<string>>, schedule: Option<Option<string>>)

  function PatchScrapingJob(j: ScrapingJob, p: ScrapingJobPatch): ScrapingJob {
    ScrapingJob(Over(j.id, p.id), Over(j.name, p.name), Over(j.source, p.source),
      Over(j.url, p.url), Over(j.status, p.status), Over(j.results, p.results),
      Over(j.lastRun, p.lastRun), Over(j.createdAt, p.createdAt), Over(j.userId, p.userId),
      Over(j.notes, p.notes), Over(j.schedule, p.schedule))
  }

  const NoJobChange := ScrapingJobPatch(None, None, None, None, None, None, None, None,
    None, None, None)

  /** Applying a patch twice is applying it once; the empty patch changes nothing. */
  lemma {:induction false} PatchLeadLaws(l: Lead, p: LeadPatch)
    ensures PatchLead(PatchLead(l, p), p) == PatchLead(l, p)
    ensures PatchLead(l, NoLeadChange) == l
    ensures p.name.None? ==> PatchLead(l, p).name == l.name
    ensures p.status.None? ==> PatchLead(l, p).status == l.status
  {
  }

  /**
   * The rows of `m` with keys in [lo, hi), in ascending key order: what
   * `Array.from(map.values())` yields for a table whose keys were inserted
   * in ascending order.
   */
  function InKeyOrder<T(==)>(m: map<int, T>, lo: int, hi: int): (r: seq<T>)
    ensures |r| <= if lo < hi then hi - lo else 0
    ensures forall x :: x in r ==> x in m.Values
    ensures forall k :: lo <= k < hi && k in m ==> m[k] in r
    decreases hi - lo
  {
    if lo >= hi then []
    else
      var rest := InKeyOrder(m, lo + 1, hi);
      if lo in m then [m[lo]] + rest else rest
  }

  /**
   * Searching the rows in key order finds the matching row with the least
   * key: no row with a smaller key in the range matches.
   */
  lemma {:induction false} FindFirstInKeyOrder<T>(m: map<int, T>, lo: int, hi: int, p: T -> bool)
    ensures var r := FindFirst(InKeyOrder(m, lo, hi), p);
      r.Some? ==> exists k :: lo <= k < hi && k in m && m[k] == r.value &&
                              forall j :: lo <= j < k && j in m ==> !p(m[j])
    decreases hi - lo
  {
    if lo < hi {
      FindFirstInKeyOrder(m, lo + 1, hi, p);
      var rest := InKeyOrder(m, lo + 1, hi);
      if lo in m {
        assert InKeyOrder(m, lo, hi) == [m[lo]] + rest;
        assert ([m[lo]] + rest)[1..] == rest;
      }
    }
  }

  // The demo user the constructor seeds.

  const DemoUsername := "demo@rezguru.ai"

  function DemoUser(now: Timestamp): User {
    User(1, DemoUsername, "password123", Some("Alex Morgan"), Some("free"), Some(now), Some(now))
  }

  /** The rows `seedData` creates, table by table. */
  datatype SampleData = SampleData(
    leads: seq<InsertLead>, workflows: seq<InsertWorkflow>, documents: seq<InsertDocument>,
    scrapingJobs: seq<InsertScrapingJob>)


  class MemStorage {
    var users: map<int, User>
    var leads: map<int, Lead>
    var workflows: map<int, Workflow>
    var documents: map<int, Document>
    var scrapingJobs: map<int, ScrapingJob>

    var userIdCounter: int
    var leadIdCounter: int
    var workflowIdCounter: int
    var documentIdCounter: int
    var scrapingJobIdCounter: int

    /**
     * Every key was handed out by its table's counter, so it lies below the
     * counter. The users table also holds the seeded demo user at key 1,
     * which the counter (starting at 1) does not account for.
     */
    predicate Valid()
      reads this
    {
      userIdCounter >= 1 && leadIdCounter >= 1 && workflowIdCounter >= 1 &&
      documentIdCounter >= 1 && scrapingJobIdCounter >= 1 &&
      (forall k :: k in users ==> 1 <= k && (k < userIdCounter || k == 1)) &&
      (forall k :: k in leads ==> 1 <= k < leadIdCounter) &&
      (forall k :: k in workflows ==> 1 <= k < workflowIdCounter) &&
      (forall k :: k in documents ==> 1 <= k < documentIdCounter) &&
      (forall k :: k in scrapingJobs ==> 1 <= k < scrapingJobIdCounter)
    }

    /**
     * All counters start at 1; the demo user is put at id 1 without moving
     * the user counter; then the sample leads, workflows, documents and
     * scraping jobs are created in order, taking ids 1, 2, ….
     */
    constructor(samples: SampleData, now: Timestamp)
      ensures Valid()
      ensures users == map[1 := DemoUser(now)] && userIdCounter == 1
      ensures forall k :: k in leads <==> 1 <= k <= |samples.leads|
      ensures forall k :: k in leads ==> leads[k] == NewLead(k, samples.leads[k - 1], now)
      ensures leadIdCounter == |samples.leads| + 1
      ensures forall k :: k in workflows <==> 1 <= k <= |samples.workflows|
      ensures forall k :: k in workflows ==> workflows[k] == NewWorkflow(k, samples.workflows[k - 1], now)
      ensures workflowIdCounter == |samples.workflows| + 1
      ensures forall k :: k in documents <==> 1 <= k <= |samples.documents|
      ensures forall k :: k in documents ==> documents[k] == NewDocument(k, samples.documents[k - 1], now)
      ensures documentIdCounter == |samples.documents| + 1
      ensures forall k :: k in scrapingJobs <==> 1 <= k <= |samples.scrapingJobs|
      ensures forall k :: k in scrapingJobs ==> scrapingJobs[k] == NewScrapingJob(k, samples.scrapingJobs[k - 1], None, None, now)
      ensures scrapingJobIdCounter == |samples.scrapingJobs| + 1
    {
      users := map[1 := DemoUser(now)];
      leads := map[];
      workflows := map[];
      documents := map[];
      scrapingJobs := map[];
      userIdCounter := 1;
      leadIdCounter := 1;
      workflowIdCounter := 1;
      documentIdCounter := 1;
      scrapingJobIdCounter := 1;
      new;
      SeedLeads(samples.leads, now);
      SeedWorkflows(samples.workflows, now);
      SeedDocuments(samples.documents, now);
      SeedScrapingJobs(samples.scrapingJobs, now);
    }

    /** Creates `rows` in order into the empty leads table. */
    method SeedLeads(rows: seq<InsertLead>, now: Timestamp)
      requires Valid() && leads == map[] && leadIdCounter == 1
      modifies this`leads, this`leadIdCounter
      ensures Valid()
      ensures leadIdCounter == |rows| + 1
      ensures forall k :: k in leads <==> 1 <= k <= |rows|
      ensures forall k :: k in leads ==> leads[k] == NewLead(k, rows[k - 1], now)
    {
      for i := 0 to |rows|
        invariant Valid() && leadIdCounter == i + 1
        invariant forall k :: k in leads <==> 1 <= k <= i
        invariant forall k :: k in leads ==> leads[k] == NewLead(k, rows[k - 1], now)
      {
        ghost var before := leads;
        var lead := CreateLead(rows[i], now);
        forall k | k in leads
          ensures leads[k] == NewLead(k, rows[k - 1], now)
        {
          if k != lead.id {
            assert leads[k] == before[k];
          }
        }
      }
    }

    /** Creates `rows` in order into the empty workflows table. */
    method SeedWorkflows(rows: seq<InsertWorkflow>, now: Timestamp)
      requires Valid() && workflows == map[] && workflowIdCounter == 1
      modifies this`workflows, this`workflowIdCounter
      ensures Valid()
      ensures workflowIdCounter == |rows| + 1
      ensures forall k :: k in workflows <==> 1 <= k <= |rows|
      ensures forall k :: k in workflows ==> workflows[k] == NewWorkflow(k, rows[k - 1], now)
    {
      for i := 0 to |rows|
        invariant Valid() && workflowIdCounter == i + 1
        invariant forall k :: k in workflows <==> 1 <= k <= i
        invariant forall k :: k in workflows ==> workflows[k] == NewWorkflow(k, rows[k - 1], now)
      {
        ghost var before := workflows;
        var workflow := CreateWorkflow(rows[i], now);
        forall k | k in workflows
          ensures workflows[k] == NewWorkflow(k, rows[k - 1], now)
        {
          if k != workflow.id {
            assert workflows[k] == before[k];
          }
        }
      }
    }

    /** Creates `rows` in order into the empty documents table. */
    method SeedDocuments(rows: seq<InsertDocument>, now: Timestamp)
      requires Valid() && documents == map[] && documentIdCounter == 1
      modifies this`documents, this`documentIdCounter
      ensures Valid()
      ensures documentIdCounter == |rows| + 1
      ensures forall k :: k in documents <==> 1 <= k <= |rows|
      ensures forall k :: k in documents ==> documents[k] == NewDocument(k, rows[k - 1], now)
    {
      for i := 0 to |rows|
        invariant Valid() && documentIdCounter == i + 1
        invariant forall k :: k in documents <==> 1 <= k <= i
        invariant forall k :: k in documents ==> documents[k] == NewDocument(k, rows[k - 1], now)
      {
        var _ := CreateDocument(rows[i], now);
      }
    }

    /** Creates `rows` in order into the empty scrapingJobs table. */
    method SeedScrapingJobs(rows: seq<InsertScrapingJob>, now: Timestamp)
      requires Valid() && scrapingJobs == map[] && scrapingJobIdCounter == 1
      modifies this`scrapingJobs, this`scrapingJobIdCounter
      ensures Valid()
      ensures scrapingJobIdCounter == |rows| + 1
      ensures forall k :: k in scrapingJobs <==> 1 <= k <= |rows|
      ensures forall k :: k in scrapingJobs ==> scrapingJobs[k] == NewScrapingJob(k, rows[k - 1], None, None, now)
    {
      for i := 0 to |rows|
        invariant Valid() && scrapingJobIdCounter == i + 1
        invariant forall k :: k in scrapingJobs <==> 1 <= k <= i
        invariant forall k :: k in scrapingJobs ==> scrapingJobs[k] == NewScrapingJob(k, rows[k - 1], None, None, now)
      {
        var _ := CreateScrapingJob(rows[i], None, None, now);
      }
    }

    // Users.

    function GetUser(id: int): (r: Option<User>)
      reads this
      ensures r.Some? <==> id in users
      ensures r.Some? ==> r.value == users[id]
    {
      if id in users then Some(users[id]) else None
    }

    /** The users in insertion order, which puts the demo user at key 1 first. */
    function AllUsers(): (r: seq<User>)
      reads this
      requires Valid()
      ensures forall u :: u in r ==> u in users.Values
      ensures forall k :: k in users ==> users[k] in r
    {
      InKeyOrder(users, 1, Max(userIdCounter, 2))
    }

    /** The first user, in insertion order, with that username. */
    function GetUserByUsername(username: string): (r: Option<User>)
      reads this
      requires Valid()
      ensures r.Some? ==> r.value in users.Values && r.value.username == username
      ensures r.None? ==> forall k :: k in users ==> users[k].username != username
      ensures r.Some? ==> exists k :: k in users && users[k] == r.value &&
                                      forall j :: j in users && j < k ==> users[j].username != username
    {
      var p := (u: User) => u.username == username;
      FindFirstInKeyOrder(users, 1, Max(userIdCounter, 2), p);
      FindFirst(AllUsers(), p)
    }

    /**
     * The new user takes the current user counter as id. Because the
     * counter starts at 1 while the demo user already sits at key 1, the
     * first sign-up replaces the demo user.
     */
    method CreateUser(x: InsertUser, now: Timestamp) returns (r: User)
      requires Valid()
      modifies this`users, this`userIdCounter
      ensures Valid()
      ensures r == NewUser(old(userIdCounter), x, now)
      ensures userIdCounter == old(userIdCounter) + 1
      ensures users == old(users)[r.id := r]
      ensures GetUser(r.id) == Some(r)
    {
      var id := userIdCounter;
      userIdCounter := userIdCounter + 1;
      r := NewUser(id, x, now);
      users := users[id := r];
    }

    // Leads.

    function GetLead(id: int): (r: Option<Lead>)
      reads this
      ensures r.Some? <==> id in leads
      ensures r.Some? ==> r.value == leads[id]
    {
      if id in leads then Some(leads[id]) else None
    }

    /** `getLeads(userId)`: the user's leads in insertion order. */
    function GetLeads(userId: int): (r: seq<Lead>)
      reads this
      requires Valid()
      ensures forall l :: l in r ==> l in leads.Values && l.userId == Some(userId)
      ensures forall k :: k in leads && leads[k].userId == Some(userId) ==> leads[k] in r
    {
      Filter(InKeyOrder(leads, 1, leadIdCounter), (l: Lead) => l.userId == Some(userId))
    }

    function GetLeadsByStatus(userId: int, status: string): (r: seq<Lead>)
      reads this
      requires Valid()
      ensures forall l :: l in r ==>
        l in leads.Values && l.userId == Some(userId) && l.status == Some(status)
    {
      Filter(InKeyOrder(leads, 1, leadIdCounter),
        (l: Lead) => l.userId == Some(userId) && l.status == Some(status))
    }

    /** The status listing is exactly the user listing narrowed to that status, in order. */
    lemma {:induction false} LeadsByStatusNarrowsLeads(userId: int, status: string)
      requires Valid()
      ensures GetLeadsByStatus(userId, status) ==
        Filter(GetLeads(userId), (l: Lead) => l.status == Some(status))
    {
      FilterFilter(InKeyOrder(leads, 1, leadIdCounter),
        (l: Lead) => l.userId == Some(userId), (l: Lead) => l.status == Some(status),
        (l: Lead) => l.userId == Some(userId) && l.status == Some(status));
    }

    /**
     * The lead takes the current lead counter as id, which is above every
     * id already in the table, and is then found under that id.
     */
    method CreateLead(x: InsertLead, now: Timestamp) returns (r: Lead)
      requires Valid()
      modifies this`leads, this`leadIdCounter
      ensures Valid()
      ensures r == NewLead(old(leadIdCounter), x, now)
      ensures leadIdCounter == old(leadIdCounter) + 1
      ensures forall k :: k in old(leads) ==> k < r.id
      ensures leads == old(leads)[r.id := r]
      ensures GetLead(r.id) == Some(r)
    {
      var id := leadIdCounter;
      leadIdCounter := leadIdCounter + 1;
      r := NewLead(id, x, now);
      leads := leads[id := r];
    }

    /** Unknown id: nothing changes. Known id: the patch is overlaid and `updatedAt` refreshed. */
    method UpdateLead(id: int, p: LeadPatch, now: Timestamp) returns (r: Option<Lead>)
      requires Valid()
      modifies this`leads
      ensures Valid()
      ensures r.Some? <==> id in old(leads)
      ensures r.None? ==> leads == old(leads)
      ensures r.Some? ==> r.value == PatchLead(old(leads)[id], p).(updatedAt := Some(now))
      ensures r.Some? ==> leads == old(leads)[id := r.value]
    {
      if id !in leads {
        return None;
      }
      var updated := PatchLead(leads[id], p).(updatedAt := Some(now));
      leads := leads[id := updated];
      r := Some(updated);
    }

    method DeleteLead(id: int) returns (present: bool)
      requires Valid()
      modifies this`leads
      ensures Valid()
      ensures present <==> id in old(leads)
      ensures leads == old(leads) - {id}
      ensures GetLead(id).None?
    {
      present := id in leads;
      leads := leads - {id};
    }

    // Workflows.

    function GetWorkflow(id: int): (r: Option<Workflow>)
      reads this
      ensures r.Some? <==> id in workflows
      ensures r.Some? ==> r.value == workflows[id]
    {
      if id in workflows then Some(workflows[id]) else None
    }

    function GetWorkflows(userId: int): (r: seq<Workflow>)
      reads this
      requires Valid()
      ensures forall w :: w in r ==> w in workflows.Values && w.userId == Some(userId)
      ensures forall k :: k in workflows && workflows[k].userId == Some(userId) ==>
        workflows[k] in r
    {
      Filter(InKeyOrder(workflows, 1, workflowIdCounter),
        (w: Workflow) => w.userId == Some(userId))
    }

    method CreateWorkflow(x: InsertWorkflow, now: Timestamp) returns (r: Workflow)
      requires Valid()
      modifies this`workflows, this`workflowIdCounter
      ensures Valid()
      ensures r == NewWorkflow(old(workflowIdCounter), x, now)
      ensures workflowIdCounter == old(workflowIdCounter) + 1
      ensures forall k :: k in old(workflows) ==> k < r.id
      ensures workflows == old(workflows)[r.id := r]
      ensures GetWorkflow(r.id) == Some(r)
    {
      var id := workflowIdCounter;
      workflowIdCounter := workflowIdCounter + 1;
      r := NewWorkflow(id, x, now);
      workflows := workflows[id := r];
    }

    /** Unlike leads, nothing but the patch changes: no timestamp is refreshed. */
    method UpdateWorkflow(id: int, p: WorkflowPatch) returns (r: Option<Workflow>)
      requires Valid()
      modifies this`workflows
      ensures Valid()
      ensures r.Some? <==> id in old(workflows)
      ensures r.None? ==> workflows == old(workflows)
      ensures r.Some? ==> r.value == PatchWorkflow(old(workflows)[id], p)
      ensures r.Some? ==> workflows == old(workflows)[id := r.value]
    {
      if id !in workflows {
        return None;
      }
      var updated := PatchWorkflow(workflows[id], p);
      workflows := workflows[id := updated];
      r := Some(updated);
    }

    method DeleteWorkflow(id: int) returns (present: bool)
      requires Valid()
      modifies this`workflows
      ensures Valid()
      ensures present <==> id in old(workflows)
      ensures workflows == old(workflows) - {id}
      ensures GetWorkflow(id).None?
    {
      present := id in workflows;
      workflows := workflows - {id};
    }

    // Documents.

    function GetDocument(id: int): (r: Option<Document>)
      reads this
      ensures r.Some? <==> id in documents
      ensures r.Some? ==> r.value == documents[id]
    {
      if id in documents then Some(documents[id]) else None
    }

    function GetDocuments(userId: int): (r: seq<Document>)
      reads this
      requires Valid()
      ensures forall d :: d in r ==> d in documents.Values && d.userId == Some(userId)
      ensures forall k :: k in documents && documents[k].userId == Some(userId) ==>
        documents[k] in r
    {
      Filter(InKeyOrder(documents, 1, documentIdCounter),
        (d: Document) => d.userId == Some(userId))
    }

    function GetDocumentsByLead(leadId: int): (r: seq<Document>)
      reads this
      requires Valid()
      ensures forall d :: d in r ==> d in documents.Values && d.leadId == Some(leadId)
      ensures forall k :: k in documents && documents[k].leadId == Some(leadId) ==>
        documents[k] in r
    {
      Filter(InKeyOrder(documents, 1, documentIdCounter),
        (d: Document) => d.leadId == Some(leadId))
    }

    method CreateDocument(x: InsertDocument, now: Timestamp) returns (r: Document)
      requires Valid()
      modifies this`documents, this`documentIdCounter
      ensures Valid()
      ensures r == NewDocument(old(documentIdCounter), x, now)
      ensures documentIdCounter == old(documentIdCounter) + 1
      ensures forall k :: k in old(documents) ==> k < r.id
      ensures documents == old(documents)[r.id := r]
      ensures GetDocument(r.id) == Some(r)
    {
      var id := documentIdCounter;
      documentIdCounter := documentIdCounter + 1;
      r := NewDocument(id, x, now);
      documents := documents[id := r];
    }

    method UpdateDocument(id: int, p: DocumentPatch) returns (r: Option<Document>)
      requires Valid()
      modifies this`documents
      ensures Valid()
      ensures r.Some? <==> id in old(documents)
      ensures r.None? ==> documents == old(documents)
      ensures r.Some? ==> r.value == PatchDocument(old(documents)[id], p)
      ensures r.Some? ==> documents == old(documents)[id := r.value]
    {
      if id !in documents {
        return None;
      }
      var updated := PatchDocument(documents[id], p);
      documents := documents[id := updated];
      r := Some(updated);
    }

    method DeleteDocument(id: int) returns (present: bool)
      requires Valid()
      modifies this`documents
      ensures Valid()
      ensures present <==> id in old(documents)
      ensures documents == old(documents) - {id}
      ensures GetDocument(id).None?
    {
      present := id in documents;
      documents := documents - {id};
    }

    // Scraping jobs.

    function GetScrapingJob(id: int): (r: Option<ScrapingJob>)
      reads this
      ensures r.Some? <==> id in scrapingJobs
      ensures r.Some? ==> r.value == scrapingJobs[id]
    {
      if id in scrapingJobs then Some(scrapingJobs[id]) else None
    }

    function GetScrapingJobs(userId: int): (r: seq<ScrapingJob>)
      reads this
      requires Valid()
      ensures forall j :: j in r ==> j in scrapingJobs.Values && j.userId == Some(userId)
      ensures forall k :: k in scrapingJobs && scrapingJobs[k].userId == Some(userId) ==>
        scrapingJobs[k] in r
    {
      Filter(InKeyOrder(scrapingJobs, 1, scrapingJobIdCounter),
        (j: ScrapingJob) => j.userId == Some(userId))
    }

    method CreateScrapingJob(x: InsertScrapingJob, notes: Option<string>,
                             schedule: Option<string>, now: Timestamp) returns (r: ScrapingJob)
      requires Valid()
      modifies this`scrapingJobs, this`scrapingJobIdCounter
      ensures Valid()
      ensures r == NewScrapingJob(old(scrapingJobIdCounter), x, notes, schedule, now)
      ensures scrapingJobIdCounter == old(scrapingJobIdCounter) + 1
      ensures forall k :: k in old(scrapingJobs) ==> k < r.id
      ensures scrapingJobs == old(scrapingJobs)[r.id := r]
      ensures GetScrapingJob(r.id) == Some(r)
    {
      var id := scrapingJobIdCounter;
      scrapingJobIdCounter := scrapingJobIdCounter + 1;
      r := NewScrapingJob(id, x, notes, schedule, now);
      scrapingJobs := scrapingJobs[id := r];
    }

    method UpdateScrapingJob(id: int, p: ScrapingJobPatch) returns (r: Option<ScrapingJob>)
      requires Valid()
      modifies this`scrapingJobs
      ensures Valid()
      ensures r.Some? <==> id in old(scrapingJobs)
      ensures r.None? ==> scrapingJobs == old(scrapingJobs)
      ensures r.Some? ==> r.value == PatchScrapingJob(old(scrapingJobs)[id], p)
      ensures r.Some? ==> scrapingJobs == old(scrapingJobs)[id := r.value]
    {
      if id !in scrapingJobs {
        return None;
      }
      var updated := PatchScrapingJob(scrapingJobs[id], p);
      scrapingJobs := scrapingJobs[id := updated];
      r := Some(updated);
    }

    method DeleteScrapingJob(id: int) returns (present: bool)
      requires Valid()
      modifies this`scrapingJobs
      ensures Valid()
      ensures present <==> id in old(scrapingJobs)
      ensures scrapingJobs == old(scrapingJobs) - {id}
      ensures GetScrapingJob(id).None?
    {
      present := id in scrapingJobs;
      scrapingJobs := scrapingJobs - {id};
    }
  }
}

/** The sample rows `seedData` seeds a fresh store with. */
module StorageSamples {
  import opened Core
  import opened Json
  import opened Schema
  import opened Storage

  function SampleLead(name: string, address: string, city: string, zip: string,
                      source: string, score: int, status: string): InsertLead {
    InsertLead(name, Some(address), Some(city), Some("AZ"), Some(zip), None, None, source,
      Some(score), status, None, None, 1)
  }

  const SampleLeads: seq<InsertLead> := [
    SampleLead("John Smith", "123 Main St", "Phoenix", "85001", "tax_delinquent", 85, "new")
      .(amountOwed := Some("$4,200")),
    SampleLead("Maria Garcia", "456 Elm St", "Mesa", "85201", "probate", 92, "new"),
    SampleLead("Robert Johnson", "789 Oak Dr", "Scottsdale", "85251", "fsbo", 62, "new"),
    SampleLead("Sarah Williams", "321 Pine Rd", "Tempe", "85281", "tax_delinquent", 78, "new"),
    SampleLead("David Brown", "567 Maple Ave", "Gilbert", "85296", "probate", 88, "contacted"),
    SampleLead("Jennifer Miller", "890 Cedar St", "Chandler", "85224", "tax_delinquent", 94,
      "contacted"),
    SampleLead("Michael Davis", "432 Birch Ln", "Glendale", "85301", "fsbo", 65, "contacted"),
    SampleLead("Emily Wilson", "765 Spruce Ct", "Phoenix", "85001", "tax_delinquent", 95,
      "closed"),
    SampleLead("Daniel Taylor", "234 Willow Dr", "Mesa", "85201", "probate", 90, "closed")
  ]

  /** `{ type, config }` as an action of a workflow. */
  function Action(kind: string, config: map<string, Json>): Json {
    JObject(map["type" := JString(kind), "config" := JObject(config)])
  }

  const SampleWorkflows: seq<InsertWorkflow> := [
    InsertWorkflow("Tax Delinquent Follow-up",
      Some("Automatically sends SMS and follows up with a call to tax delinquent leads."),
      "new_lead",
      [Action("filter", map["source" := JString("tax_delinquent")]),
       Action("sms", map["template" := JString(
         "Hi {{name}}, we noticed your property at {{address}} has tax issues. We can help.")]),
       Action("delay", map["hours" := JNumber(24)]),
       Action("call", map["script" := JString(
         "Hello, this is RezGuru calling about your property...")])],
      true, 1),
    InsertWorkflow("Probate Lead Processor",
      Some("Scrapes probate records, scores leads, and sends personalized emails."),
      "scheduled",
      [Action("scrape", map["source" := JString("probate"),
         "url" := JString("https://countycourts.org/probate")]),
       Action("score", map["model" := JString("ai-lead-scorer")]),
       Action("email", map["template" := JString(
         "Dear {{name}}, we understand this is a difficult time...")])],
      true, 1),
    InsertWorkflow("FSBO Document Generator",
      Some("Creates purchase offers and contracts for FSBO leads that respond."),
      "lead_update",
      [Action("filter", map["source" := JString("fsbo"), "status" := JString("contacted")]),
       Action("calculate", map["offer" := JString("0.7 * market_value")]),
       Action("document", map["template" := JString("offer_letter"),
         "variables" := JArray([JString("name"), JString("address"), JString("offer_amount")])])],
      true, 1)
  ]

  const SampleDocuments: seq<InsertDocument> := [
    InsertDocument("Purchase Offer - 123 Main St", "contract", None, None, "signed", Some(1), 1),
    InsertDocument("FCRA Dispute Letter", "dispute_letter", None, None, "draft", Some(2), 1),
    InsertDocument("Cash Offer - 456 Elm St", "offer", None, None, "rejected", Some(3), 1),
    InsertDocument("Assignment Contract", "contract", None, None, "sent", Some(4), 1)
  ]

  const SampleScrapingJobs: seq<InsertScrapingJob> := [
    InsertScrapingJob("Maricopa County Tax Delinquent", "tax_delinquent",
      Some("https://treasurer.maricopa.gov/delinquent-taxes"), "completed", 1),
    InsertScrapingJob("Pima County Probate Records", "probate",
      Some("https://www.sc.pima.gov/probate"), "pending", 1),
    InsertScrapingJob("Phoenix FSBO Listings", "fsbo",
      Some("https://phoenix.craigslist.org/search/reo"), "failed", 1)
  ]

  const Samples := SampleData(SampleLeads, SampleWorkflows, SampleDocuments, SampleScrapingJobs)

  /**
   * On a freshly seeded store the first sign-up gets id 1 and takes the
   * demo user's place: the demo user can no longer be found by its name.
   */
  method FirstSignUpReplacesDemo(now: Timestamp, x: InsertUser, later: Timestamp)
    returns (demoFound: bool, id: int)
    ensures id == 1
    ensures x.username != DemoUsername ==> !demoFound
  {
    var store := new MemStorage(Samples, now);
    var u := store.CreateUser(x, later);
    id := u.id;
    demoFound := store.GetUserByUsername(DemoUsername).Some?;
  }
}
