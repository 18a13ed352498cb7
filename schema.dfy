/**
 * The shared record shapes of the five tables (users, leads, workflows,
 * documents, scraping jobs) and the request-body validators built from them
 * with zod: which fields are required, their minimum lengths, which may be
 * null or absent, and the defaults filled in. Unknown keys are dropped, as
 * zod objects strip them.
 */
module Schema {
  import opened Core
  import opened Json

  /** A `Date`, as milliseconds: every `new Date()` of the source is a parameter. */
  type Timestamp = int

  /** A scraped result record: field name to text; a missing key is `undefined`. */
  type ScrapedRecord = map<string, string>

  datatype User = User(
    id: int, username: string, password: string, fullName: Option<string>,
    plan: Option<string>, createdAt: Option<Timestamp>, updatedAt: Option<Timestamp>)

  datatype Lead = Lead(
    id: int, name: string, address: Option<string>, city: Option<string>,
    state: Option<string>, zip: Option<string>, phone: Option<string>,
    email: Option<string>, source: string, motivationScore: Option<int>,
    status: Option<string>, notes: Option<string>, amountOwed: Option<string>,
    createdAt: Option<Timestamp>, updatedAt: Option<Timestamp>, userId: Option<int>)

  datatype Workflow = Workflow(
    id: int, name: string, description: Option<string>, trigger: string,
    actions: Json, active: Option<bool>, lastRun: Option<Timestamp>,
    createdAt: Option<Timestamp>, userId: Option<int>)

  /** `docType` is the column `type`. */
  datatype Document = Document(
    id: int, name: string, docType: string, content: Option<string>,
    url: Option<string>, status: Option<string>, createdAt: Option<Timestamp>,
    leadId: Option<int>, userId: Option<int>)

  /**
   * `notes` and `schedule` are not columns of the table; only the in-memory
   * store keeps them.
   */
  datatype ScrapingJob = ScrapingJob(
    id: int, name: string, source: string, url: Option<string>,
    status: Option<string>, results: Option<seq<ScrapedRecord>>,
    lastRun: Option<Timestamp>, createdAt: Option<Timestamp>,
    userId: Option<int>, notes: Option<string>, schedule: Option<string>)

  // What the validators produce (the `z.infer` types of the enhanced schemas).

  datatype InsertUser = InsertUser(
    username: string, password: string, fullName: Option<string>, plan: string)

  datatype InsertLead = InsertLead(
    name: string, address: Option<string>, city: Option<string>,
    state: Option<string>, zip: Option<string>, phone: Option<string>,
    email: Option<string>, source: string, motivationScore: Option<int>,
    status: string, notes: Option<string>, amountOwed: Option<string>, userId: int)

  datatype InsertWorkflow = InsertWorkflow(
    name: string, description: Option<string>, trigger: string,
    actions: seq<Json>, active: bool, userId: int)

  datatype InsertDocument = InsertDocument(
    name: string, docType: string, content: Option<string>, url: Option<string>,
    status: string, leadId: Option<int>, userId: int)

  datatype InsertScrapingJob = InsertScrapingJob(
    name: string, source: string, url: Option<string>, status: string, userId: int)

  // Field rules, stated on the request body.

  /** `z.string().min(n)`: present, a string, at least `n` characters. */
  predicate HasString(o: map<string, Json>, key: string, min: nat) {
    key in o && o[key].JString? && |o[key].s| >= min
  }

  /** `z.string().nullable().optional()`: absent, null or a string. */
  predicate NullableString(o: map<string, Json>, key: string) {
    key !in o || o[key].JNull? || o[key].JString?
  }

  /** `z.string().default(d)`: absent or a string (null is rejected). */
  predicate DefaultedString(o: map<string, Json>, key: string) {
    key !in o || o[key].JString?
  }

  /** `z.number()`: present and a number. */
  predicate HasNumber(o: map<string, Json>, key: string) {
    key in o && o[key].JNumber?
  }

  /** `z.number().nullable().optional()`. */
  predicate NullableNumber(o: map<string, Json>, key: string) {
    key !in o || o[key].JNull? || o[key].JNumber?
  }

  /** `z.boolean().default(d)`. */
  predicate DefaultedBool(o: map<string, Json>, key: string) {
    key !in o || o[key].JBool?
  }

  /** `z.array(z.any())`. */
  predicate HasArray(o: map<string, Json>, key: string) {
    key in o && o[key].JArray?
  }

  // Field decoders: the value zod passes on once the rule holds.

  function StringOf(o: map<string, Json>, key: string): string
    requires HasString(o, key, 0)
  {
    o[key].s
  }

  function NullableStringOf(o: map<string, Json>, key: string): (r: Option<string>)
    requires NullableString(o, key)
    ensures r.Some? <==> key in o && o[key].JString?
  {
    if key in o && o[key].JString? then Some(o[key].s) else None
  }

  function DefaultedStringOf(o: map<string, Json>, key: string, default: string): string
    requires DefaultedString(o, key)
  {
    if key in o then o[key].s else default
  }

  function NullableNumberOf(o: map<string, Json>, key: string): Option<int>
    requires NullableNumber(o, key)
  {
    if key in o && o[key].JNumber? then Some(o[key].n) else None
  }

  // How a decoded value relates to the body field it came from.

  /** A nullable field: the body's value when it sent one of the right type, otherwise none. */
  predicate CarriesText(o: map<string, Json>, key: string, v: Option<string>) {
    if key in o && o[key].JString? then v == Some(o[key].s) else v == None
  }

  predicate CarriesNumber(o: map<string, Json>, key: string, v: Option<int>) {
    if key in o && o[key].JNumber? then v == Some(o[key].n) else v == None
  }

  /** A defaulted field: the body's value when the key is sent, `default` when it is absent. */
  predicate CarriesDefault(o: map<string, Json>, key: string, default: string, v: string) {
    (key in o && o[key].JString? ==> v == o[key].s) && (key !in o ==> v == default)
  }

  /** The names of the failing fields, in schema order, as one message. */
  function Failures(checks: seq<(string, bool)>): string
    decreases |checks|
  {
    if checks == [] then ""
    else
      var rest := Failures(checks[1..]);
      if checks[0].1 then rest
      else if rest == "" then checks[0].0
      else checks[0].0 + ", " + rest
  }

  predicate UserBodyValid(o: map<string, Json>) {
    HasString(o, "username", 3) && HasString(o, "password", 6) &&
    NullableString(o, "fullName") && DefaultedString(o, "plan")
  }

  /** `enhancedInsertUserSchema.parse(body)`. */
  function ValidateUser(body: Json): (r: Result<InsertUser>)
    ensures r.Ok? <==> body.JObject? && UserBodyValid(body.fields)
    ensures r.Ok? ==> |r.value.username| >= 3 && |r.value.password| >= 6
    ensures r.Ok? && "plan" !in body.fields ==> r.value.plan == "free"
    ensures r.Ok? ==>
      var o := body.fields;
      r.value.username == o["username"].s && r.value.password == o["password"].s &&
      CarriesText(o, "fullName", r.value.fullName) && CarriesDefault(o, "plan", "free", r.value.plan)
  {
    if !body.JObject? then Err("Expected object")
    else
      var o := body.fields;
      if UserBodyValid(o) then
        Ok(InsertUser(StringOf(o, "username"), StringOf(o, "password"),
          NullableStringOf(o, "fullName"), DefaultedStringOf(o, "plan", "free")))
      else
        Err(Failures([
          ("username", HasString(o, "username", 3)), ("password", HasString(o, "password", 6)),
          ("fullName", NullableString(o, "fullName")), ("plan", DefaultedString(o, "plan"))]))
  }

  /** Keys the lead insert shape leaves out (`insertLeadSchema.omit`). */
  const LeadOmitted: set<string> := {"id", "createdAt", "updatedAt"}

  predicate LeadBodyValid(o: map<string, Json>) {
    HasString(o, "name", 1) && HasString(o, "source", 1) && DefaultedString(o, "status") &&
    NullableString(o, "address") && NullableString(o, "city") && NullableString(o, "state") &&
    NullableString(o, "zip") && NullableString(o, "phone") && NullableString(o, "email") &&
    NullableNumber(o, "motivationScore") && NullableString(o, "notes") &&
    NullableString(o, "amountOwed") && HasNumber(o, "userId")
  }

  /** `enhancedInsertLeadSchema.parse(body)`. */
  function ValidateLead(body: Json): (r: Result<InsertLead>)
    ensures r.Ok? <==> body.JObject? && LeadBodyValid(body.fields)
    ensures r.Ok? ==> |r.value.name| >= 1 && |r.value.source| >= 1
    ensures r.Ok? ==> r.value.userId == body.fields["userId"].n
    ensures r.Ok? && "status" !in body.fields ==> r.value.status == "new"
    ensures r.Ok? ==> LeadCarries(body.fields, r.value)
  {
    if !body.JObject? then Err("Expected object")
    else
      var o := body.fields;
      if LeadBodyValid(o) then Ok(DecodeLead(o)) else Err(Failures(LeadChecks(o)))
  }

  function DecodeLead(o: map<string, Json>): InsertLead
    requires LeadBodyValid(o)
  {
    InsertLead(StringOf(o, "name"), NullableStringOf(o, "address"),
      NullableStringOf(o, "city"), NullableStringOf(o, "state"), NullableStringOf(o, "zip"),
      NullableStringOf(o, "phone"), NullableStringOf(o, "email"), StringOf(o, "source"),
      NullableNumberOf(o, "motivationScore"), DefaultedStringOf(o, "status", "new"),
      NullableStringOf(o, "notes"), NullableStringOf(o, "amountOwed"), o["userId"].n)
  }

  /** Every field of the validated lead is the one the body sent, or its default. */
  predicate LeadCarries(o: map<string, Json>, l: InsertLead) {
    HasString(o, "name", 0) && l.name == o["name"].s &&
    HasString(o, "source", 0) && l.source == o["source"].s &&
    HasNumber(o, "userId") && l.userId == o["userId"].n &&
    CarriesDefault(o, "status", "new", l.status) &&
    CarriesText(o, "address", l.address) && CarriesText(o, "city", l.city) &&
    CarriesText(o, "state", l.state) && CarriesText(o, "zip", l.zip) &&
    CarriesText(o, "phone", l.phone) && CarriesText(o, "email", l.email) &&
    CarriesNumber(o, "motivationScore", l.motivationScore) &&
    CarriesText(o, "notes", l.notes) && CarriesText(o, "amountOwed", l.amountOwed)
  }

  function LeadChecks(o: map<string, Json>): seq<(string, bool)> {
    [("name", HasString(o, "name", 1)), ("address", NullableString(o, "address")),
     ("city", NullableString(o, "city")), ("state", NullableString(o, "state")),
     ("zip", NullableString(o, "zip")), ("phone", NullableString(o, "phone")),
     ("email", NullableString(o, "email")), ("source", HasString(o, "source", 1)),
     ("motivationScore", NullableNumber(o, "motivationScore")),
     ("status", DefaultedString(o, "status")), ("notes", NullableString(o, "notes")),
     ("amountOwed", NullableString(o, "amountOwed")), ("userId", HasNumber(o, "userId"))]
  }

  /** `p` differs from `o` only outside `dropped`, so a kept key reads the same. */
  lemma {:induction false} SameKey(o: map<string, Json>, dropped: set<string>, k: string)
    requires k !in dropped
    ensures (k in o <==> k in o - dropped) && (k in o ==> o[k] == (o - dropped)[k])
  {
  }

  /**
   * Sending `id`, `createdAt` or `updatedAt` with a lead changes neither
   * whether it validates nor the lead it validates to.
   */
  lemma {:induction false} LeadIgnoresOmittedKeys(o: map<string, Json>)
    ensures ValidateLead(JObject(o)).Ok? <==> ValidateLead(JObject(o - LeadOmitted)).Ok?
    ensures ValidateLead(JObject(o)).Ok? ==>
      ValidateLead(JObject(o)) == ValidateLead(JObject(o - LeadOmitted))
  {
    LeadKeysKept(o);
    if LeadBodyValid(o) {
      LeadDecodeKept(o);
    }
  }

  lemma {:induction false} LeadKeysKept(o: map<string, Json>)
    ensures LeadBodyValid(o) == LeadBodyValid(o - LeadOmitted)
  {
    SameKey(o, LeadOmitted, "name");
    SameKey(o, LeadOmitted, "address");
    SameKey(o, LeadOmitted, "city");
    SameKey(o, LeadOmitted, "state");
    SameKey(o, LeadOmitted, "zip");
    SameKey(o, LeadOmitted, "phone");
    SameKey(o, LeadOmitted, "email");
    SameKey(o, LeadOmitted, "source");
    SameKey(o, LeadOmitted, "motivationScore");
    SameKey(o, LeadOmitted, "status");
    SameKey(o, LeadOmitted, "notes");
    SameKey(o, LeadOmitted, "amountOwed");
    SameKey(o, LeadOmitted, "userId");
  }

  lemma {:induction false} LeadDecodeKept(o: map<string, Json>)
    requires LeadBodyValid(o) && LeadBodyValid(o - LeadOmitted)
    ensures DecodeLead(o) == DecodeLead(o - LeadOmitted)
  {
    SameKey(o, LeadOmitted, "name");
    SameKey(o, LeadOmitted, "address");
    SameKey(o, LeadOmitted, "city");
    SameKey(o, LeadOmitted, "state");
    SameKey(o, LeadOmitted, "zip");
    SameKey(o, LeadOmitted, "phone");
    SameKey(o, LeadOmitted, "email");
    SameKey(o, LeadOmitted, "source");
    SameKey(o, LeadOmitted, "motivationScore");
    SameKey(o, LeadOmitted, "status");
    SameKey(o, LeadOmitted, "notes");
    SameKey(o, LeadOmitted, "amountOwed");
    SameKey(o, LeadOmitted, "userId");
  }

  /**
   * A scraping-job body carrying `results` or `lastRun` validates exactly as
   * it would without them: they are not part of the insert shape.
   */
  lemma {:induction false} ScrapingJobIgnoresOmittedKeys(o: map<string, Json>)
    ensures ValidateScrapingJob(JObject(o)) == ValidateScrapingJob(JObject(o - ScrapingJobOmitted))
  {
    SameKey(o, ScrapingJobOmitted, "name");
    SameKey(o, ScrapingJobOmitted, "source");
    SameKey(o, ScrapingJobOmitted, "url");
    SameKey(o, ScrapingJobOmitted, "status");
    SameKey(o, ScrapingJobOmitted, "userId");
  }

  /** Keys the scraping-job insert shape leaves out (`insertScrapingJobSchema.omit`). */
  const ScrapingJobOmitted: set<string> := {"id", "results", "lastRun", "createdAt"}

  predicate WorkflowBodyValid(o: map<string, Json>) {
    HasString(o, "name", 1) && NullableString(o, "description") && HasString(o, "trigger", 1) &&
    HasArray(o, "actions") && DefaultedBool(o, "active") && HasNumber(o, "userId")
  }

  /** `enhancedInsertWorkflowSchema.parse(body)`. */
  function ValidateWorkflow(body: Json): (r: Result<InsertWorkflow>)
    ensures r.Ok? <==> body.JObject? && WorkflowBodyValid(body.fields)
    ensures r.Ok? ==> r.value.actions == body.fields["actions"].items
    ensures r.Ok? && "active" !in body.fields ==> r.value.active
    ensures r.Ok? ==>
      var o := body.fields;
      r.value.name == o["name"].s && r.value.trigger == o["trigger"].s &&
      r.value.userId == o["userId"].n && CarriesText(o, "description", r.value.description) &&
      ("active" in o ==> r.value.active == o["active"].b)
  {
    if !body.JObject? then Err("Expected object")
    else
      var o := body.fields;
      if WorkflowBodyValid(o) then
        Ok(InsertWorkflow(StringOf(o, "name"), NullableStringOf(o, "description"),
          StringOf(o, "trigger"), o["actions"].items,
          if "active" in o then o["active"].b else true, o["userId"].n))
      else
        Err(Failures([
          ("name", HasString(o, "name", 1)), ("description", NullableString(o, "description")),
          ("trigger", HasString(o, "trigger", 1)), ("actions", HasArray(o, "actions")),
          ("active", DefaultedBool(o, "active")), ("userId", HasNumber(o, "userId"))]))
  }

  predicate DocumentBodyValid(o: map<string, Json>) {
    HasString(o, "name", 1) && HasString(o, "type", 1) && NullableString(o, "content") &&
    NullableString(o, "url") && DefaultedString(o, "status") && NullableNumber(o, "leadId") &&
    HasNumber(o, "userId")
  }

  /** `enhancedInsertDocumentSchema.parse(body)`. */
  function ValidateDocument(body: Json): (r: Result<InsertDocument>)
    ensures r.Ok? <==> body.JObject? && DocumentBodyValid(body.fields)
    ensures r.Ok? ==> |r.value.name| >= 1 && |r.value.docType| >= 1
    ensures r.Ok? && "status" !in body.fields ==> r.value.status == "draft"
    ensures r.Ok? ==>
      var o := body.fields;
      r.value.name == o["name"].s && r.value.docType == o["type"].s &&
      r.value.userId == o["userId"].n && CarriesText(o, "content", r.value.content) &&
      CarriesText(o, "url", r.value.url) && CarriesDefault(o, "status", "draft", r.value.status) &&
      CarriesNumber(o, "leadId", r.value.leadId)
  {
    if !body.JObject? then Err("Expected object")
    else
      var o := body.fields;
      if DocumentBodyValid(o) then
        Ok(InsertDocument(StringOf(o, "name"), StringOf(o, "type"),
          NullableStringOf(o, "content"), NullableStringOf(o, "url"),
          DefaultedStringOf(o, "status", "draft"), NullableNumberOf(o, "leadId"), o["userId"].n))
      else
        Err(Failures([
          ("name", HasString(o, "name", 1)), ("type", HasString(o, "type", 1)),
          ("content", NullableString(o, "content")), ("url", NullableString(o, "url")),
          ("status", DefaultedString(o, "status")), ("leadId", NullableNumber(o, "leadId")),
          ("userId", HasNumber(o, "userId"))]))
  }

  predicate ScrapingJobBodyValid(o: map<string, Json>) {
    HasString(o, "name", 1) && HasString(o, "source", 1) && NullableString(o, "url") &&
    DefaultedString(o, "status") && HasNumber(o, "userId")
  }

  /**
   * `enhancedInsertScrapingJobSchema.parse(body)`: `results` and `lastRun`
   * are not part of the shape, so a body carrying them validates the same.
   */
  function ValidateScrapingJob(body: Json): (r: Result<InsertScrapingJob>)
    ensures r.Ok? <==> body.JObject? && ScrapingJobBodyValid(body.fields)
    ensures r.Ok? ==> |r.value.name| >= 1 && |r.value.source| >= 1
    ensures r.Ok? && "status" !in body.fields ==> r.value.status == "pending"
    ensures r.Ok? ==>
      var o := body.fields;
      r.value.name == o["name"].s && r.value.source == o["source"].s &&
      r.value.userId == o["userId"].n && CarriesText(o, "url", r.value.url) &&
      CarriesDefault(o, "status", "pending", r.value.status)
  {
    if !body.JObject? then Err("Expected object")
    else
      var o := body.fields;
      if ScrapingJobBodyValid(o) then
        Ok(InsertScrapingJob(StringOf(o, "name"), StringOf(o, "source"),
          NullableStringOf(o, "url"), DefaultedStringOf(o, "status", "pending"), o["userId"].n))
      else
        Err(Failures([
          ("name", HasString(o, "name", 1)), ("source", HasString(o, "source", 1)),
          ("url", NullableString(o, "url")), ("status", DefaultedString(o, "status")),
          ("userId", HasNumber(o, "userId"))]))
  }
}
