/**
 * The workflow run endpoint (`POST /workflows/:id/run`): it looks the
 * workflow up, takes a snapshot of the user's leads, and walks the
 * workflow's action list once, building a results record and, for some
 * actions, creating documents or rescoring leads in storage.
 *
 * How the model is cut:
 *  - `Decide` is the body of the `switch` for one action: the entry it
 *    pushes, the new results record and the storage writes it makes
 *    (`Effect`s), or the exception it throws.
 *  - `RunPrefix` folds `Decide` over a prefix of the actions: the
 *    specification of the loop.
 *  - `RunWorkflow` is the handler itself: a loop over the actions that
 *    performs each action's writes on `MemStorage`, proved against
 *    `RunPrefix`.
 * `Math.random()` draws are the parameter `rand(action index, slot)` (and
 * `initialDraw` for the one draw before the loop); `Math.floor(Math.random()
 * * n) + b` is `b + draw % n`. `new Date()` is `now`, its
 * `toLocaleString()` is `nowText`.
 */
/** The fixed texts of the entries a workflow run reports. */
module WorkflowTexts {
  const HighValueProperties := " high-value properties"
  const LeadsOutOf := " leads out of "
  const ContractIntro := "This contract was automatically generated for "
  const ContractOutro := " by the contract generator workflow on "
  const NoTemplate := "No template specified"
  const LetterGenerated := "Generated outreach letter for high-scoring property"
  const CreatedDocument := "Created document \""
  const ForLeadId := "\" for lead ID "
  const GeneratedBy := " - Generated by "
  const DocumentIntro := "This document was generated from the "
  const TemplateByWorkflow := " template by the workflow \""
  const LeadsByScore := " leads based on motivation score"
  const PropertiesForRoi := " properties for ROI potential"
  const StructuredExtracted := "Extracted structured property data using advanced parsing"
  const BasicExtracted := "Extracted basic data from target website"
  const QualifiedFromProperties := " qualified leads from high-value properties"
  const PotentialLeads := " potential leads from scraped data"
  const LeadEntries := "Created lead entries from processed data"
  const ScheduledEmail := "Scheduled email using "
  const ScheduledSms := "Scheduled SMS using "
  const ScheduledCall := "Scheduled phone call using "
  const WouldEmail := "Would send email to filtered leads (simulated)"
  const WouldSms := "Would send SMS to filtered leads (simulated)"
  const WouldCall := "Would schedule call with filtered leads (simulated)"
  const NotifiedTeam := "Notified team of "
  const HighValueLeads := " high-value leads"
  const NotifiedAgent := "Notified agent of "
  const GeneratedContracts := " generated contracts"
  const SentNotification := "Sent notification via "
  const HourDelay := " hour delay to sequence"
  const WouldWait := "Would wait before next action (simulated)"
  const LetterText := "This is an outreach letter for potentially valuable property identified through the advanced scraping workflow."
}

module WorkflowRunner {
  import opened Core
  import opened Text
  import opened Json
  import opened Schema
  import opened Storage
  import opened WorkflowTexts

  // ----- The results record -----

  /** One entry of `results.actions`. */
  datatype ActionResult = ActionResult(actionType: Option<Json>, status: string, details: string)

  datatype Qualifier = Qualifier(leadsQualified: nat, highValueLeads: nat)
  datatype Outreach = Outreach(messagesScheduled: nat, contactTypes: seq<string>)
  datatype Contract = Contract(documentsGenerated: nat, sentToLeads: nat)
  datatype Scraper = Scraper(websitesProcessed: nat, dataPoints: nat)
  datatype Advanced = Advanced(structuredDataExtracted: bool, propertiesIdentified: nat,
    qualifiedLeads: nat, dataPoints: Option<nat>)

  /** The `results` object; an absent property is `None`. */
  datatype RunResults = RunResults(
    processed: nat, actions: seq<ActionResult>, workflowType: string,
    qualifier: Option<Qualifier>, outreach: Option<Outreach>, contract: Option<Contract>,
    scraper: Option<Scraper>, advanced: Option<Advanced>,
    filteredLeads: Option<nat>, documentsGenerated: Option<nat>,
    leadsScored: Option<nat>, propertiesScored: Option<nat>)

  /** `workflow.trigger || "custom"`. */
  function WorkflowType(trigger: string): string {
    if trigger == "" then "custom" else trigger
  }

  /** `Array.isArray(workflow.actions) ? workflow.actions : []`. */
  function Actions(w: Workflow): seq<Json> {
    if w.actions.JArray? then w.actions.items else []
  }

  /** The workflow types the handler tells apart; any other type is `OtherType`. */
  datatype WorkflowKind =
    LeadQualifier | OutreachSequence | ContractGenerator | ScraperWorkflow | AdvancedScraper | OtherType

  function KindOf(wt: string): WorkflowKind {
    if wt == "lead-qualifier" then LeadQualifier
    else if wt == "outreach-sequence" then OutreachSequence
    else if wt == "contract-generator" then ContractGenerator
    else if wt == "scraper-workflow" then ScraperWorkflow
    else if wt == "advanced-scraper-workflow" then AdvancedScraper
    else OtherType
  }

  /** The action types the `switch` tells apart; any other value is `OtherAction`. */
  datatype ActionKind =
    FilterAct | DocumentAct | ScoreAct | ScrapeAct | CreateAct | EmailAct | SmsAct | CallAct
    | DelayAct | NotifyAct | OtherAction

  /** `switch (action.type)`: strict equality with each case label. */
  function ActionKindOf(t: Option<Json>): ActionKind {
    if t == Some(JString("filter")) then FilterAct
    else if t == Some(JString("document")) then DocumentAct
    else if t == Some(JString("score")) then ScoreAct
    else if t == Some(JString("scrape")) then ScrapeAct
    else if t == Some(JString("create")) then CreateAct
    else if t == Some(JString("email")) then EmailAct
    else if t == Some(JString("sms")) then SmsAct
    else if t == Some(JString("call")) then CallAct
    else if t == Some(JString("delay")) then DelayAct
    else if t == Some(JString("notify")) then NotifyAct
    else OtherAction
  }

  /**
   * The detail records a workflow type owns. Only the scraper record can also
   * appear in a run of another type (a `scrape` action writes it).
   */
  predicate Shaped(r: RunResults, k: WorkflowKind) {
    (r.qualifier.Some? <==> k == LeadQualifier) &&
    (r.outreach.Some? <==> k == OutreachSequence) &&
    (r.contract.Some? <==> k == ContractGenerator) &&
    (k == ScraperWorkflow ==> r.scraper.Some?) &&
    (r.advanced.Some? <==> k == AdvancedScraper)
  }

  /** The results before the loop: nothing processed, the type's detail record at zero. */
  function InitialResults(trigger: string, initialDraw: nat): (r: RunResults)
    ensures Shaped(r, KindOf(WorkflowType(trigger)))
    ensures r.processed == 0 && r.actions == [] && r.workflowType == trigger
    ensures r.advanced.Some? ==> 3 <= r.advanced.value.propertiesIdentified < 8
    ensures r.outreach.Some? ==> r.outreach.value == Outreach(0, [])
  {
    var k := KindOf(WorkflowType(trigger));
    RunResults(0, [], trigger,
      if k == LeadQualifier then Some(Qualifier(0, 0)) else None,
      if k == OutreachSequence then Some(Outreach(0, [])) else None,
      if k == ContractGenerator then Some(Contract(0, 0)) else None,
      if k == ScraperWorkflow then Some(Scraper(0, 0)) else None,
      if k == AdvancedScraper
      then Some(Advanced(true, 3 + initialDraw % 5, 0, None)) else None,
      None, None, None, None)
  }

  /** What one action may change in the results: its own fields, never the shape. */
  predicate Keeps(r: RunResults, r2: RunResults, k: WorkflowKind) {
    r2.processed == r.processed && r2.actions == r.actions &&
    r2.workflowType == r.workflowType && Shaped(r2, k)
  }

  // ----- Storage writes -----

  datatype Effect =
    | CreateDoc(doc: InsertDocument)
    | SetScore(leadId: int, score: int)

  /** `{ motivationScore: score }` as an update. */
  function ScoreOnly(score: int): LeadPatch {
    NoLeadChange.(motivationScore := Some(Some(score)))
  }

  /** The part of the store a run writes. */
  datatype World = World(leads: map<int, Lead>, documents: map<int, Document>, nextDocumentId: int)

  function WorldOf(s: MemStorage): World
    reads s
  {
    World(s.leads, s.documents, s.documentIdCounter)
  }

  /** One write, as `createDocument` and `updateLead` perform it. */
  function Apply(w: World, e: Effect, now: Timestamp): World {
    match e
    case CreateDoc(x) =>
      w.(documents := w.documents[w.nextDocumentId := NewDocument(w.nextDocumentId, x, now)],
        nextDocumentId := w.nextDocumentId + 1)
    case SetScore(id, s) =>
      if id in w.leads
      then w.(leads := w.leads[id := PatchLead(w.leads[id], ScoreOnly(s)).(updatedAt := Some(now))])
      else w
  }

  function ApplyAll(w: World, es: seq<Effect>, now: Timestamp): World
    decreases |es|
  {
    if es == [] then w else Apply(ApplyAll(w, es[..|es| - 1], now), es[|es| - 1], now)
  }

  lemma {:induction false} ApplyAllAppend(w: World, a: seq<Effect>, b: seq<Effect>, now: Timestamp)
    ensures ApplyAll(w, a + b, now) == ApplyAll(ApplyAll(w, a, now), b, now)
    decreases |b|
  {
    if b == [] {
      assert a + b == a;
    } else {
      assert (a + b)[..|a + b| - 1] == a + b[..|b| - 1];
      ApplyAllAppend(w, a, b[..|b| - 1], now);
    }
  }

  /** Equal apart from the score and update time: what rescoring may change in a lead. */
  predicate SameButScore(l: Lead, m: Lead) {
    l.(motivationScore := m.motivationScore, updatedAt := m.updatedAt) == m
  }

  /**
   * A run never deletes: the leads keep their keys and every field but the
   * score and update time, the documents only grow, and the counter never
   * goes back.
   */
  lemma {:induction false} ApplyAllOnlyAdds(w: World, es: seq<Effect>, now: Timestamp)
    ensures ApplyAll(w, es, now).leads.Keys == w.leads.Keys
    ensures forall k :: k in w.leads ==> SameButScore(w.leads[k], ApplyAll(w, es, now).leads[k])
    ensures forall k :: k in w.documents && k < w.nextDocumentId ==>
      k in ApplyAll(w, es, now).documents && ApplyAll(w, es, now).documents[k] == w.documents[k]
    ensures ApplyAll(w, es, now).nextDocumentId >= w.nextDocumentId
    decreases |es|
  {
    if es != [] {
      ApplyAllOnlyAdds(w, es[..|es| - 1], now);
    }
  }

  // ----- One action -----

  /** What a run knows while it walks the actions. */
  datatype Context = Context(leads: seq<Lead>, kind: WorkflowKind, workflowName: string,
    userId: int, rand: (nat, nat) -> nat, nowText: string)

  /** `action.config?.[key]`. */
  function Config(a: Json, key: string): Option<Json> {
    match Get(a, "config")
    case Some(c) => Get(c, key)
    case None => None
  }

  /** `${v || fallback}`. */
  function OrDefault(v: Option<Json>, fallback: string): string {
    if Truthy(v) then Display(v) else fallback
  }

  /** `s.split(sep)[1]`: the text after the first `sep`, up to the next one. */
  function SecondPiece(s: string, sep: string): (r: Option<string>)
    requires |sep| > 0
    ensures r.Some? <==> Contains(s, sep)
  {
    match IndexOf(s, sep)
    case None => None
    case Some(i) =>
      var rest := s[i + |sep|..];
      match IndexOf(rest, sep)
      case None => Some(rest)
      case Some(j) => Some(rest[..j])
  }

  const NotAFunction := "action.config.condition.includes is not a function"
  const SplitNotAFunction := "action.config.condition.split is not a function"

  /** `lead.motivationScore` is truthy. */
  predicate Scored(lead: Lead) {
    lead.motivationScore.Some? && lead.motivationScore.value != 0
  }

  /**
   * Whether the condition tests throw once a lead reaches them. A string
   * has `includes` and `split`. An array has `includes` (element equality)
   * but no `split`, so it throws exactly when one of the three tests that
   * go on to split succeeds. Any other value has no `includes`.
   */
  predicate ConditionThrows(c: Json, lead: Lead) {
    if c.JString? then false
    else if c.JArray? then
      (JString("score > ") in c.items && Scored(lead)) ||
      JString("price > ") in c.items || JString("amount > ") in c.items
    else true
  }

  /**
   * The filter callback for one lead: keep it, drop it, or throw. A truthy
   * `source` or `status` must equal the lead's; a `score > N` condition
   * holds a scored lead to a score above N; unscored leads and `price > `
   * or `amount > ` conditions are let through. A truthy condition throws
   * as `ConditionThrows` says.
   */
  function Keep(a: Json, lead: Lead): (r: Result<bool>)
    ensures r.Err? <==>
      !(Truthy(Config(a, "source")) && Config(a, "source") != Some(JString(lead.source))) &&
      !(Truthy(Config(a, "status")) && (lead.status.None? || Config(a, "status") != Some(JString(lead.status.value)))) &&
      Truthy(Config(a, "condition")) && ConditionThrows(Config(a, "condition").value, lead)
    ensures r.Err? ==>
      r.error == if Config(a, "condition").value.JArray? then SplitNotAFunction else NotAFunction
    ensures r == Ok(true) ==>
      (Truthy(Config(a, "source")) ==> Config(a, "source") == Some(JString(lead.source))) &&
      (Truthy(Config(a, "status")) ==> lead.status.Some? && Config(a, "status") == Some(JString(lead.status.value)))
    ensures (r == Ok(true) && Truthy(Config(a, "condition")) && Config(a, "condition").value.JString? &&
        Contains(Config(a, "condition").value.s, "score > ") && Scored(lead)) ==>
      ParseIntPrefix(SecondPiece(Config(a, "condition").value.s, "score > ").value).Some? &&
      lead.motivationScore.value > ParseIntPrefix(SecondPiece(Config(a, "condition").value.s, "score > ").value).value
    ensures r == Ok(false) ==>
      (Truthy(Config(a, "source")) && Config(a, "source") != Some(JString(lead.source))) ||
      (Truthy(Config(a, "status")) && (lead.status.None? || Config(a, "status") != Some(JString(lead.status.value)))) ||
      (Truthy(Config(a, "condition")) && Config(a, "condition").value.JString? &&
       Contains(Config(a, "condition").value.s, "score > ") && Scored(lead))
  {
    var source := Config(a, "source");
    var status := Config(a, "status");
    var cond := Config(a, "condition");
    if Truthy(source) && source != Some(JString(lead.source)) then Ok(false)
    else if Truthy(status) && (lead.status.None? || status != Some(JString(lead.status.value))) then Ok(false)
    else if !Truthy(cond) then Ok(true)
    else match cond.value
      case JString(c) =>
        if Contains(c, "score > ") && Scored(lead) then
          var threshold := ParseIntPrefix(SecondPiece(c, "score > ").value);
          Ok(threshold.Some? && lead.motivationScore.value > threshold.value)
        else Ok(true)
      case JArray(items) =>
        if JString("score > ") in items && Scored(lead) then Err(SplitNotAFunction)
        else if JString("price > ") in items then Err(SplitNotAFunction)
        else if JString("amount > ") in items then Err(SplitNotAFunction)
        else Ok(true)
      case _ => Err(NotAFunction)
  }

  /** `userLeads.filter(...)`: the first lead whose callback throws ends it. */
  function FilterLeads(a: Json, leads: seq<Lead>): (r: Result<seq<Lead>>)
    ensures r.Ok? ==> |r.value| <= |leads| && forall l :: l in r.value ==> l in leads
    decreases |leads|
  {
    if leads == [] then Ok([])
    else
      match Keep(a, leads[0])
      case Err(e) => Err(e)
      case Ok(keep) =>
        match FilterLeads(a, leads[1..])
        case Err(e) => Err(e)
        case Ok(rest) => Ok(if keep then [leads[0]] + rest else rest)
  }

  function FilterAction(ctx: Context, i: nat, t: Option<Json>, a: Json, r: RunResults): (o: Result<(ActionResult, RunResults)>)
    requires Shaped(r, ctx.kind)
    ensures o.Ok? ==> Keeps(r, o.value.1, ctx.kind) && o.value.0.actionType == t && o.value.1.outreach == r.outreach
    ensures o.Ok? ==> o.value.0.status == "completed"
    ensures o.Err? <==> FilterLeads(a, ctx.leads).Err?
  {
    match FilterLeads(a, ctx.leads)
    case Err(e) => Err(e)
    case Ok(kept) =>
      var n := |kept|;
      var details :=
        if ctx.kind == AdvancedScraper
        then "Filtered " + NatToString(2 + ctx.rand(i, 0) % 3) + HighValueProperties
        else "Filtered " + NatToString(n) + LeadsOutOf + NatToString(|ctx.leads|);
      var r1 := r.(filteredLeads := Some(n));
      var r2 :=
        if ctx.kind == LeadQualifier
        then r1.(qualifier := Some(r1.qualifier.value.(highValueLeads := n)))
        else r1;
      Ok((ActionResult(t, "completed", details), r2))
  }

  /** `userLeads[0]?.id || 1`. */
  function FirstLeadId(leads: seq<Lead>): int {
    if leads != [] && leads[0].id != 0 then leads[0].id else 1
  }

  function ContractDoc(template: string, lead: Lead, ctx: Context): InsertDocument {
    InsertDocument(template + " - For " + lead.name, "contract",
      Some(ContractIntro + lead.name
        + ContractOutro + ctx.nowText + "."),
      None, "draft", Some(lead.id), ctx.userId)
  }

  /** One contract per lead for the first two leads. */
  function ContractDocs(name: string, ctx: Context): (es: seq<Effect>)
    ensures |es| == Min(2, |ctx.leads|)
    ensures forall k :: 0 <= k < |es| ==>
      es[k].CreateDoc? && es[k].doc.status == "draft" && es[k].doc.userId == ctx.userId &&
      es[k].doc.leadId == Some(ctx.leads[k].id)
  {
    var n := Min(2, |ctx.leads|);
    seq(n, k requires 0 <= k < n => CreateDoc(ContractDoc(name, ctx.leads[k], ctx)))
  }

  function DocumentAction(ctx: Context, t: Option<Json>, a: Json, r: RunResults): (o: (ActionResult, RunResults, seq<Effect>))
    requires Shaped(r, ctx.kind)
    ensures Keeps(r, o.1, ctx.kind) && o.0.actionType == t && o.1.outreach == r.outreach
    ensures o.0.status == if Truthy(Config(a, "template")) then "completed" else "skipped"
    ensures |o.2| == if !Truthy(Config(a, "template")) then 0
      else if ctx.kind == ContractGenerator then Min(2, |ctx.leads|) else 1
    ensures forall k :: 0 <= k < |o.2| ==>
      o.2[k].CreateDoc? && o.2[k].doc.status == "draft" && o.2[k].doc.userId == ctx.userId
  {
    var tpl := Config(a, "template");
    if !Truthy(tpl) then (ActionResult(t, "skipped", NoTemplate), r, [])
    else
      var name := Display(tpl);
      if ctx.kind == ContractGenerator then ContractAction(ctx, t, name, r)
      else SingleDocAction(ctx, t, name, r)
  }

  /** Any other run's document action: one letter (advanced scraper) or one document. */
  function SingleDocAction(ctx: Context, t: Option<Json>, name: string, r: RunResults): (o: (ActionResult, RunResults, seq<Effect>))
    requires ctx.kind != ContractGenerator && Shaped(r, ctx.kind)
    ensures Keeps(r, o.1, ctx.kind) && o.0.actionType == t && o.1.outreach == r.outreach && o.0.status == "completed"
    ensures o.1 == r.(documentsGenerated := Some(1))
    ensures |o.2| == 1 && o.2[0].CreateDoc? && o.2[0].doc.status == "draft" && o.2[0].doc.userId == ctx.userId
    ensures o.2[0].doc.leadId == Some(FirstLeadId(ctx.leads))
  {
    if ctx.kind == AdvancedScraper then
      (ActionResult(t, "completed", LetterGenerated),
       r.(documentsGenerated := Some(1)), [CreateDoc(LetterDoc(name, ctx))])
    else
      var doc := GenericDoc(name, ctx);
      (ActionResult(t, "completed", CreatedDocument + doc.name + ForLeadId + IntToString(FirstLeadId(ctx.leads))),
       r.(documentsGenerated := Some(1)), [CreateDoc(doc)])
  }

  /** A contract run's document action: contracts for the first two leads. */
  function ContractAction(ctx: Context, t: Option<Json>, name: string, r: RunResults): (o: (ActionResult, RunResults, seq<Effect>))
    requires ctx.kind == ContractGenerator && Shaped(r, ctx.kind)
    ensures Keeps(r, o.1, ctx.kind) && o.0.actionType == t && o.1.outreach == r.outreach && o.0.status == "completed"
    ensures |o.2| == Min(2, |ctx.leads|)
    ensures forall k :: 0 <= k < |o.2| ==>
      o.2[k].CreateDoc? && o.2[k].doc.status == "draft" && o.2[k].doc.userId == ctx.userId
    ensures o.1.contract.value.documentsGenerated == |o.2| && o.1.documentsGenerated == Some(|o.2|)
  {
    var es := ContractDocs(name, ctx);
    var n := |es|;
    (ActionResult(t, "completed", "Generated " + NatToString(n) + " " + name + " contracts"),
     r.(contract := Some(r.contract.value.(documentsGenerated := n)), documentsGenerated := Some(n)),
     es)
  }

  /** The outreach letter of an advanced scraper run. */
  function LetterDoc(name: string, ctx: Context): (d: InsertDocument)
    ensures d.status == "draft" && d.userId == ctx.userId && d.leadId == Some(FirstLeadId(ctx.leads))
  {
    InsertDocument(name + GeneratedBy + ctx.workflowName, "letter",
      Some(LetterText),
      None, "draft", Some(FirstLeadId(ctx.leads)), ctx.userId)
  }

  /** The document any other run generates from a template. */
  function GenericDoc(name: string, ctx: Context): (d: InsertDocument)
    ensures d.status == "draft" && d.userId == ctx.userId && d.leadId == Some(FirstLeadId(ctx.leads))
  {
    InsertDocument(name + GeneratedBy + ctx.workflowName, "document",
      Some(DocumentIntro + name + TemplateByWorkflow
        + ctx.workflowName + "\" on " + ctx.nowText + "."),
      None, "draft", Some(FirstLeadId(ctx.leads)), ctx.userId)
  }

  /** New scores for the first `limit` leads, each `70 + draw % 30`. */
  function Rescore(ctx: Context, i: nat, limit: nat): (es: seq<Effect>)
    ensures |es| == Min(limit, |ctx.leads|)
    ensures forall k :: 0 <= k < |es| ==>
      es[k].SetScore? && es[k].leadId == ctx.leads[k].id && 70 <= es[k].score < 100
  {
    var n := Min(limit, |ctx.leads|);
    seq(n, k requires 0 <= k < n => SetScore(ctx.leads[k].id, 70 + ctx.rand(i, k) % 30))
  }

  function ScoreAction(ctx: Context, i: nat, t: Option<Json>, r: RunResults): (o: (ActionResult, RunResults, seq<Effect>))
    requires Shaped(r, ctx.kind)
    ensures Keeps(r, o.1, ctx.kind) && o.0.actionType == t && o.1.outreach == r.outreach
    ensures o.0.status == "completed"
    ensures |o.2| <= if ctx.kind == LeadQualifier then 3 else 2
    ensures forall k :: 0 <= k < |o.2| ==>
      o.2[k].SetScore? && k < |ctx.leads| && o.2[k].leadId == ctx.leads[k].id && 70 <= o.2[k].score < 100
  {
    if ctx.kind == LeadQualifier then
      var es := Rescore(ctx, i, 3);
      var q := r.qualifier.value;
      (ActionResult(t, "completed", "Qualified " + NatToString(|es|) + LeadsByScore),
       r.(qualifier := Some(q.(leadsQualified := q.leadsQualified + |es|)), leadsScored := Some(|es|)),
       es)
    else if ctx.kind == AdvancedScraper then
      var p := r.advanced.value.propertiesIdentified;
      (ActionResult(t, "completed", "Scored " + NatToString(p) + PropertiesForRoi),
       r.(propertiesScored := Some(p)), [])
    else
      var es := Rescore(ctx, i, 2);
      (ActionResult(t, "completed", "Scored " + NatToString(|es|) + " leads"),
       r.(leadsScored := Some(|es|)), es)
  }

  function ScrapeAction(ctx: Context, i: nat, t: Option<Json>, a: Json, r: RunResults): (o: (ActionResult, RunResults))
    requires Shaped(r, ctx.kind)
    ensures Keeps(r, o.1, ctx.kind) && o.0.actionType == t && o.1.outreach == r.outreach
    ensures o.0.status == "completed"
  {
    if Truthy(Config(a, "useStructured")) && ctx.kind == AdvancedScraper then
      (ActionResult(t, "completed", StructuredExtracted),
       r.(advanced := Some(r.advanced.value.(dataPoints := Some(20 + ctx.rand(i, 0) % 50)))))
    else
      (ActionResult(t, "completed", BasicExtracted),
       r.(scraper := Some(Scraper(1, 5 + ctx.rand(i, 0) % 20))))
  }

  function CreateAction(ctx: Context, i: nat, t: Option<Json>, r: RunResults): (o: (ActionResult, RunResults))
    requires Shaped(r, ctx.kind)
    ensures Keeps(r, o.1, ctx.kind) && o.0.actionType == t && o.1.outreach == r.outreach
    ensures o.0.status == "completed"
  {
    if ctx.kind == AdvancedScraper then
      var made := 1 + ctx.rand(i, 0) % 3;
      (ActionResult(t, "completed", "Created " + NatToString(made) + QualifiedFromProperties),
       r.(advanced := Some(r.advanced.value.(qualifiedLeads := made))))
    else if ctx.kind == ScraperWorkflow then
      (ActionResult(t, "completed", "Created " + NatToString(r.scraper.value.dataPoints)
        + PotentialLeads), r)
    else
      (ActionResult(t, "completed", LeadEntries), r)
  }

  /** The channel an `email`, `sms` or `call` action schedules. */
  function ChannelOf(a: Json): Option<string> {
    match ActionKindOf(Get(a, "type"))
    case EmailAct => Some("email")
    case SmsAct => Some("sms")
    case CallAct => Some("call")
    case _ => None
  }

  /**
   * The outreach record after action `a`: in an outreach run a channel
   * action schedules one more message and records its channel once; every
   * other action leaves the record as it was.
   */
  function Tally(ctx: Context, a: Json, r: RunResults): Option<Outreach>
    requires Shaped(r, ctx.kind)
  {
    if ctx.kind == OutreachSequence && ChannelOf(a).Some?
    then Some(Outreach(r.outreach.value.messagesScheduled + 1,
      AppendNew(r.outreach.value.contactTypes, ChannelOf(a).value)))
    else r.outreach
  }

  function ChannelAction(ctx: Context, t: Option<Json>, a: Json, r: RunResults): (o: (ActionResult, RunResults))
    requires ChannelOf(a).Some? && t == Get(a, "type")
    requires Shaped(r, ctx.kind)
    ensures Keeps(r, o.1, ctx.kind) && o.0.actionType == t
    ensures o.1.outreach == Tally(ctx, a, r)
    ensures o.0.status == "simulated"
  {
    var kind := ActionKindOf(t);
    if ctx.kind == OutreachSequence then
      var details :=
        if kind == EmailAct then ScheduledEmail + OrDefault(Config(a, "template"), "default") + " template"
        else if kind == SmsAct then ScheduledSms + OrDefault(Config(a, "template"), "default") + " template"
        else ScheduledCall + OrDefault(Config(a, "script"), "default") + " script";
      var d := r.outreach.value;
      (ActionResult(t, "simulated", details),
       r.(outreach := Some(Outreach(d.messagesScheduled + 1, AppendNew(d.contactTypes, ChannelOf(a).value)))))
    else
      var details :=
        if kind == EmailAct then WouldEmail
        else if kind == SmsAct then WouldSms
        else WouldCall;
      (ActionResult(t, "simulated", details), r)
  }

  function NotifyAction(ctx: Context, t: Option<Json>, a: Json, r: RunResults): (o: (ActionResult, RunResults))
    requires Shaped(r, ctx.kind)
    ensures Keeps(r, o.1, ctx.kind) && o.0.actionType == t && o.1.outreach == r.outreach
    ensures o.0.status == "simulated"
  {
    if ctx.kind == LeadQualifier then
      (ActionResult(t, "simulated", NotifiedTeam + NatToString(r.qualifier.value.highValueLeads)
        + HighValueLeads), r)
    else if ctx.kind == ContractGenerator then
      var c := r.contract.value;
      (ActionResult(t, "simulated", NotifiedAgent + NatToString(c.documentsGenerated)
        + GeneratedContracts), r.(contract := Some(c.(sentToLeads := c.documentsGenerated))))
    else
      (ActionResult(t, "simulated", SentNotification + OrDefault(Config(a, "method"), "app")), r)
  }

  /**
   * The writes an action may make: documents only from a document action
   * (at most two, for the first two leads, in a contract run; otherwise
   * one), scores only from a score action (at most three in a qualifier
   * run, otherwise two), each score in 70..99 for the lead at that position.
   */
  predicate Writes(ctx: Context, a: Json, es: seq<Effect>) {
    var kind := ActionKindOf(Get(a, "type"));
    |es| <= (if ctx.kind == LeadQualifier then 3 else 2) &&
    (es != [] ==> kind == DocumentAct || kind == ScoreAct) &&
    (forall k :: 0 <= k < |es| && es[k].SetScore? ==>
      kind == ScoreAct && k < |ctx.leads| && es[k].leadId == ctx.leads[k].id && 70 <= es[k].score < 100) &&
    (forall k :: 0 <= k < |es| && es[k].CreateDoc? ==>
      kind == DocumentAct && es[k].doc.status == "draft" && es[k].doc.userId == ctx.userId &&
      (ctx.kind != ContractGenerator ==> |es| == 1))
  }

  /** One pass of the loop body before the push: the entry, the results, the writes. */
  datatype Step = Step(entry: ActionResult, results: RunResults, effects: seq<Effect>)

  const NullAction := "Cannot read properties of null (reading 'type')"

  /** The actions that do work: filter, document, score, scrape, create. */
  function HandleWork(ctx: Context, i: nat, a: Json, r: RunResults): (o: Result<Step>)
    requires ActionKindOf(Get(a, "type")) in {FilterAct, DocumentAct, ScoreAct, ScrapeAct, CreateAct}
    requires Shaped(r, ctx.kind)
    ensures o.Ok? ==> Keeps(r, o.value.results, ctx.kind) && o.value.results.outreach == r.outreach
    ensures o.Ok? ==> o.value.entry.actionType == Get(a, "type")
    ensures o.Ok? ==> o.value.entry.status == StatusFor(a) && Writes(ctx, a, o.value.effects)
    ensures o.Err? <==> ActionKindOf(Get(a, "type")) == FilterAct && FilterLeads(a, ctx.leads).Err?
  {
    var t := Get(a, "type");
    match ActionKindOf(t)
    case FilterAct =>
      (match FilterAction(ctx, i, t, a, r)
       case Err(e) => Err(e)
       case Ok(p) => Ok(Step(p.0, p.1, [])))
    case DocumentAct =>
      var p := DocumentAction(ctx, t, a, r); Ok(Step(p.0, p.1, p.2))
    case ScoreAct =>
      var p := ScoreAction(ctx, i, t, r); Ok(Step(p.0, p.1, p.2))
    case ScrapeAct =>
      var p := ScrapeAction(ctx, i, t, a, r); Ok(Step(p.0, p.1, []))
    case CreateAct =>
      var p := CreateAction(ctx, i, t, r); Ok(Step(p.0, p.1, []))
  }

  /** The actions that are only simulated: channels, delay, notify, and any other type. */
  function HandleSimulated(ctx: Context, a: Json, r: RunResults): (o: Result<Step>)
    requires ActionKindOf(Get(a, "type")) !in {FilterAct, DocumentAct, ScoreAct, ScrapeAct, CreateAct}
    requires Shaped(r, ctx.kind)
    ensures o.Ok? ==> Keeps(r, o.value.results, ctx.kind)
    ensures o.Ok? ==> o.value.results.outreach == Tally(ctx, a, r)
    ensures o.Ok? ==> o.value.entry.actionType == Get(a, "type")
    ensures o.Ok? ==> o.value.entry.status == StatusFor(a) && Writes(ctx, a, o.value.effects)
    ensures o.Ok? && o.value.effects == []
  {
    var t := Get(a, "type");
    match ActionKindOf(t)
    case DelayAct =>
      var details :=
        if ctx.kind == OutreachSequence
        then "Added " + OrDefault(Config(a, "hours"), "24") + HourDelay
        else WouldWait;
      Ok(Step(ActionResult(t, "simulated", details), r, []))
    case NotifyAct =>
      var p := NotifyAction(ctx, t, a, r); Ok(Step(p.0, p.1, []))
    case OtherAction =>
      Ok(Step(ActionResult(t, "simulated", "Action type \"" + Display(t) + "\" simulated"), r, []))
    case EmailAct | SmsAct | CallAct =>
      var p := ChannelAction(ctx, t, a, r); Ok(Step(p.0, p.1, []))
  }

  /** The `switch`; reading the type of a null action throws. */
  function Handle(ctx: Context, i: nat, a: Json, r: RunResults): (o: Result<Step>)
    requires Shaped(r, ctx.kind)
    ensures o.Ok? ==> Keeps(r, o.value.results, ctx.kind)
    ensures o.Ok? ==> o.value.results.outreach == Tally(ctx, a, r)
    ensures o.Ok? ==> o.value.entry.actionType == Get(a, "type")
    ensures o.Ok? ==> o.value.entry.status == StatusFor(a) && Writes(ctx, a, o.value.effects)
    ensures o.Err? <==> a.JNull? || (ActionKindOf(Get(a, "type")) == FilterAct && FilterLeads(a, ctx.leads).Err?)
  {
    if a.JNull? then Err(NullAction)
    else if ActionKindOf(Get(a, "type")) in {FilterAct, DocumentAct, ScoreAct, ScrapeAct, CreateAct}
    then HandleWork(ctx, i, a, r)
    else HandleSimulated(ctx, a, r)
  }

  /** The whole loop body for action `i`: handle it, push its entry, count it. */
  function Decide(ctx: Context, i: nat, a: Json, r: RunResults): (o: Result<Step>)
    requires Shaped(r, ctx.kind)
    ensures o.Ok? ==> Shaped(o.value.results, ctx.kind)
    ensures o.Ok? ==> o.value.results.processed == r.processed + 1
    ensures o.Ok? ==> o.value.results.actions == r.actions + [o.value.entry]
    ensures o.Ok? ==> o.value.results.workflowType == r.workflowType
    ensures o.Ok? ==> o.value.results.outreach == Tally(ctx, a, r)
    ensures o.Ok? ==> o.value.entry.actionType == Get(a, "type")
    ensures o.Ok? ==> o.value.entry.status == StatusFor(a) && Writes(ctx, a, o.value.effects)
    ensures o.Err? <==> a.JNull? || (ActionKindOf(Get(a, "type")) == FilterAct && FilterLeads(a, ctx.leads).Err?)
  {
    match Handle(ctx, i, a, r)
    case Err(e) => Err(e)
    case Ok(s) =>
      Ok(s.(results := s.results.(actions := s.results.actions + [s.entry],
        processed := s.results.processed + 1)))
  }

  // ----- The loop -----

  /** Where the loop stands: the results so far, the writes so far, the exception if one was thrown. */
  datatype Progress = Progress(results: RunResults, effects: seq<Effect>, failure: Option<string>)

  /** The loop over `actions` from `init`; an exception stops it with the writes made before. */
  function RunPrefix(ctx: Context, actions: seq<Json>, init: RunResults): (p: Progress)
    requires Shaped(init, ctx.kind)
    ensures Shaped(p.results, ctx.kind)
    ensures p.results.workflowType == init.workflowType
    ensures p.results.processed - init.processed == |p.results.actions| - |init.actions| >= 0
    ensures p.results.processed <= init.processed + |actions|
    ensures p.failure.None? ==> p.results.processed == init.processed + |actions|
    decreases |actions|
  {
    if actions == [] then Progress(init, [], None)
    else
      var p := RunPrefix(ctx, actions[..|actions| - 1], init);
      if p.failure.Some? then p
      else
        match Decide(ctx, |actions| - 1, actions[|actions| - 1], p.results)
        case Err(e) => p.(failure := Some(e))
        case Ok(s) => Progress(s.results, p.effects + s.effects, None)
  }

  /** Once an action throws, the later actions change nothing. */
  lemma {:induction false} RunPrefixStops(ctx: Context, actions: seq<Json>, init: RunResults, i: nat)
    requires Shaped(init, ctx.kind)
    requires i <= |actions|
    requires RunPrefix(ctx, actions[..i], init).failure.Some?
    ensures RunPrefix(ctx, actions, init) == RunPrefix(ctx, actions[..i], init)
    decreases |actions| - i
  {
    if i < |actions| {
      assert actions[..i + 1][..i] == actions[..i];
      RunPrefixStops(ctx, actions, init, i + 1);
    } else {
      assert actions[..i] == actions;
    }
  }

  /** Entry `i` of a completed run is what `Decide` made of action `i`, in order. */
  lemma {:induction false} RunEntries(ctx: Context, actions: seq<Json>, init: RunResults, i: nat)
    requires Shaped(init, ctx.kind)
    requires i < |actions|
    requires RunPrefix(ctx, actions, init).failure.None?
    ensures RunPrefix(ctx, actions[..i], init).failure.None?
    ensures Decide(ctx, i, actions[i], RunPrefix(ctx, actions[..i], init).results).Ok?
    ensures RunPrefix(ctx, actions, init).results.actions[|init.actions| + i]
      == Decide(ctx, i, actions[i], RunPrefix(ctx, actions[..i], init).results).value.entry
    ensures RunPrefix(ctx, actions, init).results.actions[|init.actions| + i].actionType
      == Get(actions[i], "type")
    decreases |actions|
  {
    var n := |actions| - 1;
    var front := actions[..n];
    RunLast(ctx, actions, init);
    var p := RunPrefix(ctx, front, init);
    var d := Decide(ctx, n, actions[n], p.results).value;
    assert RunPrefix(ctx, actions, init).results.actions == p.results.actions + [d.entry];
    assert |p.results.actions| == |init.actions| + n;
    if i < n {
      assert front[..i] == actions[..i] && front[i] == actions[i];
      RunEntries(ctx, front, init, i);
    } else {
      assert front == actions[..i];
    }
  }

  /** A completed run is a completed run of all but the last action, then that action. */
  lemma {:induction false} RunLast(ctx: Context, actions: seq<Json>, init: RunResults)
    requires Shaped(init, ctx.kind) && |actions| > 0
    requires RunPrefix(ctx, actions, init).failure.None?
    ensures var p := RunPrefix(ctx, actions[..|actions| - 1], init);
      p.failure.None? && Decide(ctx, |actions| - 1, actions[|actions| - 1], p.results).Ok? &&
      RunPrefix(ctx, actions, init).results
        == Decide(ctx, |actions| - 1, actions[|actions| - 1], p.results).value.results
  {
  }

  // ----- What the loop promises -----

  /**
   * The status each action reports: channel, delay, notify and unknown
   * actions are only simulated, a document action without a template is
   * skipped, the rest complete.
   */
  function StatusFor(a: Json): string {
    match ActionKindOf(Get(a, "type"))
    case FilterAct => "completed"
    case ScoreAct => "completed"
    case ScrapeAct => "completed"
    case CreateAct => "completed"
    case DocumentAct => if Truthy(Config(a, "template")) then "completed" else "skipped"
    case _ => "simulated"
  }

  /**
   * A filter fails only on a lead that passes source and status and on which
   * a truthy non-string condition throws; an array condition holding none of
   * the three test strings never throws.
   */
  lemma {:induction false} FilterFails(a: Json, leads: seq<Lead>)
    ensures FilterLeads(a, leads).Err? <==> exists l :: l in leads && Keep(a, l).Err?
    ensures FilterLeads(a, leads).Err? ==>
      Truthy(Config(a, "condition")) && !Config(a, "condition").value.JString? &&
      exists l :: l in leads && ConditionThrows(Config(a, "condition").value, l)
    ensures (Config(a, "condition").Some? && Config(a, "condition").value.JArray? &&
        JString("score > ") !in Config(a, "condition").value.items &&
        JString("price > ") !in Config(a, "condition").value.items &&
        JString("amount > ") !in Config(a, "condition").value.items) ==>
      FilterLeads(a, leads).Ok?
    decreases |leads|
  {
    if leads != [] {
      FilterFails(a, leads[1..]);
      assert forall l :: l in leads <==> l == leads[0] || l in leads[1..];
    }
  }

  /**
   * When the filter does not throw it keeps, in order, exactly the leads
   * whose callback says keep.
   */
  lemma {:induction false} FilterKeeps(a: Json, leads: seq<Lead>)
    requires FilterLeads(a, leads).Ok?
    ensures FilterLeads(a, leads).value == Filter(leads, (l: Lead) => Keep(a, l) == Ok(true))
    decreases |leads|
  {
    if leads != [] {
      FilterKeeps(a, leads[1..]);
      FilterAppend([leads[0]], leads[1..], (l: Lead) => Keep(a, l) == Ok(true));
      assert [leads[0]] + leads[1..] == leads;
    }
  }

  /** The channels the actions schedule, in order. */
  function Channels(actions: seq<Json>): (r: seq<string>)
    ensures |r| <= |actions|
    decreases |actions|
  {
    if actions == [] then []
    else
      var front := Channels(actions[..|actions| - 1]);
      match ChannelOf(actions[|actions| - 1])
      case Some(c) => front + [c]
      case None => front
  }

  /**
   * In an outreach run every channel action schedules one message, and the
   * contact types are the channels used, each once, in first-use order.
   */
  lemma {:induction false} OutreachTally(ctx: Context, actions: seq<Json>, init: RunResults)
    requires ctx.kind == OutreachSequence
    requires Shaped(init, ctx.kind) && init.outreach == Some(Outreach(0, []))
    requires RunPrefix(ctx, actions, init).failure.None?
    ensures RunPrefix(ctx, actions, init).results.outreach
      == Some(Outreach(|Channels(actions)|, Dedup(Channels(actions))))
    decreases |actions|
  {
    if actions != [] {
      var n := |actions| - 1;
      RunLast(ctx, actions, init);
      OutreachTally(ctx, actions[..n], init);
      var p := RunPrefix(ctx, actions[..n], init).results;
      assert RunPrefix(ctx, actions, init).results.outreach == Tally(ctx, actions[n], p);
      ChannelsSnoc(actions);
      TallyChannel(ctx, actions[n], p, Channels(actions[..n]));
    }
  }

  /** The channels of a list are those of all but its last action, then that one's channel, if any. */
  lemma {:induction false} ChannelsSnoc(actions: seq<Json>)
    requires actions != []
    ensures var n := |actions| - 1;
      Channels(actions) == Channels(actions[..n]) + (if ChannelOf(actions[n]).Some? then [ChannelOf(actions[n]).value] else [])
  {
  }

  /** One more action keeps the outreach record the tally of the channels so far. */
  lemma {:induction false} TallyChannel(ctx: Context, a: Json, r: RunResults, cs: seq<string>)
    requires ctx.kind == OutreachSequence && Shaped(r, ctx.kind)
    requires r.outreach == Some(Outreach(|cs|, Dedup(cs)))
    ensures var more := cs + (if ChannelOf(a).Some? then [ChannelOf(a).value] else []);
      Tally(ctx, a, r) == Some(Outreach(|more|, Dedup(more)))
  {
    match ChannelOf(a)
    case Some(c) =>
      DedupSnoc(cs, c);
    case None =>
      assert cs + [] == cs;
  }

  // ----- The handler -----

  datatype RunResponse =
    | NotFound                 // 404 "Workflow not found"
    | NoLeads                  // 400 "No leads available to process with this workflow"
    | Failed(error: string)    // 500 "Error running workflow"
    | Ran(message: string, workflow: Option<Workflow>, results: RunResults)

  /** `storage.getWorkflow(parseInt(req.params.id))`. */
  function Found(s: MemStorage, idParam: string): Option<Workflow>
    reads s
  {
    match ParseIntPrefix(idParam)
    case None => None
    case Some(id) => s.GetWorkflow(id)
  }

  function ContextFor(w: Workflow, leads: seq<Lead>, userId: int, rand: (nat, nat) -> nat, nowText: string): Context {
    Context(leads, KindOf(WorkflowType(w.trigger)), w.name, userId, rand, nowText)
  }

  /** The loop as specified, started from the workflow's initial results. */
  function Plan(w: Workflow, leads: seq<Lead>, userId: int, rand: (nat, nat) -> nat,
    initialDraw: nat, nowText: string): Progress
  {
    RunPrefix(ContextFor(w, leads, userId, rand, nowText), Actions(w), InitialResults(w.trigger, initialDraw))
  }

  /** `{ lastRun: now }` as an update. */
  function StampLastRun(now: Timestamp): (p: WorkflowPatch)
    ensures forall w :: PatchWorkflow(w, p) == w.(lastRun := Some(now))
  {
    WorkflowPatch(None, None, None, None, None, None, Some(Some(now)), None, None)
  }

  /** Performs one write. */
  method PerformOne(store: MemStorage, e: Effect, now: Timestamp)
    requires store.Valid() && WorldOf(store).nextDocumentId == store.documentIdCounter
    modifies store`documents, store`documentIdCounter, store`leads
    ensures store.Valid()
    ensures WorldOf(store) == Apply(old(WorldOf(store)), e, now)
  {
    match e
    case CreateDoc(x) =>
      var _ := store.CreateDocument(x, now);
    case SetScore(id, s) =>
      var _ := store.UpdateLead(id, ScoreOnly(s), now);
  }

  /** Performs writes in order. */
  method Perform(store: MemStorage, es: seq<Effect>, now: Timestamp)
    requires store.Valid()
    modifies store`documents, store`documentIdCounter, store`leads
    ensures store.Valid()
    ensures WorldOf(store) == ApplyAll(old(WorldOf(store)), es, now)
  {
    for i := 0 to |es|
      invariant store.Valid()
      invariant WorldOf(store) == ApplyAll(old(WorldOf(store)), es[..i], now)
    {
      assert es[..i + 1][..i] == es[..i];
      PerformOne(store, es[i], now);
    }
    assert es[..|es|] == es;
  }

  /**
   * One pass of the loop: action `i` after a prefix that did not throw.
   * Its writes are performed, and the loop state moves to the next prefix.
   */
  method RunOne(store: MemStorage, ctx: Context, actions: seq<Json>, init: RunResults, i: nat,
    results: RunResults, ghost done: seq<Effect>, now: Timestamp)
    returns (next: RunResults, failure: Option<string>, ghost es: seq<Effect>)
    requires store.Valid() && Shaped(init, ctx.kind) && i < |actions|
    requires RunPrefix(ctx, actions[..i], init) == Progress(results, done, None)
    modifies store`documents, store`documentIdCounter, store`leads
    ensures store.Valid()
    ensures RunPrefix(ctx, actions[..i + 1], init) == Progress(next, done + es, failure)
    ensures WorldOf(store) == ApplyAll(old(WorldOf(store)), es, now)
  {
    assert actions[..i + 1][..i] == actions[..i];
    var o := Decide(ctx, i, actions[i], results);
    if o.Err? {
      assert done + [] == done;
      return results, Some(o.error), [];
    }
    Perform(store, o.value.effects, now);
    return o.value.results, None, o.value.effects;
  }

  /** The `for ... of` loop; a thrown exception leaves it at once. */
  method RunActions(store: MemStorage, ctx: Context, actions: seq<Json>, init: RunResults, now: Timestamp)
    returns (results: RunResults, failure: Option<string>)
    requires store.Valid() && Shaped(init, ctx.kind)
    modifies store`documents, store`documentIdCounter, store`leads
    ensures store.Valid()
    ensures results == RunPrefix(ctx, actions, init).results
    ensures failure == RunPrefix(ctx, actions, init).failure
    ensures WorldOf(store) == ApplyAll(old(WorldOf(store)), RunPrefix(ctx, actions, init).effects, now)
  {
    results, failure := init, None;
    ghost var done: seq<Effect> := [];
    var i := 0;
    while i < |actions| && failure.None?
      invariant 0 <= i <= |actions| && store.Valid()
      invariant RunPrefix(ctx, actions[..i], init) == Progress(results, done, failure)
      invariant WorldOf(store) == ApplyAll(old(WorldOf(store)), done, now)
      decreases |actions| - i
    {
      ghost var es;
      results, failure, es := RunOne(store, ctx, actions, init, i, results, done, now);
      ApplyAllAppend(old(WorldOf(store)), done, es, now);
      done := done + es;
      i := i + 1;
    }
    if i < |actions| {
      RunPrefixStops(ctx, actions, init, i);
    } else {
      assert actions[..i] == actions;
    }
  }

  /**
   * The handler. A missing workflow answers 404 and a user without leads
   * 400, both without writing. Otherwise the actions run over the lead
   * snapshot taken before the loop: storage ends up with exactly the
   * planned writes, and an exception answers 500 and leaves `lastRun` alone
   * while a full run stamps `lastRun` and answers with the results.
   */
  method RunWorkflow(store: MemStorage, idParam: string, userId: int, rand: (nat, nat) -> nat,
    initialDraw: nat, now: Timestamp, nowText: string) returns (resp: RunResponse)
    requires store.Valid()
    modifies store`documents, store`documentIdCounter, store`leads, store`workflows
    ensures store.Valid()
    ensures old(Found(store, idParam)).None? ==>
      resp == NotFound && WorldOf(store) == old(WorldOf(store)) && store.workflows == old(store.workflows)
    ensures old(Found(store, idParam)).Some? && old(store.GetLeads(userId)) == [] ==>
      resp == NoLeads && WorldOf(store) == old(WorldOf(store)) && store.workflows == old(store.workflows)
    ensures old(Found(store, idParam)).Some? && old(store.GetLeads(userId)) != [] ==>
      var w := old(Found(store, idParam)).value;
      var p := Plan(w, old(store.GetLeads(userId)), userId, rand, initialDraw, nowText);
      WorldOf(store) == ApplyAll(old(WorldOf(store)), p.effects, now) &&
      (p.failure.Some? ==> resp == Failed(p.failure.value) && store.workflows == old(store.workflows)) &&
      (p.failure.None? ==>
        resp == Ran(RanMessage(w.name), Some(w.(lastRun := Some(now))), p.results) &&
        store.workflows == old(store.workflows)[ParseIntPrefix(idParam).value := w.(lastRun := Some(now))])
  {
    var found := Found(store, idParam);
    if found.None? {
      return NotFound;
    }
    var id := ParseIntPrefix(idParam).value;
    var w := found.value;
    var leads := store.GetLeads(userId);
    if |leads| == 0 {
      return NoLeads;
    }
    resp := RunFound(store, id, w, leads, userId, rand, initialDraw, now, nowText);
  }

  /** `Workflow '<name>' executed successfully`. */
  function RanMessage(name: string): string {
    "Workflow '" + name + "' executed successfully"
  }

  /** The handler once the workflow `w`, stored under `id`, and the lead snapshot are known. */
  method RunFound(store: MemStorage, id: int, w: Workflow, leads: seq<Lead>, userId: int,
    rand: (nat, nat) -> nat, initialDraw: nat, now: Timestamp, nowText: string) returns (resp: RunResponse)
    requires store.Valid() && id in store.workflows && store.workflows[id] == w
    modifies store`documents, store`documentIdCounter, store`leads, store`workflows
    ensures store.Valid()
    ensures var p := Plan(w, leads, userId, rand, initialDraw, nowText);
      WorldOf(store) == ApplyAll(old(WorldOf(store)), p.effects, now) &&
      (p.failure.Some? ==> resp == Failed(p.failure.value) && store.workflows == old(store.workflows)) &&
      (p.failure.None? ==>
        resp == Ran(RanMessage(w.name), Some(w.(lastRun := Some(now))), p.results) &&
        store.workflows == old(store.workflows)[id := w.(lastRun := Some(now))])
  {
    var ctx := ContextFor(w, leads, userId, rand, nowText);
    var results, failure := RunActions(store, ctx, Actions(w), InitialResults(w.trigger, initialDraw), now);
    if failure.Some? {
      return Failed(failure.value);
    }
    var updated := store.UpdateWorkflow(id, StampLastRun(now));
    resp := Ran(RanMessage(w.name), updated, results);
  }
}
