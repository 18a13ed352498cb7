/**
 * Document generation on the server: the five built-in templates, keyless
 * `{{placeholder}}` filling from the date, a lead and custom fields, the
 * fallback after a failed AI call, and `generateDocument`, which validates
 * its parameters and stores the new draft.
 */
module DocumentGeneration {
  import opened Core
  import opened Text
  import opened Schema
  import Storage

  datatype Template = Template(
    id: string, name: string, description: string, docType: string, text: string)

  /** The bodies of the five templates, which are long literal texts. */
  datatype TemplateTexts = TemplateTexts(
    purchaseOffer: string, propertyAssessment: string, leaseAgreement: string,
    followUpLetter: string, buyerQualification: string)

  /** `documentTemplates`, in declaration order. */
  function DocumentTemplates(texts: TemplateTexts): seq<Template> {
    [ Template("purchase-offer", "Purchase Offer",
        "Standard real estate purchase offer for residential properties",
        "offer", texts.purchaseOffer),
      Template("property-assessment", "Property Assessment",
        "Detailed assessment of property value and condition",
        "assessment", texts.propertyAssessment),
      Template("lease-agreement", "Residential Lease Agreement",
        "Standard residential property lease agreement",
        "lease", texts.leaseAgreement),
      Template("follow-up-letter", "Lead Follow-up Letter",
        "Letter for following up with a potential seller lead",
        "follow-up", texts.followUpLetter),
      Template("buyer-qualification", "Buyer Qualification Form",
        "Form for qualifying potential property buyers",
        "qualification", texts.buyerQualification) ]
  }

  /** `templates.find(t => t.id === id)`. */
  function FindTemplate(ts: seq<Template>, id: string): (r: Option<Template>)
    ensures r.Some? ==> r.value in ts && r.value.id == id
    ensures r.None? <==> forall i :: 0 <= i < |ts| ==> ts[i].id != id
    ensures r.Some? ==>
      exists i :: 0 <= i < |ts| && ts[i] == r.value && forall j :: 0 <= j < i ==> ts[j].id != id
    decreases |ts|
  {
    if ts == [] then None
    else if ts[0].id == id then Some(ts[0])
    else
      var rest := FindTemplate(ts[1..], id);
      assert forall i :: 1 <= i < |ts| ==> ts[i] == ts[1..][i - 1];
      rest
  }

  /** `getDocumentTemplate(id)`. */
  function GetDocumentTemplate(texts: TemplateTexts, id: string): Option<Template> {
    FindTemplate(DocumentTemplates(texts), id)
  }

  /** No two built-in templates share an id. */
  lemma {:induction false} TemplateIdsDistinct(texts: TemplateTexts)
    ensures var ts := DocumentTemplates(texts);
      forall i, j :: 0 <= i < j < |ts| ==> ts[i].id != ts[j].id
  {
  }

  /**
   * Each built-in template is found by its own id, and an id that is none of
   * theirs finds nothing.
   */
  lemma {:induction false} TemplateLookup(texts: TemplateTexts, id: string)
    ensures var ts := DocumentTemplates(texts);
      forall t :: t in ts ==> GetDocumentTemplate(texts, t.id) == Some(t)
    ensures (forall t :: t in DocumentTemplates(texts) ==> t.id != id) ==>
      GetDocumentTemplate(texts, id).None?
  {
    var ts := DocumentTemplates(texts);
    TemplateIdsDistinct(texts);
    forall t | t in ts ensures GetDocumentTemplate(texts, t.id) == Some(t) {
      var r := FindTemplate(ts, t.id);
      var k :| 0 <= k < |ts| && ts[k] == t;
      var i :| 0 <= i < |ts| && ts[i] == r.value && forall j :: 0 <= j < i ==> ts[j].id != t.id;
      assert i == k;
    }
  }

  // Placeholders

  /** The text `{{k}}` that stands for the value of `k`. */
  function Hole(k: string): (r: string)
    ensures |r| == |k| + 4 && r[0] == '{' && r[1] == '{'
    ensures r[|k| + 2] == '}' && r[|k| + 3] == '}'
    ensures forall t :: 2 <= t < |k| + 2 ==> r[t] == k[t - 2]
  {
    "{{" + k + "}}"
  }

  predicate BraceFree(k: string) {
    forall i :: 0 <= i < |k| ==> k[i] != '{' && k[i] != '}'
  }

  const CurrentDate: string := "currentDate"

  /** The eight placeholders filled from a lead, in the order they are filled. */
  const LeadPlaceholders: seq<string> := [
    "sellerName", "propertyAddress", "recipientName", "recipientAddress",
    "recipientCity", "recipientState", "recipientZip", "ownerName"]

  /** `field || ""` on an optional column. */
  function OrEmpty(o: Option<string>): (r: string)
    ensures o.Some? ==> r == o.value
    ensures o.None? ==> r == ""
  {
    if o.Some? then o.value else ""
  }

  /** Each lead placeholder with the lead column it is filled from. */
  function LeadPairs(lead: Lead): (r: seq<(string, string)>)
    ensures |r| == |LeadPlaceholders|
    ensures forall i :: 0 <= i < |r| ==> r[i].0 == LeadPlaceholders[i]
  {
    [ ("sellerName", lead.name), ("propertyAddress", OrEmpty(lead.address)),
      ("recipientName", lead.name), ("recipientAddress", OrEmpty(lead.address)),
      ("recipientCity", OrEmpty(lead.city)), ("recipientState", OrEmpty(lead.state)),
      ("recipientZip", OrEmpty(lead.zip)), ("ownerName", lead.name) ]
  }

  /** Replaces every `{{key}}` by its value, one entry after the other. */
  function FillAll(content: string, pairs: seq<(string, string)>): string
    decreases |pairs|
  {
    if pairs == [] then content
    else
      var last := pairs[|pairs| - 1];
      ReplaceAll(FillAll(content, pairs[..|pairs| - 1]), Hole(last.0), last.1)
  }

  /**
   * The keyless filling: the date first, then the lead placeholders when a
   * lead is given, then every custom field in entry order.
   */
  function Populated(text: string, lead: Option<Lead>, custom: seq<(string, string)>,
                     today: string): string
  {
    var dated := ReplaceAll(text, Hole(CurrentDate), today);
    var withLead := if lead.Some? then FillAll(dated, LeadPairs(lead.value)) else dated;
    FillAll(withLead, custom)
  }

  /** The `for … of` loops that replace one entry after another. */
  method FillEntries(content: string, pairs: seq<(string, string)>) returns (r: string)
    ensures r == FillAll(content, pairs)
  {
    r := content;
    for i := 0 to |pairs|
      invariant r == FillAll(content, pairs[..i])
    {
      r := ReplaceAll(r, Hole(pairs[i].0), pairs[i].1);
      assert pairs[..i + 1][..i] == pairs[..i];
    }
    assert pairs[..|pairs|] == pairs;
  }

  /** The body of `populateTemplate` without an API key. */
  method FillTemplate(template: Template, lead: Option<Lead>,
                      custom: seq<(string, string)>, today: string)
    returns (content: string)
    ensures content == Populated(template.text, lead, custom, today)
  {
    content := template.text;
    content := ReplaceAll(content, Hole(CurrentDate), today);
    if lead.Some? {
      content := FillEntries(content, LeadPairs(lead.value));
    }
    content := FillEntries(content, custom);
  }

  /**
   * What the chat-completion call gave: an error (including a reply without
   * choices), or the content of the first choice's message.
   */
  datatype AiOutcome = AiError | AiReply(content: Option<string>)

  const AiEmptyReply: string := "Error generating document content"

  /**
   * `populateTemplate`: with an API key the AI reply is used, or the keyless
   * filling when the call fails; without a key, the keyless filling.
   */
  method PopulateTemplate(template: Template, lead: Option<Lead>,
                          custom: seq<(string, string)>, today: string,
                          hasKey: bool, ai: AiOutcome)
    returns (content: string)
    ensures !hasKey || ai.AiError? ==> content == Populated(template.text, lead, custom, today)
    ensures hasKey && ai.AiReply? && ai.content.Some? && ai.content.value != "" ==>
      content == ai.content.value
    ensures hasKey && ai.AiReply? && (ai.content.None? || ai.content == Some("")) ==>
      content == AiEmptyReply
  {
    if hasKey && ai.AiReply? {
      content := if ai.content.Some? && ai.content.value != "" then ai.content.value
                 else AiEmptyReply;
    } else {
      content := FillTemplate(template, lead, custom, today);
    }
  }

  // Properties of the filling

  /** No placeholder starts strictly inside the placeholder of a brace-free key. */
  lemma {:induction false} HoleNoOverlap(a: string, b: string, s: string, t: nat)
    requires BraceFree(a) && StartsWith(s, Hole(a)) && 1 <= t < |Hole(a)|
    ensures !StartsWith(s[t..], Hole(b))
  {
    var ha := Hole(a);
    assert s[..|ha|] == ha;
    if t == 1 {
      assert s[2] == ha[2];
      if a != [] { assert ha[2] == a[0]; }
      assert s[t..][1] == s[2] != Hole(b)[1];
    } else {
      assert s[t] == ha[t];
      if t < |a| + 2 { assert ha[t] == a[t - 2]; }
      assert s[t..][0] == s[t] != Hole(b)[0];
    }
  }

  /** Two brace-free keys whose placeholders start at the same place are equal. */
  lemma {:induction false} HolesDiffer(j: string, k: string, s: string)
    requires BraceFree(j) && BraceFree(k)
    requires StartsWith(s, Hole(j)) && StartsWith(s, Hole(k))
    ensures j == k
  {
    var hj, hk := Hole(j), Hole(k);
    assert s[..|hj|] == hj && s[..|hk|] == hk;
    assert forall t :: 2 <= t < |j| + 2 ==> s[t] == hj[t] == j[t - 2];
    assert forall t :: 2 <= t < |k| + 2 ==> s[t] == hk[t] == k[t - 2];
    assert s[|j| + 2] == hj[|j| + 2] && s[|k| + 2] == hk[|k| + 2];
    assert |j| == |k|;
    assert hj == hk;
    assert j == hj[2..|j| + 2] && k == hk[2..|k| + 2];
  }

  /**
   * Filling another brace-free key keeps every placeholder of a brace-free
   * key: the two placeholders can never overlap.
   */
  lemma {:induction false} ReplaceKeepsHole(s: string, j: string, k: string, v: string, i: nat)
    requires BraceFree(j) && BraceFree(k) && j != k
    requires i <= |s| && StartsWith(s[i..], Hole(k))
    ensures Contains(ReplaceAll(s, Hole(j), v), Hole(k))
    decreases |s|
  {
    var hj, hk := Hole(j), Hole(k);
    if StartsWith(s, hj) {
      assert ReplaceAll(s, hj, v) == v + ReplaceAll(s[|hj|..], hj, v);
      if i == 0 {
        assert s[0..] == s;
        HolesDiffer(j, k, s);
        assert false;
      } else if i < |hj| {
        HoleNoOverlap(j, k, s, i);
        assert false;
      } else {
        assert s[|hj|..][i - |hj|..] == s[i..];
        ReplaceKeepsHole(s[|hj|..], j, k, v, i - |hj|);
        ContainsAfter(v, ReplaceAll(s[|hj|..], hj, v), hk);
      }
    } else if i == 0 {
      var rest := s[|hk|..];
      assert s[0..] == s;
      assert s == hk + rest;
      forall t | 0 <= t < |hk| ensures !StartsWith((hk + rest)[t..], hj) {
        if t == 0 {
          assert (hk + rest)[0..] == s;
        } else {
          HoleNoOverlap(k, j, s, t);
        }
      }
      ReplaceAllSkip(hk, rest, hj, v);
      assert (hk + ReplaceAll(rest, hj, v))[0..] == hk + ReplaceAll(rest, hj, v);
      ContainsAt(hk + ReplaceAll(rest, hj, v), hk, 0);
    } else {
      assert ReplaceAll(s, hj, v) == [s[0]] + ReplaceAll(s[1..], hj, v);
      assert s[1..][i - 1..] == s[i..];
      ReplaceKeepsHole(s[1..], j, k, v, i - 1);
      ContainsAfter([s[0]], ReplaceAll(s[1..], hj, v), hk);
    }
  }

  lemma {:induction false} ReplaceKeepsContains(s: string, j: string, k: string, v: string)
    requires BraceFree(j) && BraceFree(k) && j != k && Contains(s, Hole(k))
    ensures Contains(ReplaceAll(s, Hole(j), v), Hole(k))
  {
    ReplaceKeepsHole(s, j, k, v, IndexOf(s, Hole(k)).value);
  }

  lemma {:induction false} FillAllKeepsHole(s: string, pairs: seq<(string, string)>, k: string)
    requires BraceFree(k) && Contains(s, Hole(k))
    requires forall e :: e in pairs ==> BraceFree(e.0) && e.0 != k
    ensures Contains(FillAll(s, pairs), Hole(k))
    decreases |pairs|
  {
    if pairs != [] {
      var init := pairs[..|pairs| - 1];
      var last := pairs[|pairs| - 1];
      assert forall e :: e in init ==> e in pairs;
      FillAllKeepsHole(s, init, k);
      ReplaceKeepsContains(FillAll(s, init), last.0, k, last.1);
    }
  }

  lemma {:induction false} FillAllAbsent(s: string, pairs: seq<(string, string)>)
    requires forall e :: e in pairs ==> !Contains(s, Hole(e.0))
    ensures FillAll(s, pairs) == s
    decreases |pairs|
  {
    if pairs != [] {
      var init := pairs[..|pairs| - 1];
      var last := pairs[|pairs| - 1];
      assert forall e :: e in init ==> e in pairs;
      FillAllAbsent(s, init);
      ReplaceAllAbsent(s, Hole(last.0), last.1);
    }
  }

  lemma LeadPlaceholdersBraceFree()
    ensures BraceFree(CurrentDate)
    ensures forall i :: 0 <= i < |LeadPlaceholders| ==> BraceFree(LeadPlaceholders[i])
  {
  }

  /**
   * A placeholder is left verbatim when neither the date, nor a given lead,
   * nor any custom entry fills it (for keys without braces).
   */
  lemma {:induction false} PopulatedKeepsHole(text: string, lead: Option<Lead>, custom: seq<(string, string)>,
                           today: string, k: string)
    requires BraceFree(k) && k != CurrentDate && Contains(text, Hole(k))
    requires lead.Some? ==> k !in LeadPlaceholders
    requires forall e :: e in custom ==> BraceFree(e.0) && e.0 != k
    ensures Contains(Populated(text, lead, custom, today), Hole(k))
  {
    LeadPlaceholdersBraceFree();
    var dated := ReplaceAll(text, Hole(CurrentDate), today);
    ReplaceKeepsContains(text, CurrentDate, k, today);
    var withLead := dated;
    if lead.Some? {
      var pairs := LeadPairs(lead.value);
      forall e | e in pairs ensures BraceFree(e.0) && e.0 != k {
        var i :| 0 <= i < |pairs| && pairs[i] == e;
        assert e.0 == LeadPlaceholders[i];
      }
      FillAllKeepsHole(dated, pairs, k);
      withLead := FillAll(dated, pairs);
    }
    FillAllKeepsHole(withLead, custom, k);
  }

  /** A text holding none of the placeholders that would be filled comes back unchanged. */
  lemma {:induction false} PopulatedVerbatim(text: string, lead: Option<Lead>, custom: seq<(string, string)>,
                          today: string)
    requires !Contains(text, Hole(CurrentDate))
    requires lead.Some? ==> forall k :: k in LeadPlaceholders ==> !Contains(text, Hole(k))
    requires forall e :: e in custom ==> !Contains(text, Hole(e.0))
    ensures Populated(text, lead, custom, today) == text
  {
    ReplaceAllAbsent(text, Hole(CurrentDate), today);
    if lead.Some? {
      var pairs := LeadPairs(lead.value);
      forall e | e in pairs ensures !Contains(text, Hole(e.0)) {
        var i :| 0 <= i < |pairs| && pairs[i] == e;
        assert e.0 == LeadPlaceholders[i];
      }
      FillAllAbsent(text, pairs);
    }
    FillAllAbsent(text, custom);
  }

  /**
   * A custom entry whose placeholder is gone once the lead step has run
   * changes nothing, wherever it stands among the custom entries.
   */
  lemma {:induction false} CustomEntryIdle(s: string, before: seq<(string, string)>,
                                           k: string, v: string)
    requires !Contains(FillAll(s, before), Hole(k))
    ensures FillAll(s, before + [(k, v)]) == FillAll(s, before)
  {
    assert (before + [(k, v)])[..|before|] == before;
    ReplaceAllAbsent(FillAll(s, before), Hole(k), v);
  }

  // generateDocument

  datatype GenerationParams = GenerationParams(
    templateId: string, leadId: Option<int>, userId: int,
    customFields: seq<(string, string)>)

  /** `if (params.leadId)`: a lead id is looked up only when it is truthy. */
  predicate HasLeadId(p: GenerationParams) {
    p.leadId.Some? && p.leadId.value != 0
  }

  /** The generated document's name. */
  function DocumentName(template: Template, lead: Option<Lead>, today: string): (r: string)
    ensures lead.None? ==> r == template.name + " - " + today
    ensures lead.Some? && OrEmpty(lead.value.address) != "" ==>
      r == template.name + " - " + lead.value.address.value
    ensures lead.Some? && OrEmpty(lead.value.address) == "" ==>
      r == template.name + " - " + lead.value.name
  {
    template.name + " - " +
      (if lead.None? then today
       else if OrEmpty(lead.value.address) != "" then lead.value.address.value
       else lead.value.name)
  }

  /**
   * `generateDocument`: fails for an unknown template and for a truthy lead
   * id without a stored lead; otherwise fills the template and stores a
   * draft of the template's type under a fresh id.
   */
  method GenerateDocument(store: Storage.MemStorage, texts: TemplateTexts,
                          params: GenerationParams, today: string, now: Timestamp,
                          hasKey: bool, ai: AiOutcome)
    returns (r: Result<Document>)
    requires store.Valid()
    modifies store`documents, store`documentIdCounter
    ensures store.Valid()
    ensures GetDocumentTemplate(texts, params.templateId).None? ==>
      r == Err("Template with ID " + params.templateId + " not found")
    ensures (GetDocumentTemplate(texts, params.templateId).Some? && HasLeadId(params) &&
             old(store.GetLead(params.leadId.value)).None?) ==>
      r == Err("Lead with ID " + IntToString(params.leadId.value) + " not found")
    ensures r.Ok? <==>
      (GetDocumentTemplate(texts, params.templateId).Some? &&
       (HasLeadId(params) ==> old(store.GetLead(params.leadId.value)).Some?))
    ensures r.Err? ==>
      store.documents == old(store.documents) &&
      store.documentIdCounter == old(store.documentIdCounter)
    ensures r.Ok? ==>
      var t := GetDocumentTemplate(texts, params.templateId).value;
      var lead := if HasLeadId(params) then old(store.GetLead(params.leadId.value)) else None;
      var d := r.value;
      d.id == old(store.documentIdCounter) &&
      d.name == DocumentName(t, lead, today) && d.docType == t.docType &&
      d.status == Some("draft") && d.leadId == Storage.NumberOrNull(params.leadId) &&
      d.userId == Storage.IntOrNull(params.userId) && d.createdAt == Some(now) &&
      ((!hasKey || ai.AiError?) ==>
         d.content == Storage.TextOrNull(Some(Populated(t.text, lead, params.customFields, today)))) &&
      store.documents == old(store.documents)[d.id := d] &&
      store.documentIdCounter == old(store.documentIdCounter) + 1
  {
    var found := GetDocumentTemplate(texts, params.templateId);
    if found.None? {
      return Err("Template with ID " + params.templateId + " not found");
    }
    var template := found.value;
    var lead: Option<Lead> := None;
    if HasLeadId(params) {
      lead := store.GetLead(params.leadId.value);
      if lead.None? {
        return Err("Lead with ID " + IntToString(params.leadId.value) + " not found");
      }
    }
    var content := PopulateTemplate(template, lead, params.customFields, today, hasKey, ai);
    var name := DocumentName(template, lead, today);
    var doc := store.CreateDocument(
      InsertDocument(name, template.docType, Some(content), None, "draft",
        params.leadId, params.userId), now);
    return Ok(doc);
  }
}
