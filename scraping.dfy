/**
 * The scraping pipeline of the scraping service: fetching a page through a
 * chain of fallbacks, extracting records from it (the AI extractor or the
 * regex fallback), normalising them per source, running a stored job
 * through these stages while stepping its status, and turning one result
 * into a lead.
 *
 * The network, the AI service, the regex engine, `Math.random`, uuid and
 * the clock are parameters: each transport is reduced to its outcome, the
 * regex engine to the match lists of the patterns on the page.
 */
module Scraping {
  import opened Core
  import opened Text
  import opened Schema
  import Storage
  import Json

  // Records: a scraped or processed record maps field names to text; a
  // field whose value is `undefined` is absent.

  function Field(r: ScrapedRecord, key: string): Option<string> {
    if key in r then Some(r[key]) else None
  }

  /** `{ ..., key: v }` where `v` may be undefined. */
  function Put(r: ScrapedRecord, key: string, v: Option<string>): ScrapedRecord {
    if v.Some? then r[key := v.value] else r
  }

  /** `v || fallback` for a text value that may be undefined. */
  function OrElse(v: Option<string>, fallback: string): (r: string)
    ensures v.Some? && v.value != "" ==> r == v.value
    ensures v.None? || v.value == "" ==> r == fallback
  {
    if v.Some? && v.value != "" then v.value else fallback
  }

  /** `${v}` for a text value that may be undefined. */
  function Shown(v: Option<string>): string {
    if v.Some? then v.value else "undefined"
  }

  // Fetching.

  /** What the scraper API call came to. */
  datatype ApiOutcome =
    | ApiFailed                         // the call threw, the reply was not ok, or `success` was false
    | ApiText(extracted: Option<string>)  // a successful reply and its `extracted_text`

  /** What the direct fetch came to. */
  datatype Transfer = Failed | Delivered(text: string)

  /** The demonstration page returned once both fetches fail. */
  datatype SampleKind = TaxSample | ProbateSample | FsboSample

  datatype Page = Fetched(text: string) | Sample(kind: SampleKind)

  /**
   * `getSampleContentForSourceType`: the lower-cased URL picks the page;
   * "tax" or "delinquent" is checked before "probate".
   */
  function SampleKindFor(url: string): (k: SampleKind)
    ensures k == TaxSample <==>
      Contains(ToLower(url), "tax") || Contains(ToLower(url), "delinquent")
    ensures k == ProbateSample <==>
      !Contains(ToLower(url), "tax") && !Contains(ToLower(url), "delinquent") &&
      Contains(ToLower(url), "probate")
  {
    var lower := ToLower(url);
    if Contains(lower, "tax") || Contains(lower, "delinquent") then TaxSample
    else if Contains(lower, "probate") then ProbateSample
    else FsboSample
  }

  /**
   * `fetchWebsiteContent`: an empty URL is the only error; otherwise the
   * scraper API, then the direct fetch, then the sample page.
   */
  function FetchWebsiteContent(url: string, api: ApiOutcome, direct: Transfer): (r: Result<Page>)
    ensures r.Err? <==> url == ""
    ensures url != "" && api.ApiText? ==> r == Ok(Fetched(OrElse(api.extracted, "")))
    ensures url != "" && api.ApiFailed? && direct.Delivered? ==> r == Ok(Fetched(direct.text))
    ensures url != "" && api.ApiFailed? && direct.Failed? ==> r == Ok(Sample(SampleKindFor(url)))
  {
    if url == "" then Err("No URL provided for scraping")
    else if api.ApiText? then Ok(Fetched(OrElse(api.extracted, "")))
    else if direct.Delivered? then Ok(Fetched(direct.text))
    else Ok(Sample(SampleKindFor(url)))
  }

  // The regex fallback.

  /** The match lists of the fallback patterns on a page, in page order. */
  datatype PatternMatches = PatternMatches(
    addresses: seq<string>, amounts: seq<string>, cases: seq<string>, names: seq<string>,
    descriptions: seq<string>, prices: seq<string>)

  /** `Math.floor(x * n)` for a draw `x` of `Math.random()`. */
  function RandomBelow(x: real, n: nat): int {
    (x * n as real).Floor
  }

  /** The objects the regex fallback pushes, one shape per source type. */
  datatype Extracted =
    | TaxHit(propertyAddress: string, amountOwed: string, ownerName: string, dueDate: string,
             parcelId: string)
    | ProbateHit(caseNumber: string, deceasedName: string, filingDate: string,
                 executorName: string)
    | FsboHit(description: string, askingPrice: string, seller: nat,
              listingDate: string, contactLine: int)

  /** The object as a record of named fields. */
  function AsRecord(e: Extracted): ScrapedRecord {
    match e
    case TaxHit(address, amount, owner, due, parcel) =>
      map["property_address" := address, "amount_owed" := amount, "owner_name" := owner,
          "due_date" := due, "parcel_id" := parcel]
    case ProbateHit(caseNumber, deceased, filed, executor) =>
      map["case_number" := caseNumber, "deceased_name" := deceased, "filing_date" := filed,
          "executor_name" := executor]
    case FsboHit(description, price, seller, listed, contact) =>
      map["description" := description, "asking_price" := price,
          "seller_name" := "Seller " + NatToString(seller), "listing_date" := listed,
          "contact_info" := "555-555-" + IntToString(contact)]
  }

  function AsRecords(es: seq<Extracted>): (r: seq<ScrapedRecord>)
    ensures |r| == |es| && forall i :: 0 <= i < |es| ==> r[i] == AsRecord(es[i])
  {
    seq(|es|, i requires 0 <= i < |es| => AsRecord(es[i]))
  }

  /** Record `i` of the tax fallback; `random(i)` is that record's `Math.random()`. */
  function TaxRecord(m: PatternMatches, i: nat, today: string, random: nat -> real): Extracted
    requires i < |m.addresses|
  {
    TaxHit(m.addresses[i], if i < |m.amounts| then m.amounts[i] else "$0.00",
      "Owner " + NatToString(i + 1), today, "P" + IntToString(RandomBelow(random(i), 10000)))
  }

  function ProbateRecord(m: PatternMatches, i: nat, today: string): Extracted
    requires i < |m.cases|
  {
    ProbateHit(m.cases[i], if i < |m.names| then m.names[i] else "Deceased " + NatToString(i + 1),
      today, "Executor " + NatToString(i + 1))
  }

  /** The FSBO keyword hits considered: at most 30. */
  function FsboHits(m: PatternMatches): nat {
    Min(|m.descriptions|, 30)
  }

  /** Words, each followed by one space. */
  function Spaced(ws: seq<string>): string {
    if ws == [] then "" else ws[0] + " " + Spaced(ws[1..])
  }

  lemma {:induction false} SpacedSnoc(ws: seq<string>, w: string)
    ensures Spaced(ws + [w]) == Spaced(ws) + w + " "
  {
    if ws == [] {
      assert [w][1..] == [];
    } else {
      assert (ws + [w])[1..] == ws[1..] + [w];
      SpacedSnoc(ws[1..], w);
    }
  }

  /** The `k`-th group of (at most) three hits. */
  function FsboGroup(m: PatternMatches, k: nat): seq<string>
    requires 3 * k < FsboHits(m)
  {
    m.descriptions[3 * k..Min(3 * k + 3, FsboHits(m))]
  }

  /** A listing of the FSBO fallback with the given description. */
  function FsboListing(m: PatternMatches, k: nat, description: string, today: string,
                      random: nat -> real): Extracted
  {
    FsboHit(description, if k < |m.prices| && m.prices[k] != "" then m.prices[k] else "$0",
      k + 1, today, 1000 + RandomBelow(random(k), 9000))
  }

  /** Listing `k`: its group's hits, each followed by a space, trimmed. */
  function FsboRecord(m: PatternMatches, k: nat, today: string, random: nat -> real): Extracted
    requires 3 * k < FsboHits(m)
  {
    FsboListing(m, k, Trim(Spaced(FsboGroup(m, k))), today, random)
  }

  /** The first `count` FSBO listings. */
  function FsboListings(m: PatternMatches, count: nat, today: string, random: nat -> real)
    : (r: seq<Extracted>)
    requires 3 * count <= FsboHits(m) + 2
    ensures |r| == count
  {
    if count == 0 then [] else
      FsboListings(m, count - 1, today, random) + [FsboRecord(m, count - 1, today, random)]
  }

  /** Listing `k` of the FSBO listings is `FsboRecord(m, k, …)`. */
  lemma {:induction false} FsboListingAt(m: PatternMatches, count: nat, k: nat, today: string,
                                         random: nat -> real)
    requires 3 * count <= FsboHits(m) + 2 && k < count
    ensures FsboListings(m, count, today, random)[k] == FsboRecord(m, k, today, random)
    decreases count
  {
    if k < count - 1 {
      FsboListingAt(m, count - 1, k, today, random);
    }
  }

  /**
   * `basicDataExtraction`: at most 10 tax records, at most 10 probate
   * records, one FSBO listing per started group of three among the first
   * 30 hits, and nothing for any other source type.
   */
  function BasicExtraction(m: PatternMatches, sourceType: string, today: string,
                           random: nat -> real): (r: seq<Extracted>)
    ensures sourceType == "tax_delinquent" ==> |r| == Min(|m.addresses|, 10)
    ensures sourceType == "probate" ==> |r| == Min(|m.cases|, 10)
    ensures sourceType == "fsbo" ==> |r| == (FsboHits(m) + 2) / 3
    ensures sourceType !in {"tax_delinquent", "probate", "fsbo"} ==> r == []
  {
    if sourceType == "tax_delinquent" then
      seq(Min(|m.addresses|, 10), i requires 0 <= i < Min(|m.addresses|, 10) =>
        TaxRecord(m, i, today, random))
    else if sourceType == "probate" then
      seq(Min(|m.cases|, 10), i requires 0 <= i < Min(|m.cases|, 10) =>
        ProbateRecord(m, i, today))
    else if sourceType == "fsbo" then
      FsboListings(m, (FsboHits(m) + 2) / 3, today, random)
    else []
  }

  /** The imperative extractor computes `BasicExtraction`. */
  method BasicDataExtraction(m: PatternMatches, sourceType: string, today: string,
                             random: nat -> real)
    returns (results: seq<Extracted>)
    ensures results == BasicExtraction(m, sourceType, today, random)
  {
    if sourceType == "tax_delinquent" {
      results := TaxExtraction(m, today, random);
    } else if sourceType == "probate" {
      results := ProbateExtraction(m, today);
    } else if sourceType == "fsbo" {
      results := FsboExtraction(m, today, random);
    } else {
      results := [];
    }
  }

  method TaxExtraction(m: PatternMatches, today: string, random: nat -> real)
    returns (results: seq<Extracted>)
    ensures |results| == Min(|m.addresses|, 10)
    ensures forall i :: 0 <= i < |results| ==> results[i] == TaxRecord(m, i, today, random)
  {
    results := [];
    for i := 0 to Min(|m.addresses|, 10)
      invariant |results| == i
      invariant forall j :: 0 <= j < i ==> results[j] == TaxRecord(m, j, today, random)
    {
      var amount := if i < |m.amounts| then m.amounts[i] else "$0.00";
      results := results + [TaxHit(m.addresses[i], amount, "Owner " + NatToString(i + 1), today,
        "P" + IntToString(RandomBelow(random(i), 10000)))];
    }
  }

  method ProbateExtraction(m: PatternMatches, today: string) returns (results: seq<Extracted>)
    ensures |results| == Min(|m.cases|, 10)
    ensures forall i :: 0 <= i < |results| ==> results[i] == ProbateRecord(m, i, today)
  {
    results := [];
    for i := 0 to Min(|m.cases|, 10)
      invariant |results| == i
      invariant forall j :: 0 <= j < i ==> results[j] == ProbateRecord(m, j, today)
    {
      var name := if i < |m.names| then m.names[i] else "Deceased " + NatToString(i + 1);
      results := results + [ProbateHit(m.cases[i], name, today,
        "Executor " + NatToString(i + 1))];
    }
  }

  /** Within group `r`, `Math.floor(i / 3)` is `r`, and `i` closes the group iff `i + 1` is a multiple of 3. */
  lemma {:induction false} GroupPosition(r: nat, i: nat)
    requires 3 * r <= i < 3 * r + 3
    ensures i / 3 == r
    ensures (i + 1) % 3 == 0 <==> i + 1 == 3 * r + 3
  {
  }

  /**
   * Where the FSBO loop stands after `i` hits with `count` listings
   * emitted: fewer than three hits are pending, nothing is pending once
   * the last hit is seen, and `currentDesc` holds the pending hits.
   */
  ghost predicate FsboShape(m: PatternMatches, i: nat, count: nat, currentDesc: string) {
    i <= FsboHits(m) && 3 * count <= i + 2 && i <= 3 * count + 2 &&
    (i < |m.descriptions| ==> 3 * count <= i) &&
    (i == |m.descriptions| ==> i <= 3 * count) &&
    currentDesc == Spaced(m.descriptions[Min(3 * count, i)..i])
  }

  /** The invariant of the FSBO loop. */
  ghost predicate FsboProgress(m: PatternMatches, today: string, random: nat -> real, i: nat,
                               results: seq<Extracted>, currentDesc: string)
  {
    FsboShape(m, i, |results|, currentDesc) &&
    results == FsboListings(m, |results|, today, random)
  }

  /** Hit `i` closes its group: it is the third of the group or the very last hit. */
  predicate Closes(m: PatternMatches, i: nat) {
    (i + 1) % 3 == 0 || i == |m.descriptions| - 1
  }

  /** One pass of the FSBO loop body (`FsboVisit`) keeps `FsboProgress`. */
  lemma {:induction false} FsboStep(m: PatternMatches, today: string, random: nat -> real, i: nat,
                 results: seq<Extracted>, currentDesc: string,
                 results': seq<Extracted>, currentDesc': string)
    requires FsboProgress(m, today, random, i, results, currentDesc)
    requires i < FsboHits(m)
    requires Closes(m, i) ==>
      results' == results + [FsboListing(m, i / 3, Trim(currentDesc + m.descriptions[i] + " "),
        today, random)] && currentDesc' == ""
    requires !Closes(m, i) ==>
      results' == results && currentDesc' == currentDesc + m.descriptions[i] + " "
    ensures FsboProgress(m, today, random, i + 1, results', currentDesc')
  {
    var r := |results|;
    ShapeStep(m, i, r, currentDesc);
    if Closes(m, i) {
      ListingStep(m, r, currentDesc + m.descriptions[i] + " ", today, random);
    }
  }

  /** How hit `i` moves the loop's position, with `r` listings emitted. */
  lemma {:induction false} ShapeStep(m: PatternMatches, i: nat, r: nat, currentDesc: string)
    requires FsboShape(m, i, r, currentDesc) && i < FsboHits(m)
    ensures i / 3 == r && 3 * r < FsboHits(m)
    ensures Closes(m, i) ==>
      FsboShape(m, i + 1, r + 1, "") &&
      currentDesc + m.descriptions[i] + " " == Spaced(FsboGroup(m, r))
    ensures !Closes(m, i) ==> FsboShape(m, i + 1, r, currentDesc + m.descriptions[i] + " ")
  {
    var d := m.descriptions;
    GroupPosition(r, i);
    assert Min(3 * r, i) == 3 * r;
    SpacedSnoc(d[3 * r..i], d[i]);
    assert d[3 * r..i + 1] == d[3 * r..i] + [d[i]];
    if Closes(m, i) {
      assert i + 1 == Min(3 * r + 3, FsboHits(m));
      assert d[Min(3 * (r + 1), i + 1)..i + 1] == [];
    }
  }

  /** Emitting the listing of the `r`-th group extends the listings by one. */
  lemma {:induction false} ListingStep(m: PatternMatches, r: nat, next: string, today: string, random: nat -> real)
    requires 3 * r < FsboHits(m) && next == Spaced(FsboGroup(m, r))
    ensures FsboListings(m, r, today, random) + [FsboListing(m, r, Trim(next), today, random)]
      == FsboListings(m, r + 1, today, random)
  {
  }

  /**
   * The FSBO loop: hits are appended to `currentDesc`, which is emitted and
   * reset after every third hit and after the very last hit.
   */
  method FsboExtraction(m: PatternMatches, today: string, random: nat -> real)
    returns (results: seq<Extracted>)
    ensures results == FsboListings(m, (FsboHits(m) + 2) / 3, today, random)
  {
    results := [];
    var currentDesc := "";
    FsboStart(m, today, random);
    for i := 0 to FsboHits(m)
      invariant FsboProgress(m, today, random, i, results, currentDesc)
    {
      results, currentDesc := FsboVisit(m, today, random, i, results, currentDesc);
    }
    FsboDone(m, today, random, results, currentDesc);
  }

  /** Before the first hit the loop has emitted nothing and holds nothing. */
  lemma {:induction false} FsboStart(m: PatternMatches, today: string, random: nat -> real)
    ensures FsboProgress(m, today, random, 0, [], "")
  {
    assert m.descriptions[0..0] == [];
  }

  /** After the last hit the loop has emitted one listing per started group. */
  lemma {:induction false} FsboDone(m: PatternMatches, today: string, random: nat -> real,
                                    results: seq<Extracted>, currentDesc: string)
    requires FsboProgress(m, today, random, FsboHits(m), results, currentDesc)
    ensures results == FsboListings(m, (FsboHits(m) + 2) / 3, today, random)
  {
    GroupCount(|results|, FsboHits(m), |m.descriptions|);
  }

  /** The body of the FSBO loop for hit `i`. */
  method FsboVisit(m: PatternMatches, today: string, random: nat -> real, i: nat,
                   results: seq<Extracted>, currentDesc: string)
    returns (results': seq<Extracted>, currentDesc': string)
    requires i < FsboHits(m) && FsboProgress(m, today, random, i, results, currentDesc)
    ensures FsboProgress(m, today, random, i + 1, results', currentDesc')
    ensures Closes(m, i) ==>
      results' == results + [FsboListing(m, i / 3, Trim(currentDesc + m.descriptions[i] + " "),
        today, random)] && currentDesc' == ""
    ensures !Closes(m, i) ==>
      results' == results && currentDesc' == currentDesc + m.descriptions[i] + " "
  {
    var k := i / 3;
    currentDesc' := currentDesc + m.descriptions[i] + " ";
    results' := results;
    if (i + 1) % 3 == 0 || i == |m.descriptions| - 1 {
      var price := if k < |m.prices| && m.prices[k] != "" then m.prices[k] else "$0";
      var listing := FsboHit(Trim(currentDesc'), price, k + 1, today,
        1000 + RandomBelow(random(k), 9000));
      results' := results' + [listing];
      currentDesc' := "";
    }
    FsboStep(m, today, random, i, results, currentDesc, results', currentDesc');
  }

  /** When the loop ends, one listing was emitted per started group of three. */
  lemma {:induction false} GroupCount(r: nat, limit: nat, n: nat)
    requires limit == Min(n, 30)
    requires 3 * r <= limit + 2 && limit <= 3 * r + 2
    requires limit < n ==> 3 * r <= limit
    requires limit == n ==> limit <= 3 * r
    ensures r == (limit + 2) / 3
  {
  }


  // The AI extractor, reduced to its outcome.

  datatype AiExtraction =
    | AiFailed                                    // the call threw
    | AiEmpty                                     // the reply had no content
    | AiUnparseable                               // the content was not JSON
    | AiParsed(results: Option<seq<Json.Json>>)   // `parsedData.results`, when an array

  /** An extracted element: a value whose text fields are read, or null. */
  datatype Item = Entry(fields: ScrapedRecord) | Null

  /**
   * An element of the reply's `results` array: an object keeps its text
   * fields; any other value other than null has no fields to read.
   */
  function ItemOf(j: Json.Json): (r: Item)
    ensures r.Null? <==> j.JNull?
    ensures j.JObject? ==> forall k :: k in r.fields <==> k in j.fields && j.fields[k].JString?
    ensures j.JObject? ==> forall k :: k in r.fields ==> r.fields[k] == j.fields[k].s
    ensures !j.JObject? && !j.JNull? ==> r == Entry(map[])
  {
    match j
    case JNull => Null
    case JObject(f) => Entry(map k | k in f && f[k].JString? :: f[k].s)
    case _ => Entry(map[])
  }

  /** The records of the regex fallback, as items: none of them is null. */
  function Entries(rs: seq<ScrapedRecord>): (r: seq<Item>)
    ensures |r| == |rs| && forall i :: 0 <= i < |rs| ==> r[i] == Entry(rs[i])
  {
    seq(|rs|, i requires 0 <= i < |rs| => Entry(rs[i]))
  }

  function ItemsOf(js: seq<Json.Json>): (r: seq<Item>)
    ensures |r| == |js| && forall i :: 0 <= i < |js| ==> r[i] == ItemOf(js[i])
  {
    seq(|js|, i requires 0 <= i < |js| => ItemOf(js[i]))
  }

  /**
   * The source types `scrapingTemplates[sourceType]` finds a template for:
   * the three with an AI prompt, and the names the object literal inherits,
   * whose lookup finds a truthy function or object (with no `prompt`, so
   * the AI service is asked with the text "undefined" in the prompt's place).
   */
  predicate HasTemplate(sourceType: string) {
    sourceType in {"tax_delinquent", "probate", "fsbo"} || sourceType in InheritedNames
  }

  /** The page text sent to the AI service: its first 100000 characters. */
  function TruncateForAi(html: string): (r: string)
    ensures |r| == Min(|html|, 100000)
    ensures r == html[..|r|]
  {
    if |html| > 100000 then html[..100000] else html
  }

  /**
   * `extractDataFromHTML`: without a key, without a template for the source
   * type, or when the AI call or its reply fails, the regex fallback; an
   * unparseable reply gives no records. An inherited name such as
   * "toString" finds a template and goes to the AI service.
   */
  function ExtractData(sourceType: string, hasKey: bool, ai: AiExtraction, m: PatternMatches,
                       today: string, random: nat -> real): (r: seq<Item>)
    ensures !hasKey ==> r == Entries(AsRecords(BasicExtraction(m, sourceType, today, random)))
    ensures !HasTemplate(sourceType) ==> r == Entries(AsRecords(BasicExtraction(m, sourceType, today, random)))
    ensures hasKey && sourceType in InheritedNames && ai.AiParsed? && ai.results.Some? ==> r == ItemsOf(ai.results.value)
    ensures hasKey && HasTemplate(sourceType) && ai.AiUnparseable? ==> r == []
    ensures (exists i :: 0 <= i < |r| && r[i].Null?) ==>
      hasKey && HasTemplate(sourceType) && ai.AiParsed? && ai.results.Some? &&
      exists i :: 0 <= i < |ai.results.value| && ai.results.value[i].JNull?
  {
    if !hasKey || !HasTemplate(sourceType) || ai.AiFailed? || ai.AiEmpty? then
      Entries(AsRecords(BasicExtraction(m, sourceType, today, random)))
    else if ai.AiUnparseable? then []
    else if ai.results.Some? then ItemsOf(ai.results.value)
    else []
  }

  method ExtractDataFromHtml(sourceType: string, hasKey: bool, ai: AiExtraction,
                             m: PatternMatches, today: string, random: nat -> real)
    returns (results: seq<Item>)
    ensures results == ExtractData(sourceType, hasKey, ai, m, today, random)
  {
    if !hasKey {
      var basic := BasicDataExtraction(m, sourceType, today, random);
      return Entries(AsRecords(basic));
    }
    if !HasTemplate(sourceType) || ai.AiFailed? || ai.AiEmpty? {
      var basic := BasicDataExtraction(m, sourceType, today, random);
      return Entries(AsRecords(basic));
    }
    match ai
    case AiUnparseable => results := [];
    case AiParsed(parsed) => results := if parsed.Some? then ItemsOf(parsed.value) else [];
  }

  // Normalisation.

  /** One processed result; `id` is the uuid drawn for it. */
  function ProcessResult(result: ScrapedRecord, source: string, id: string): (r: ScrapedRecord)
    ensures "source" in r && r["source"] == source
    ensures source in {"tax_delinquent", "probate", "fsbo"} ==> "id" in r && r["id"] == id
    ensures source in {"probate", "fsbo"} ==>
      "address" in r && r["address"] == OrElse(Field(result, "property_address"), "Unknown")
    ensures source !in {"tax_delinquent", "probate", "fsbo"} ==>
      r == (map["id" := id] + result)["source" := source]
  {
    if source == "tax_delinquent" then
      var r := map["id" := id];
      var r := Put(r, "name", Field(result, "owner_name"));
      var r := Put(r, "address", Field(result, "property_address"));
      var r := Put(r, "amount", Field(result, "amount_owed"));
      var r := Put(r, "date", Field(result, "due_date"));
      r["notes" := "Parcel ID: " + Shown(Field(result, "parcel_id"))]["source" := "tax_delinquent"]
    else if source == "probate" then
      var r := map["id" := id];
      var r := Put(r, "name", Field(result, "deceased_name"));
      var r := r["address" := OrElse(Field(result, "property_address"), "Unknown")];
      var r := Put(r, "date", Field(result, "filing_date"));
      r["notes" := "Case: " + Shown(Field(result, "case_number")) + ", Executor: " +
        Shown(Field(result, "executor_name"))]["source" := "probate"]
    else if source == "fsbo" then
      var r := map["id" := id];
      var r := Put(r, "name", Field(result, "seller_name"));
      var r := r["address" := OrElse(Field(result, "property_address"), "Unknown")];
      var r := Put(r, "amount", Field(result, "asking_price"));
      var r := Put(r, "date", Field(result, "listing_date"));
      var r := Put(r, "contact", Field(result, "contact_info"));
      var r := Put(r, "description", Field(result, "description"));
      r["source" := "fsbo"]
    else
      (map["id" := id] + result)["source" := source]
  }

  /** The sources whose mapping reads fields off each result. */
  predicate ReadsFields(source: string) {
    source in {"tax_delinquent", "probate", "fsbo"}
  }

  /** The first field each such mapping reads. */
  function FirstRead(source: string): string {
    if source == "tax_delinquent" then "owner_name"
    else if source == "probate" then "deceased_name"
    else "seller_name"
  }

  /** The error reading a property of null throws. */
  function NullRead(key: string): string {
    "Cannot read properties of null (reading '" + key + "')"
  }

  /** `...result` of a null spreads nothing. */
  function Spread(item: Item): ScrapedRecord {
    if item.Entry? then item.fields else map[]
  }

  /** `results.map(...)` from index `i` on: the first null from `i` on throws. */
  function ProcessFrom(results: seq<Item>, source: string, uuid: nat -> string, i: nat)
    : Result<seq<ScrapedRecord>>
    requires i <= |results|
    decreases |results| - i
  {
    if i == |results| then Ok([])
    else if results[i].Null? && ReadsFields(source) then Err(NullRead(FirstRead(source)))
    else
      match ProcessFrom(results, source, uuid, i + 1)
      case Err(e) => Err(e)
      case Ok(rest) => Ok([ProcessResult(Spread(results[i]), source, uuid(i))] + rest)
  }

  /** `ProcessFrom` throws exactly on a null from `i` on, for a source whose mapping reads fields. */
  lemma {:induction false} ProcessFromFails(results: seq<Item>, source: string, uuid: nat -> string, i: nat)
    requires i <= |results|
    ensures var r := ProcessFrom(results, source, uuid, i);
      (r.Err? <==> ReadsFields(source) && exists j :: i <= j < |results| && results[j].Null?) &&
      (r.Err? ==> r.error == NullRead(FirstRead(source)))
    decreases |results| - i
  {
    if i < |results| {
      ProcessFromFails(results, source, uuid, i + 1);
    }
  }

  /** Without a throw, `ProcessFrom` maps every result from `i` on, in order. */
  lemma {:induction false} ProcessFromValues(results: seq<Item>, source: string, uuid: nat -> string, i: nat)
    requires i <= |results|
    ensures var r := ProcessFrom(results, source, uuid, i);
      r.Ok? ==> (|r.value| == |results| - i &&
                 forall j :: i <= j < |results| ==>
                   r.value[j - i] == ProcessResult(Spread(results[j]), source, uuid(j)))
    decreases |results| - i
  {
    if i < |results| {
      ProcessFromValues(results, source, uuid, i + 1);
      var rest := ProcessFrom(results, source, uuid, i + 1);
      if !(results[i].Null? && ReadsFields(source)) && rest.Ok? {
        var head := ProcessResult(Spread(results[i]), source, uuid(i));
        assert ProcessFrom(results, source, uuid, i) == Ok([head] + rest.value);
        forall j | i < j < |results|
          ensures ([head] + rest.value)[j - i] == ProcessResult(Spread(results[j]), source, uuid(j))
        {
          assert ([head] + rest.value)[j - i] == rest.value[j - (i + 1)];
        }
      }
    }
  }

  /**
   * `processScrapingResults`: one output per result, in order, each tagged
   * with the job's source; `uuid(i)` is the id drawn for result `i`. For
   * the three known sources a null result throws, since its fields are read.
   */
  function ProcessScrapingResults(results: seq<Item>, job: ScrapingJob,
                                  uuid: nat -> string): (r: Result<seq<ScrapedRecord>>)
    ensures r.Err? <==> ReadsFields(job.source) && exists i :: 0 <= i < |results| && results[i].Null?
    ensures r.Err? ==> r.error == NullRead(FirstRead(job.source))
    ensures r.Ok? ==> |r.value| == |results|
    ensures r.Ok? ==>
      forall i :: 0 <= i < |results| ==> r.value[i] == ProcessResult(Spread(results[i]), job.source, uuid(i))
  {
    ProcessFromFails(results, job.source, uuid, 0);
    ProcessFromValues(results, job.source, uuid, 0);
    var r := ProcessFrom(results, job.source, uuid, 0);
    assert r.Ok? ==> forall i :: 0 <= i < |results| ==>
      r.value[i] == ProcessResult(Spread(results[i]), job.source, uuid(i)) by {
      if r.Ok? {
        forall i | 0 <= i < |results|
          ensures r.value[i] == ProcessResult(Spread(results[i]), job.source, uuid(i))
        {
          assert r.value[i - 0] == ProcessResult(Spread(results[i]), job.source, uuid(i));
        }
      }
    }
    r
  }

  /** Every processed result carries the job's source, and a default address where one applies. */
  lemma {:induction false} ProcessedSources(results: seq<Item>, job: ScrapingJob, uuid: nat -> string)
    requires ProcessScrapingResults(results, job, uuid).Ok?
    ensures forall r :: r in ProcessScrapingResults(results, job, uuid).value ==>
      "source" in r && r["source"] == job.source
    ensures job.source in {"probate", "fsbo"} ==>
      forall r :: r in ProcessScrapingResults(results, job, uuid).value ==>
        "address" in r && r["address"] != ""
  {
    var out := ProcessScrapingResults(results, job, uuid).value;
    forall r | r in out
      ensures "source" in r && r["source"] == job.source
      ensures job.source in {"probate", "fsbo"} ==> "address" in r && r["address"] != ""
    {
      var i :| 0 <= i < |out| && out[i] == r;
      var _ := ProcessResult(Spread(results[i]), job.source, uuid(i));
    }
  }

  // Running a job.

  /** `job.url || ''`. */
  function JobUrl(job: ScrapingJob): string {
    if job.url.Some? then job.url.value else ""
  }

  function StatusPatch(status: string): Storage.ScrapingJobPatch {
    Storage.NoJobChange.(status := Some(Some(status)))
  }

  /** The environment of one run: every outcome the service cannot decide itself. */
  datatype RunEnvironment = RunEnvironment(
    now: Timestamp, today: string, api: ApiOutcome, direct: Transfer,
    regex: Page -> PatternMatches, hasKey: bool, ai: AiExtraction,
    random: nat -> real, uuid: nat -> string)

  /** The records a run stores for `job`, once the page is known. */
  function RunResults(job: ScrapingJob, page: Page, env: RunEnvironment): Result<seq<ScrapedRecord>> {
    ProcessScrapingResults(
      ExtractData(job.source, env.hasKey, env.ai, env.regex(page), env.today, env.random),
      job, env.uuid)
  }

  /**
   * `runScrapingJob`: a missing job is an error that changes nothing;
   * otherwise the job is marked running (with its run time) before the
   * fetch, and ends completed with its results or, when the fetch or the
   * processing fails, failed, with the error passed on.
   */
  method RunScrapingJob(store: Storage.MemStorage, jobId: int, env: RunEnvironment)
    returns (r: Result<seq<ScrapedRecord>>)
    requires store.Valid()
    modifies store`scrapingJobs
    ensures store.Valid()
    ensures jobId !in old(store.scrapingJobs) ==>
      r.Err? && store.scrapingJobs == old(store.scrapingJobs)
    ensures jobId in old(store.scrapingJobs) ==>
      var job := old(store.scrapingJobs)[jobId];
      var running := job.(status := Some("running"), lastRun := Some(env.now));
      if JobUrl(job) == "" then
        r.Err? && store.scrapingJobs == old(store.scrapingJobs)[jobId := running.(status := Some("failed"))]
      else
        var page := FetchWebsiteContent(JobUrl(job), env.api, env.direct).value;
        r == RunResults(job, page, env) &&
        store.scrapingJobs == old(store.scrapingJobs)[jobId :=
          if r.Err? then running.(status := Some("failed"))
          else running.(status := Some("completed"), results := Some(r.value))]
  {
    var found := store.GetScrapingJob(jobId);
    if found.None? {
      var _ := store.UpdateScrapingJob(jobId, StatusPatch("failed"));
      return Err("Scraping job not found");
    }
    var job := found.value;
    ghost var jobs0 := store.scrapingJobs;
    ghost var running := job.(status := Some("running"), lastRun := Some(env.now));
    Patched(job, "running", Some(Some(env.now)), None);
    var _ := store.UpdateScrapingJob(jobId,
      StatusPatch("running").(lastRun := Some(Some(env.now))));
    assert store.scrapingJobs == jobs0[jobId := running];
    var fetched := FetchWebsiteContent(JobUrl(job), env.api, env.direct);
    if fetched.Err? {
      Patched(running, "failed", None, None);
      var _ := store.UpdateScrapingJob(jobId, StatusPatch("failed"));
      Overwritten(jobs0, jobId, running, running.(status := Some("failed")));
      return Err(fetched.error);
    }
    var results := ExtractDataFromHtml(job.source, env.hasKey, env.ai, env.regex(fetched.value),
      env.today, env.random);
    var processed := ProcessScrapingResults(results, job, env.uuid);
    if processed.Err? {
      Patched(running, "failed", None, None);
      var _ := store.UpdateScrapingJob(jobId, StatusPatch("failed"));
      Overwritten(jobs0, jobId, running, running.(status := Some("failed")));
      return Err(processed.error);
    }
    Patched(running, "completed", None, Some(Some(processed.value)));
    var _ := store.UpdateScrapingJob(jobId,
      StatusPatch("completed").(results := Some(Some(processed.value))));
    Overwritten(jobs0, jobId, running, running.(status := Some("completed"), results := Some(processed.value)));
    r := processed;
  }

  /** A status patch, with or without a run time or results, sets just those fields. */
  lemma {:induction false} Patched(job: ScrapingJob, status: string, lastRun: Option<Option<Timestamp>>,
                                   results: Option<Option<seq<ScrapedRecord>>>)
    ensures var p := StatusPatch(status).(lastRun := lastRun, results := results);
      Storage.PatchScrapingJob(job, p) == job.(status := Some(status),
        lastRun := if lastRun.Some? then lastRun.value else job.lastRun,
        results := if results.Some? then results.value else job.results)
  {
  }

  /** The second update of a key wins. */
  lemma {:induction false} Overwritten<K, V>(m: map<K, V>, k: K, a: V, b: V)
    ensures m[k := a][k := b] == m[k := b]
  {
  }

  // Results to leads.

  /** `r.id === resultId` as the callback of `find`. */
  function HasId(resultId: string): ScrapedRecord -> bool {
    r => "id" in r && r["id"] == resultId
  }

  /**
   * The lead `createLeadFromScrapingResult` builds from a result of a job
   * with source `source`. A result without a name gives the empty name.
   */
  function LeadFromResult(source: string, result: ScrapedRecord, userId: int): (x: InsertLead)
    ensures x.status == "new" && x.source == source && x.userId == userId
    ensures x.address == Field(result, "address")
    ensures source == "tax_delinquent" && OrElse(Field(result, "amount"), "") != "" ==>
      x.amountOwed == Field(result, "amount")
    ensures source == "fsbo" && OrElse(Field(result, "contact"), "") != "" ==>
      if '@' in result["contact"] then x.email == Some(result["contact"]) && x.phone.None?
      else x.phone == Some(result["contact"]) && x.email.None?
    ensures source != "fsbo" ==> x.email.None? && x.phone.None?
  {
    var base := InsertLead(OrElse(Field(result, "name"), ""), Field(result, "address"), None,
      None, None, None, None, source, None, "new", None, None, userId);
    if source == "tax_delinquent" && OrElse(Field(result, "amount"), "") != "" then
      base.(amountOwed := Field(result, "amount"),
        notes := Some("Tax delinquent property. " + OrElse(Field(result, "notes"), "")))
    else if source == "probate" then
      base.(notes := Some("Probate case. " + OrElse(Field(result, "notes"), "")))
    else if source == "fsbo" then
      var withNotes := base.(notes := Some("For Sale By Owner listing. " +
        OrElse(Field(result, "description"), "")));
      var contact := OrElse(Field(result, "contact"), "");
      if contact == "" then withNotes
      else if '@' in contact then withNotes.(email := Some(contact))
      else withNotes.(phone := Some(contact))
    else base
  }

  /**
   * `createLeadFromScrapingResult`: fails for a missing job, a job without
   * results, or an id no result has; otherwise stores the lead built from
   * the first result with that id.
   */
  method CreateLeadFromScrapingResult(store: Storage.MemStorage, resultId: string, jobId: int,
                                      userId: int, now: Timestamp)
    returns (r: Result<Lead>)
    requires store.Valid()
    modifies store`leads, store`leadIdCounter
    ensures store.Valid()
    ensures r.Err? ==> store.leads == old(store.leads) && store.leadIdCounter == old(store.leadIdCounter)
    ensures r.Err? <==>
      jobId !in store.scrapingJobs || store.scrapingJobs[jobId].results.None? ||
      FindFirst(store.scrapingJobs[jobId].results.value, HasId(resultId)).None?
    ensures r.Ok? ==>
      var job := store.scrapingJobs[jobId];
      var result := FindFirst(job.results.value, HasId(resultId)).value;
      r.value == Storage.NewLead(old(store.leadIdCounter), LeadFromResult(job.source, result, userId), now) &&
      store.leads == old(store.leads)[r.value.id := r.value] &&
      store.leadIdCounter == old(store.leadIdCounter) + 1
  {
    var job := store.GetScrapingJob(jobId);
    if job.None? || job.value.results.None? {
      return Err("Scraping job not found or has no results");
    }
    var source := job.value.source;
    var found := FindFirst(job.value.results.value, HasId(resultId));
    if found.None? {
      return Err("Result not found in job");
    }
    var result := found.value;
    var leadData := InsertLead(OrElse(Field(result, "name"), ""), Field(result, "address"), None,
      None, None, None, None, source, None, "new", None, None, userId);
    if source == "tax_delinquent" && OrElse(Field(result, "amount"), "") != "" {
      leadData := leadData.(amountOwed := Field(result, "amount"));
      leadData := leadData.(notes := Some("Tax delinquent property. " + OrElse(Field(result, "notes"), "")));
    } else if source == "probate" {
      leadData := leadData.(notes := Some("Probate case. " + OrElse(Field(result, "notes"), "")));
    } else if source == "fsbo" {
      leadData := leadData.(notes := Some("For Sale By Owner listing. " +
        OrElse(Field(result, "description"), "")));
      var contact := OrElse(Field(result, "contact"), "");
      if contact != "" {
        if '@' in contact {
          leadData := leadData.(email := Some(contact));
        } else {
          leadData := leadData.(phone := Some(contact));
        }
      }
    }
    var lead := store.CreateLead(leadData, now);
    r := Ok(lead);
  }
}
