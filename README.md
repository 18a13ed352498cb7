# RezGuruAI core in Dafny

RezGuruAI is a lead platform for real-estate investors. It keeps users, leads, workflows, documents and scraping jobs in a store. It scores leads by motivation and scrapes public listings into new leads. It fills document templates from lead data, and it runs outreach workflows over leads. Its client pages filter, sort, page and export these records. Two Python scripts look after the repository: a tester writes an issue tracker in markdown, and a repair script reads that tracker back, marks issues fixed and writes it out again.

This project models the deterministic logic of that system and proves properties of it:

- `storage.dfy` covers the in-memory store `MemStorage` (RezGuruAI/server/storage.ts). It is a class with five id-keyed maps and five counters, and its create, get, update, delete and listing methods are framed. Module `StorageSamples` holds the seeded sample rows.
- `schema.dfy` covers the insert validators of shared/schema.ts: required fields, minimum lengths, nullable fields and defaults.
- `lead_scoring.dfy` covers the rule-based lead score, the clamp of an AI score and the update that writes a score onto a lead (server/services/leadScoringService.ts).
- `scraping.dfy` covers the scraping service (RezGuruAI/server/services/scrapingService.ts): the fetch fallback chain, the regex fallback extractor over given match lists, per-source normalisation, the sample content chosen by URL keyword, the job status protocol and the conversion of a result into a lead.
- `document_generation.dfy` covers the server's templates, the keyless `{{placeholder}}` filling, the AI fallback and `generateDocument` (server/services/documentGenerationService.ts).
- `document_generator.dfy` covers the client wizard: placeholder discovery, input fields, labels, widgets and the three-step state machine (RezGuruAI/client/src/components/documents/DocumentGenerator.tsx).
- `workflow_runner.dfy` covers the `/workflows/:id/run` handler of RezGuruAI/server/routes.ts. It is a loop over the workflow's actions that updates a results record. Module `WorkflowTexts` holds its message texts.
- `issue_tracker.dfy`, `tracker_file.dfy` and `app_tester.dfy` cover the issue tracker scripts fix_scripts/implement_fixes.py and fix_scripts/test_app.py. They model the id registry, the row writer and reader with their round trip, the root-cause merge, the category fixers and the statistics. They also model the part of the tracker regular expression that locates the issues table and the root-cause table.
- `document_list.dfy`, `lead_views.dfy`, `report_generator.dfy`, `schedule_editor.dfy`, `chat.dfy`, `settings.dfy`, `help.dfy` and `dashboard.dfy` cover the client's list and state helpers.
  - DocumentList: the type filter, the paging and Prev/Next clamps. The members cite RezGuruAI/client/src/components/documents/DocumentList.tsx. The copy under client/src/ has the same filter, page count, slice, range text and clamps, so the same members model it; only its page-button row differs (`DocumentList.AllPageButtons`).
  - Leads and LeadKanban: filter, sort, grouping and columns.
  - Report builder, schedule editor and settings form: the form state classes.
  - Chat: reply routing, the retry lookup and the stale send behind quick replies and Retry.
  - Help: the question filter.
  - Dashboard: section toggles and the CSV export.
- `core.dfy`, `text.dfy`, `json.dfy` and `csv.dfy` hold shared vocabulary. This covers options and results, sequence and string helpers, JavaScript truthiness and string conversion of JSON values, and a CSV writer and reader.

Code that changes state step by step is modelled as classes and methods with loop invariants. Pure code is modelled as functions with lemmas.

The network, clocks, `uuid`, `Math.random` and AI services are parameters of the model. Each one is given either as an outcome (success or failure, say) or as the value it would produce.

## Model

| member | source | states |
|---|---|---|
| Storage.TextOrNull | RezGuruAI/server/storage.ts:360-365 | `x \|\| null` on optional text: absent and empty text become null, anything else is kept unchanged |
| Storage.NewUser | RezGuruAI/server/storage.ts:321-334 | a created user carries the counter id, the given username and password, the name and plan `\|\| null`, and `now` as both timestamps |
| Storage.NewLead | RezGuruAI/server/storage.ts:354-375 | a created lead carries the counter id, name, source and owner as given, every optional text field and the score `\|\| null`, and `now` as both timestamps |
| Storage.NewWorkflow | RezGuruAI/server/storage.ts:407-420 | a created workflow carries the counter id, name, trigger and actions as given, description, active flag and owner `\|\| null`, has never run, and was created `now` |
| Storage.NewDocument | RezGuruAI/server/storage.ts:454-467 | a created document carries the counter id, name and type as given, content, url, status, lead and owner `\|\| null`, and was created `now` |
| Storage.NewScrapingJob | RezGuruAI/server/storage.ts:495-510 | a created job carries the counter id, name and source as given, url, status, owner, notes and schedule `\|\| null`, empty results and no last run |
| Storage.PatchLeadLaws | RezGuruAI/server/storage.ts:379-390 | overlaying the same update twice is overlaying it once, the empty update leaves a lead unchanged, and fields the update does not give keep their stored value |
| Storage.InKeyOrder | RezGuruAI/server/storage.ts:342-346 | `Array.from(map.values())` over ids handed out in increasing order: only stored rows, and every stored row in the id range |
| Storage.FindFirstInKeyOrder | RezGuruAI/server/storage.ts:315-319 | `find` over that listing returns a stored row of the id range that matches, and no stored row with a smaller id matches |
| Storage.MemStorage.constructor | RezGuruAI/server/storage.ts:68-95 | all five counters start at 1; the demo user sits at key 1 with the user counter left at 1; the sample leads, workflows, documents and jobs get ids 1, 2, … in order, each built as its `create` method builds it |
| Storage.MemStorage.SeedLeads | RezGuruAI/server/storage.ts:203 | creating the sample leads one by one into the empty table leaves exactly keys 1..n, key k holding the k-th sample as `createLead` builds it |
| Storage.MemStorage.SeedWorkflows | RezGuruAI/server/storage.ts:246 | the same for the sample workflows and `createWorkflow` |
| Storage.MemStorage.SeedDocuments | RezGuruAI/server/storage.ts:280 | the same for the sample documents and `createDocument` |
| Storage.MemStorage.SeedScrapingJobs | RezGuruAI/server/storage.ts:307 | the same for the sample jobs and `createScrapingJob` |
| Storage.MemStorage.GetUser | RezGuruAI/server/storage.ts:311-313 | finds the user exactly when the id is a key, and returns the stored row |
| Storage.MemStorage.AllUsers | RezGuruAI/server/storage.ts:316 | the listing of the user map holds exactly the stored users |
| Storage.MemStorage.GetUserByUsername | RezGuruAI/server/storage.ts:315-319 | a found user is stored and has that username, and no stored user with a smaller id has it (the first match of the listing in insertion order); none is found only when no stored user has it |
| Storage.MemStorage.CreateUser | RezGuruAI/server/storage.ts:321-336 | the new user takes the current counter as id, the counter goes up by one, the user is stored (and found) under that id, nothing else changes |
| Storage.MemStorage.GetLead | RezGuruAI/server/storage.ts:338-340 | finds the lead exactly when the id is a key, and returns the stored row |
| Storage.MemStorage.GetLeads | RezGuruAI/server/storage.ts:342-346 | every listed lead is stored and owned by the user, and every stored lead of the user is listed |
| Storage.MemStorage.GetLeadsByStatus | RezGuruAI/server/storage.ts:348-352 | every listed lead is stored, owned by the user and has that status |
| Storage.MemStorage.LeadsByStatusNarrowsLeads | RezGuruAI/server/storage.ts:342-352 | the status listing is the user's listing narrowed to the status, in the same order |
| Storage.MemStorage.CreateLead | RezGuruAI/server/storage.ts:354-377 | the new lead takes the counter as id, above every stored id; the counter goes up by one; the table gains exactly that row |
| Storage.MemStorage.UpdateLead | RezGuruAI/server/storage.ts:379-390 | an unknown id changes nothing and returns nothing; a known id stores and returns the stored lead with the update overlaid and `updatedAt` set to `now` |
| Storage.MemStorage.DeleteLead | RezGuruAI/server/storage.ts:392-394 | reports whether the id was a key; afterwards the lead is gone and every other row stays |
| Storage.MemStorage.GetWorkflow | RezGuruAI/server/storage.ts:397-399 | finds the workflow exactly when the id is a key |
| Storage.MemStorage.GetWorkflows | RezGuruAI/server/storage.ts:401-405 | listed workflows are stored and owned by the user, and all of the user's are listed |
| Storage.MemStorage.CreateWorkflow | RezGuruAI/server/storage.ts:407-422 | the new workflow takes the counter as id, above every stored id; the counter goes up by one; the table gains exactly that row |
| Storage.MemStorage.UpdateWorkflow | RezGuruAI/server/storage.ts:424-431 | an unknown id changes nothing; a known id stores and returns the workflow with the update overlaid |
| Storage.MemStorage.DeleteWorkflow | RezGuruAI/server/storage.ts:433-435 | reports whether the id was a key; afterwards only that workflow is gone |
| Storage.MemStorage.GetDocument | RezGuruAI/server/storage.ts:438-440 | finds the document exactly when the id is a key |
| Storage.MemStorage.GetDocuments | RezGuruAI/server/storage.ts:442-446 | listed documents are stored and owned by the user, and all of the user's are listed |
| Storage.MemStorage.GetDocumentsByLead | RezGuruAI/server/storage.ts:448-452 | listed documents are stored and attached to the lead, and all documents of the lead are listed |
| Storage.MemStorage.CreateDocument | RezGuruAI/server/storage.ts:454-469 | the new document takes the counter as id, above every stored id; the counter goes up by one; the table gains exactly that row |
| Storage.MemStorage.UpdateDocument | RezGuruAI/server/storage.ts:471-478 | an unknown id changes nothing; a known id stores and returns the document with the update overlaid |
| Storage.MemStorage.DeleteDocument | RezGuruAI/server/storage.ts:480-482 | reports whether the id was a key; afterwards only that document is gone |
| Storage.MemStorage.GetScrapingJob | RezGuruAI/server/storage.ts:485-487 | finds the job exactly when the id is a key |
| Storage.MemStorage.GetScrapingJobs | RezGuruAI/server/storage.ts:489-493 | listed jobs are stored and owned by the user, and all of the user's are listed |
| Storage.MemStorage.CreateScrapingJob | RezGuruAI/server/storage.ts:495-512 | the new job takes the counter as id, above every stored id; the counter goes up by one; the table gains exactly that row |
| Storage.MemStorage.UpdateScrapingJob | RezGuruAI/server/storage.ts:514-521 | an unknown id changes nothing; a known id stores and returns the job with the update overlaid |
| Storage.MemStorage.DeleteScrapingJob | RezGuruAI/server/storage.ts:523-525 | reports whether the id was a key; afterwards only that job is gone |
| StorageSamples.FirstSignUpReplacesDemo | RezGuruAI/server/storage.ts:75-91 | on a freshly seeded store the first sign-up gets id 1, and afterwards the demo user can no longer be found by its username |
| Schema.ValidateUser | shared/schema.ts:140-145 | a body parses exactly when it is an object meeting the user shape; a parsed user has the body's username (at least 3 characters) and password (at least 6), the body's full name exactly when it sends one as text, and the body's plan, or "free" when it sends none |
| Schema.ValidateLead | shared/schema.ts:147-158 | a body parses exactly when it is an object meeting the lead shape; a parsed lead has the body's non-empty name and source and its numeric owner; each nullable field holds the body's value exactly when the body sends one of its type, and is null otherwise; a missing status defaults to "new" |
| Schema.LeadIgnoresOmittedKeys | shared/schema.ts:43-47 | the keys the insert shape omits (id, createdAt, updatedAt) are stripped: a body with or without them parses alike and to the same lead |
| Schema.ValidateWorkflow | shared/schema.ts:160-167 | a body parses exactly when it is an object meeting the workflow shape; the parsed workflow has the body's name, trigger, owner and actions array, the body's description exactly when it sends one as text, and the body's active flag, or true when it sends none |
| Schema.ValidateDocument | shared/schema.ts:169-177 | a body parses exactly when it is an object meeting the document shape; a parsed document has the body's non-empty name and type and its owner; content, url and lead id hold the body's values exactly when it sends them with their types; the status is the body's, or "draft" when it sends none |
| Schema.ValidateScrapingJob | shared/schema.ts:179-185 | a body parses exactly when it is an object meeting the job shape; a parsed job has the body's non-empty name and source and its owner, the body's url exactly when it sends one as text, and the body's status, or "pending" when it sends none |
| Schema.ScrapingJobIgnoresOmittedKeys | shared/schema.ts:99-104 | the keys the job insert shape omits (id, results, lastRun, createdAt) do not change the parse result |
| LeadScoring.ScoringCriteriaWellFormed | server/services/leadScoringService.ts:15-38 | the shipped criteria have every source priority at most 9, no keyword spelled "financial distress", and no motivating source name of that phrase's length |
| LeadScoring.SourcePriority | server/services/leadScoringService.ts:152 | an own non-zero priority is used as is, an own zero or an unknown source gives 1, and a source that is not an own key but names an `Object.prototype` member ("constructor", "toString", …) reads that inherited member; a numeric priority is at least 1, and at most 9 under well-formed criteria |
| LeadScoring.KeywordBonus | server/services/leadScoringService.ts:176 | the keyword bonus is 5 points per match up to four matches and never more than 20 |
| LeadScoring.MatchedKeywordsExact | server/services/leadScoringService.ts:160-173 | a keyword is matched exactly when it is in the list and the lower-cased notes contain it lower-cased; no more matches than keywords |
| LeadScoring.NoNotesNoMatches | server/services/leadScoringService.ts:160-161 | absent or empty notes match no keyword, so the raw score is 50, plus five times the source priority, plus 10 for distress |
| LeadScoring.CalculateRuleBasedScore | server/services/leadScoringService.ts:143-199 | the running score and motivator list equal the reference definitions: the clamped raw score, source motivator then new keywords then "financial distress", and the analysis text naming score, source and match count |
| LeadScoring.CheckAmountOwed | server/services/leadScoringService.ts:178-189 | exactly when the first digit run of the amount owed exceeds 1000 the score gains 10 and "financial distress" is appended; otherwise nothing changes |
| LeadScoring.MatchKeywords | server/services/leadScoringService.ts:159-173 | the keyword loop counts exactly the mentioned keywords and appends each one not already listed, in keyword order |
| LeadScoring.CountMatch | server/services/leadScoringService.ts:165-171 | one keyword the notes contain adds one match and is listed if new; one they do not contain changes nothing |
| LeadScoring.RuleScoreBounds | server/services/leadScoringService.ts:148-192 | the score is NaN exactly when the source names an inherited member; otherwise the raw score lies in [55, 125], the lower clamp never fires, and the returned score lies in [55, 100] and equals the raw score when that is at most 100 |
| LeadScoring.ConstructorSourceIsNaN | server/services/leadScoringService.ts:152-196 | a lead from source "constructor" scores NaN, its analysis reads "NaN" as the score, and its source is no motivator |
| LeadScoring.InheritedSourceIsNaN | server/services/leadScoringService.ts:152-196 | for any criteria, a source that is an inherited name and no own key gives a NaN score, rendered "NaN", and no source motivator |
| LeadScoring.FallbackScoreBounds | server/services/leadScoringService.ts:191-192 | with the shipped criteria the rule-based score is NaN exactly for an inherited source name and otherwise lies in [1, 100] |
| LeadScoring.RuleBasedFallback | server/services/leadScoringService.ts:143-199 | the fallback with the shipped criteria gives the rule-based score, motivators and analysis; its score is NaN exactly for an inherited source name and otherwise lies in [1, 100] |
| LeadScoring.ParsedResult | server/services/leadScoringService.ts:113-124 | a parsed reply's numeric score is rounded and clamped to [1, 100] and any other score is 50; its analysis is kept when non-empty, else "No analysis provided"; its motivators are kept when given, else none |
| LeadScoring.KeywordMotivators | server/services/leadScoringService.ts:155-172 | a mentioned keyword is always a motivator, and a keyword motivator is mentioned in the notes or names the source |
| LeadScoring.MotivatorsDistinct | server/services/leadScoringService.ts:149-187 | no motivator is listed twice |
| LeadScoring.SourceMotivatorsNotDistress | server/services/leadScoringService.ts:155-157 | a source motivator is never "financial distress", so that phrase is added at most once |
| LeadScoring.CommaAmountNotDistress | server/services/leadScoringService.ts:181-188 | an amount written "$4,200" reads as 4 and therefore does not count as distress |
| LeadScoring.ScoreLeadWithAi | server/services/leadScoringService.ts:45-136 | a numeric score always lies in [1, 100], and the score is NaN exactly when the rule-based fallback runs for an inherited source name; a missing key, failed call, empty or unparseable reply gives the rule-based score, motivators and analysis; a parsed reply's numeric score is rounded and clamped and a non-numeric one gives 50; its analysis is used when non-empty, else "No analysis provided"; its motivators are used when given, else none |
| LeadScoring.StoredScore | server/services/leadScoringService.ts:215 | a score is stored as that number, and NaN as no score |
| LeadScoring.UpdateLeadMotivationScore | server/services/leadScoringService.ts:206-220 | the lead gets the new score (no score for NaN), the analysis appended after a blank line to existing notes (or as the notes when there are none), and no other field changes |
| LeadScoring.UpdateIsScorePatch | server/services/leadScoringService.ts:206-220 | that update equals the storage patch of exactly the score and notes fields |
| Scraping.SampleKindFor | RezGuruAI/server/services/scrapingService.ts:198-253 | the sample page is the tax page exactly when the lower-cased URL contains "tax" or "delinquent", the probate page exactly when it contains neither but "probate", and the FSBO page otherwise |
| Scraping.FetchWebsiteContent | RezGuruAI/server/services/scrapingService.ts:119-193 | the fetch fails exactly for an empty URL; otherwise a successful API reply is used even when its text is empty, else a delivered direct fetch, else the sample page for the URL |
| Scraping.FsboListingAt | RezGuruAI/server/services/scrapingService.ts:371-386 | FSBO listing k is built from group k of the hits, priced `prices[k]` or "$0", sold by seller k+1 |
| Scraping.BasicExtraction | RezGuruAI/server/services/scrapingService.ts:321-390 | the regex fallback yields min(#addresses, 10) tax records, min(#cases, 10) probate records, one FSBO listing per started group of three among the first 30 hits (ceil(min(n,30)/3)), and none for any other source |
| Scraping.BasicDataExtraction | RezGuruAI/server/services/scrapingService.ts:321-390 | the imperative extractor returns exactly the records of the reference extraction for every source type |
| Scraping.TaxExtraction | RezGuruAI/server/services/scrapingService.ts:325-343 | the tax loop yields min(#addresses, 10) records, record i pairing address i with amount i or "$0.00" once amounts run out |
| Scraping.ProbateExtraction | RezGuruAI/server/services/scrapingService.ts:344-361 | the probate loop yields min(#cases, 10) records, record i using deceased name i or "Deceased i+1" |
| Scraping.FsboExtraction | RezGuruAI/server/services/scrapingService.ts:362-386 | the FSBO loop, accumulating hits and emitting after every third and after the very last, yields exactly the reference FSBO listings |
| Scraping.FsboVisit | RezGuruAI/server/services/scrapingService.ts:373-385 | one pass of the FSBO loop appends the hit and, exactly when the hit closes its group, emits the trimmed listing and resets the pending text |
| Scraping.TruncateForAi | RezGuruAI/server/services/scrapingService.ts:277 | the text sent to the AI service is the prefix of the page of length min(n, 100000) |
| Scraping.ItemOf | RezGuruAI/server/services/scrapingService.ts:304 | an element of the reply's results array is null exactly when the JSON is null; an object keeps exactly its text fields; any other value has no fields |
| Scraping.Entries | RezGuruAI/server/services/scrapingService.ts:321-390 | the regex records, as items: the same count, each one present |
| Scraping.ItemsOf | RezGuruAI/server/services/scrapingService.ts:304 | the reply's array, element by element |
| Scraping.ExtractData | RezGuruAI/server/services/scrapingService.ts:262-313 | without an API key, or for a source type the template lookup misses, extraction is exactly the regex fallback; a name the template object inherits from `Object.prototype` (such as "toString") finds a template, so its parsed AI reply's results are returned, and an unparseable reply gives nothing; a null item comes only from a null element of the AI reply's results |
| Scraping.ExtractDataFromHtml | RezGuruAI/server/services/scrapingService.ts:262-313 | the extractor's branches return exactly the reference extraction: fallback on a missing key, a missed template lookup (an inherited name does not miss), a failed or empty reply; nothing for an unparseable reply; the reply's results array otherwise |
| Scraping.ProcessResult | RezGuruAI/server/services/scrapingService.ts:398-441 | every processed result carries the job's source; the three known sources get the drawn id; probate and FSBO addresses default to "Unknown"; other sources keep every field of the result over the id |
| Scraping.ProcessFromFails | RezGuruAI/server/services/scrapingService.ts:398-441 | mapping from index i on throws exactly when a later item is null and the source reads fields, with the message for the first field read |
| Scraping.ProcessFromValues | RezGuruAI/server/services/scrapingService.ts:398-441 | mapping from index i on without a throw gives one output per later item, item j becoming output j - i |
| Scraping.ProcessScrapingResults | RezGuruAI/server/services/scrapingService.ts:398-441 | for the tax, probate and FSBO sources a null result throws "Cannot read properties of null" naming the first field read; otherwise normalisation keeps the count and order of the results, result i (a null spreading nothing) processed with uuid i |
| Scraping.ProcessedSources | RezGuruAI/server/services/scrapingService.ts:398-441 | when normalisation does not throw, every processed result's source is the job's, and for probate and FSBO jobs every address is non-empty |
| Scraping.RunScrapingJob | RezGuruAI/server/services/scrapingService.ts:77-112 | a missing job is an error that changes nothing; otherwise the job is stamped running with its run time, then ends failed (with an error) for an empty URL or when normalisation throws, or completed with exactly the processed results, which are returned; no other job changes |
| Scraping.LeadFromResult | RezGuruAI/server/services/scrapingService.ts:467-491 | the lead has status "new", the job's source, the user and the result's address; a tax result with an amount owes that amount; an FSBO contact with '@' becomes the email, any other the phone; other sources set neither |
| Scraping.CreateLeadFromScrapingResult | RezGuruAI/server/services/scrapingService.ts:450-495 | it fails, changing nothing, exactly when the job, its results or a result with the id is missing; otherwise it stores the lead built from the first matching result under the next lead id |
| DocumentGeneration.FindTemplate | server/services/documentGenerationService.ts:327-329 | the lookup finds a template exactly when one has the id, and then the first such template of the list |
| DocumentGeneration.TemplateIdsDistinct | server/services/documentGenerationService.ts:16-257 | no two of the five built-in templates share an id |
| DocumentGeneration.TemplateLookup | server/services/documentGenerationService.ts:320-329 | each built-in template is found by its own id, and an id none of them has finds nothing |
| DocumentGeneration.LeadPairs | server/services/documentGenerationService.ts:351-360 | the lead step fills exactly the eight lead placeholders, in the order the code fills them |
| DocumentGeneration.FillEntries | server/services/documentGenerationService.ts:362-368 | the custom-field loop replaces every occurrence of each entry's placeholder, one entry after the other, as the reference filling does |
| DocumentGeneration.FillTemplate | server/services/documentGenerationService.ts:344-370 | the keyless body fills the date, then the lead placeholders when a lead is given, then the custom fields, giving exactly the reference filling |
| DocumentGeneration.PopulateTemplate | server/services/documentGenerationService.ts:334-371 | without a key, or when the AI call fails, the content is exactly the keyless filling; a non-empty AI reply is used as is, and an empty one gives "Error generating document content" |
| DocumentGeneration.PopulatedKeepsHole | server/services/documentGenerationService.ts:344-370 | a placeholder that neither the date, nor a given lead, nor any custom entry fills stays in the text verbatim |
| DocumentGeneration.PopulatedVerbatim | server/services/documentGenerationService.ts:344-370 | a text with none of the placeholders that would be filled comes back unchanged |
| DocumentGeneration.CustomEntryIdle | server/services/documentGenerationService.ts:363-367 | a custom entry whose placeholder is already gone after the earlier steps changes nothing |
| DocumentGeneration.DocumentName | server/services/documentGenerationService.ts:296-298 | the name is the template name, " - ", then the lead's address, or its name when the address is empty, or the date when there is no lead |
| DocumentGeneration.GenerateDocument | server/services/documentGenerationService.ts:275-315 | it fails, storing nothing, exactly for an unknown template id or a truthy lead id with no stored lead; otherwise it stores a draft named as above, of the template's type, under the next document id, with the keyless content when there is no key or the AI call fails |
| DocumentGenerator.MatchesSound | RezGuruAI/client/src/components/documents/DocumentGenerator.tsx:90-91 | every match of the global lazy `{{(.*?)}}` expression is a single-line placeholder occurring in the text |
| DocumentGenerator.FieldsFromTemplate | RezGuruAI/client/src/components/documents/DocumentGenerator.tsx:87-96 | the discovered fields never repeat, and a missing or empty template text gives none |
| DocumentGenerator.FieldsSound | RezGuruAI/client/src/components/documents/DocumentGenerator.tsx:87-96 | each discovered field names a `{{field}}` placeholder of the template and holds no line break |
| DocumentGenerator.FieldsOfLayout | RezGuruAI/client/src/components/documents/DocumentGenerator.tsx:87-96 | for a template of literal text and single-line placeholders, the fields are exactly the placeholder names in first-occurrence order without duplicates |
| DocumentGenerator.InputFields | RezGuruAI/client/src/components/documents/DocumentGenerator.tsx:229-241 | the input fields are exactly the template fields that are not system fields, in template order |
| DocumentGenerator.SystemFieldsAreFilled | RezGuruAI/client/src/components/documents/DocumentGenerator.tsx:229-239 | the nine system fields are exactly the date placeholder and the eight lead placeholders the server fills |
| DocumentGenerator.InputFieldStaysVerbatim | RezGuruAI/client/src/components/documents/DocumentGenerator.tsx:241 | an input field the user leaves unset stays as a placeholder in the generated text, with or without a lead |
| DocumentGenerator.SpaceCapitals | RezGuruAI/client/src/components/documents/DocumentGenerator.tsx:257 | a space is inserted before each capital, so the length grows by the number of capitals |
| DocumentGenerator.CapitalizeFirst | RezGuruAI/client/src/components/documents/DocumentGenerator.tsx:258 | only the first character, when it is not a line break, is upper-cased |
| DocumentGenerator.Label | RezGuruAI/client/src/components/documents/DocumentGenerator.tsx:256-258 | the label is as long as the name plus its number of capitals |
| DocumentGenerator.LabelWords | RezGuruAI/client/src/components/documents/DocumentGenerator.tsx:256-258 | removing the inserted spaces from a label gives the name with its first character upper-cased |
| DocumentGenerator.LabelTwoWords | RezGuruAI/client/src/components/documents/DocumentGenerator.tsx:256-258 | a two-word camel-case name becomes its two words, the first capitalized, separated by one space (propertyAddress gives "Property Address") |
| DocumentGenerator.IsTextArea | RezGuruAI/client/src/components/documents/DocumentGenerator.tsx:261-264 | a field gets a text area exactly when its lower-cased name contains one of the seven long-text terms lower-cased |
| DocumentGenerator.ComparableSalesIsTextArea | RezGuruAI/client/src/components/documents/DocumentGenerator.tsx:261-264 | the mixed-case term comparableSales matches any casing of a field containing it |
| DocumentGenerator.Lookup | RezGuruAI/client/src/components/documents/DocumentGenerator.tsx:111-116 | a key's value is found exactly when an entry has that key |
| DocumentGenerator.Assign | RezGuruAI/client/src/components/documents/DocumentGenerator.tsx:111-116 | the spread update sets the field's value and leaves every other field's value; an existing key keeps its place, a new one goes last (field names that are not integer-like, see Left out) |
| DocumentGenerator.AssignDistinct | RezGuruAI/client/src/components/documents/DocumentGenerator.tsx:111-116 | the update keeps the keys free of repeats |
| DocumentGenerator.ShownValue | RezGuruAI/client/src/components/documents/DocumentGenerator.tsx:273 | (corrected) an input shows what was typed for its field, or '' when nothing was |
| DocumentGenerator.ShownValueAsWritten | RezGuruAI/client/src/components/documents/DocumentGenerator.tsx:241-281 | (as written) reading the shadowing local array by a field name that is neither an index nor "length" gives '' |
| DocumentGenerator.InheritedNamesShowNothing | RezGuruAI/client/src/components/documents/DocumentGenerator.tsx:273-281 | reading the array by any name, an `Array.prototype` method or `__proto__` included, renders what `ShownValueAsWritten` gives: '' for every name that is neither an index nor "length" |
| DocumentGenerator.TypedValueHidden | RezGuruAI/client/src/components/documents/DocumentGenerator.tsx:241-281 | as written, a typed value never shows in its input, while the state holds exactly the typed text |
| DocumentGenerator.TypedValueHiddenExample | RezGuruAI/client/src/components/documents/DocumentGenerator.tsx:241-281 | typing "Alice" into buyerName stores "Alice" but shows '' |
| DocumentGenerator.LeadChoice | RezGuruAI/client/src/components/documents/DocumentGenerator.tsx:105-106 | the empty choice means no lead; any other is read with parseInt |
| Text.ParseIntRendered | RezGuruAI/client/src/components/documents/DocumentGenerator.tsx:106 | `parseInt` reads a decimal rendering of an integer back as that integer |
| Text.HexExample | RezGuruAI/server/routes.ts:303 | `parseInt` without a radix reads "0x1A" as hexadecimal 26 |
| Text.HexSignedExample | RezGuruAI/server/routes.ts:303 | `parseInt` skips leading white space, keeps the sign and reads " -0Xff" as -255 |
| Text.HexEmptyExamples | RezGuruAI/server/routes.ts:303 | a `0x` prefix with no hexadecimal digit after it ("0x", "0xg") is NaN |
| Text.DecimalMagnitude | RezGuruAI/client/src/components/documents/DocumentGenerator.tsx:106 | an unsigned run of decimal digits is read as its decimal value |
| Text.LeadingHexDigits | RezGuruAI/server/routes.ts:303 | the hexadecimal digits `parseInt` reads are the longest prefix of hex digits |
| DocumentGenerator.RequestLead | RezGuruAI/client/src/components/documents/DocumentGenerator.tsx:134-136 | the request carries a lead id exactly when the selected id is truthy, and then that id |
| DocumentGenerator.Wizard.constructor | RezGuruAI/client/src/components/documents/DocumentGenerator.tsx:21-25 | the wizard starts at step 1 with no template, no lead, no field values and not generating |
| DocumentGenerator.Wizard.SelectTemplate | RezGuruAI/client/src/components/documents/DocumentGenerator.tsx:99-102 | picking a template records it and moves to step 2 |
| DocumentGenerator.Wizard.SelectLead | RezGuruAI/client/src/components/documents/DocumentGenerator.tsx:105-108 | picking a lead records the parsed choice and moves to step 3 |
| DocumentGenerator.Wizard.Continue | RezGuruAI/client/src/components/documents/DocumentGenerator.tsx:210 | Continue on step 2 moves to step 3 without a lead choice |
| DocumentGenerator.Wizard.Back | RezGuruAI/client/src/components/documents/DocumentGenerator.tsx:142-146 | Back decrements the step only when it is above 1, so the step stays in 1..3 |
| DocumentGenerator.Wizard.ChangeField | RezGuruAI/client/src/components/documents/DocumentGenerator.tsx:111-116 | a field change is the spread update of the field values; with the corrected display (see Findings) the changed field's input then shows the typed value and every other input shows what it showed before |
| DocumentGenerator.Wizard.Generate | RezGuruAI/client/src/components/documents/DocumentGenerator.tsx:119-139 | without a template nothing is sent; otherwise the request holds the template id, the truthy lead id and the field values, and generation starts |
| DocumentGenerator.Wizard.Settle | RezGuruAI/client/src/components/documents/DocumentGenerator.tsx:65-83 | success or error ends the generation |
| WorkflowRunner.InitialResults | RezGuruAI/server/routes.ts:253-280 | the results start with nothing processed, no entries and the raw trigger as type, holding exactly the detail record of the workflow's type (an empty trigger counting as "custom"), outreach at zero messages and no channels, and 3 to 7 advanced-scraper properties |
| WorkflowRunner.ApplyAllAppend | RezGuruAI/server/routes.ts:339-437 | the storage writes of two stretches of the loop are the writes of the first followed by those of the second |
| WorkflowRunner.ApplyAllOnlyAdds | RezGuruAI/server/routes.ts:339-437 | a run never deletes: leads keep their ids and every field but score and update time, existing documents stay, and the document counter never goes back |
| WorkflowRunner.SecondPiece | RezGuruAI/server/routes.ts:303 | `split(sep)[1]` exists exactly when the text contains the separator |
| WorkflowRunner.Keep | RezGuruAI/server/routes.ts:293-316 | a lead is dropped exactly for a configured source or status it does not match, or a "score > N" condition with a truthy score of at most N; unscored leads and price or amount conditions pass; a truthy condition on a lead that got that far throws when it is neither a string nor an array (`includes` is not a function), or an array holding "price > ", "amount > " or, for a scored lead, "score > " (`split` is not a function) |
| WorkflowRunner.FilterLeads | RezGuruAI/server/routes.ts:293-316 | the filtered list is a sub-collection of the user's leads |
| WorkflowRunner.FilterFails | RezGuruAI/server/routes.ts:293-316 | the filter throws exactly when some lead's callback throws, which needs a truthy non-string condition that throws on that lead; an array condition holding none of the three prefixes never throws |
| WorkflowRunner.FilterKeeps | RezGuruAI/server/routes.ts:293-316 | when it does not throw, the filter keeps exactly the leads the callback keeps, in order |
| WorkflowRunner.FilterAction | RezGuruAI/server/routes.ts:291-327 | a filter action completes, touching only the filter counts, and fails exactly when the filter throws |
| WorkflowRunner.ContractDocs | RezGuruAI/server/routes.ts:339-351 | the contract generator writes one draft contract per lead for the first two leads, each for that lead and the running user |
| WorkflowRunner.DocumentAction | RezGuruAI/server/routes.ts:329-401 | a document action is skipped and writes nothing without a template; otherwise it completes, writing min(2, #leads) drafts in a contract run and one draft in any other |
| WorkflowRunner.SingleDocAction | RezGuruAI/server/routes.ts:358-395 | outside the contract generator a document action writes one draft for the first lead and records one document generated |
| WorkflowRunner.ContractAction | RezGuruAI/server/routes.ts:335-357 | in the contract generator the documents generated, in both counters, equal the number of contracts written |
| WorkflowRunner.LetterDoc | RezGuruAI/server/routes.ts:358-369 | the advanced-scraper letter is a draft of the running user for the first lead |
| WorkflowRunner.GenericDoc | RezGuruAI/server/routes.ts:377-389 | the generic document is a draft of the running user for the first lead |
| WorkflowRunner.Rescore | RezGuruAI/server/routes.ts:403-440 | scoring re-scores the first min(limit, #leads) leads in order, each to a score in [70, 100) |
| WorkflowRunner.ScoreAction | RezGuruAI/server/routes.ts:403-442 | a score action completes and touches at most 3 leads in a lead-qualifier run and at most 2 otherwise |
| WorkflowRunner.ScrapeAction | RezGuruAI/server/routes.ts:444-455 | a scrape action completes and leaves the processed count, the entries and the outreach record alone |
| WorkflowRunner.CreateAction | RezGuruAI/server/routes.ts:457-467 | a create action completes and leaves the processed count, the entries and the outreach record alone |
| WorkflowRunner.ChannelAction | RezGuruAI/server/routes.ts:469-506 | email, sms and call finish "simulated"; in an outreach run each schedules one more message and records its channel once |
| WorkflowRunner.NotifyAction | RezGuruAI/server/routes.ts:518-528 | a notify action finishes "simulated" and changes no outreach record |
| WorkflowRunner.HandleWork | RezGuruAI/server/routes.ts:290-467 | the work actions finish "completed", or "skipped" for a document action without a template, write only what their kind allows, and fail only for a throwing filter |
| WorkflowRunner.HandleSimulated | RezGuruAI/server/routes.ts:469-533 | email, sms, call, delay, notify and unknown action types always finish "simulated" and write nothing |
| WorkflowRunner.Handle | RezGuruAI/server/routes.ts:284-533 | one action's entry carries its type and the status its kind fixes; it fails exactly for a null action or a throwing filter |
| WorkflowRunner.Decide | RezGuruAI/server/routes.ts:284-536 | one pass of the loop adds one to the processed count and pushes exactly that action's entry |
| WorkflowRunner.RunPrefix | RezGuruAI/server/routes.ts:283-537 | the processed count grows with the entries, never beyond the number of actions, and equals it when nothing throws |
| WorkflowRunner.RunPrefixStops | RezGuruAI/server/routes.ts:283-537 | once an action throws, the later actions are not processed |
| WorkflowRunner.RunEntries | RezGuruAI/server/routes.ts:283-537 | in a run without an exception, entry i is the entry of action i, with that action's type, in input order |
| WorkflowRunner.RunLast | RezGuruAI/server/routes.ts:283-537 | a run without an exception is the run of all but the last action followed by the last action |
| WorkflowRunner.Channels | RezGuruAI/server/routes.ts:469-506 | the channel sequence has no more entries than there are actions |
| WorkflowRunner.OutreachTally | RezGuruAI/server/routes.ts:469-506 | after an outreach run the messages scheduled are the number of channel actions and the contact types are their channels, each once, in first-use order |
| WorkflowRunner.StampLastRun | RezGuruAI/server/routes.ts:540-542 | the lastRun update changes only the workflow's lastRun |
| WorkflowRunner.PerformOne | RezGuruAI/server/routes.ts:339-437 | one storage write changes the store exactly as the write specifies |
| WorkflowRunner.Perform | RezGuruAI/server/routes.ts:339-437 | the writes of one action change the store exactly as specified, in order |
| WorkflowRunner.RunOne | RezGuruAI/server/routes.ts:283-537 | one iteration of the loop advances the results and the store exactly as one step of the specified run |
| WorkflowRunner.RunActions | RezGuruAI/server/routes.ts:283-537 | the loop leaves exactly the specified results, failure and storage writes |
| WorkflowRunner.RunWorkflow | RezGuruAI/server/routes.ts:225-558 | an unknown workflow gives 404 and a user without leads 400, both changing nothing; otherwise the store gets exactly the planned writes, and the response is 500 with the error when an action throws, else success with the stamped workflow and the specified results |
| WorkflowRunner.RunFound | RezGuruAI/server/routes.ts:252-557 | once the workflow and the leads are known, the store gets exactly the planned writes, and lastRun is stamped only when no action throws |
| IssueTracker.ParseIssueRowAccepts | fix_scripts/implement_fixes.py:64-81 | a row of the issues table is taken exactly when it holds a pipe, has at least five cells and an all-digit first cell; the issue is then the id's value and the next four cells, with no root cause and no files yet |
| IssueTracker.PaddedLineCells | fix_scripts/implement_fixes.py:69 | splitting a pipe line, dropping the first and last piece and trimming gives back the cells that were written, padded, between the pipes |
| IssueTracker.IssueRowRoundTrip | fix_scripts/implement_fixes.py:599-600 | the row `update_issues_tracker` writes for a well-formed issue parses back to the same id, feature, description, priority and status |
| IssueTracker.IssueRowShape | fix_scripts/implement_fixes.py:599-600 | such a row is one line that opens and closes with a pipe |
| IssueTracker.AppendLines | fix_scripts/implement_fixes.py:598-600 | the concatenation loop yields the header followed by every row and its newline, in order |
| IssueTracker.RenderIssuesTable | fix_scripts/implement_fixes.py:598-600 | builds the issues table: its header and one row per issue, in list order |
| IssueTracker.ParsedIssues | fix_scripts/implement_fixes.py:61-82 | the parsed issues never outnumber the lines and carry only table fields |
| IssueTracker.ParseIssues | fix_scripts/implement_fixes.py:61-82 | the row loop over the stripped, newline-split table body collects exactly the rows that parse, in order |
| IssueTracker.LinesTextBody | fix_scripts/implement_fixes.py:61 | stripping and splitting a table body written one row per line gives back the rows |
| IssueTracker.IssueTableRoundTrip | fix_scripts/implement_fixes.py:598-600 | every issue written to the table body is read back by the parser, in order and with its five fields |
| IssueTracker.FileList | fix_scripts/implement_fixes.py:102 | the split of the files cell is never empty |
| IssueTracker.FileListRoundTrip | fix_scripts/implement_fixes.py:102 | a non-empty list of comma-free, trimmed file names joined with ", " splits back into the same list |
| IssueTracker.CausesLatest | fix_scripts/implement_fixes.py:91-107 | an id's root-cause entry is the cause and files of the last row for that id |
| IssueTracker.CausesFromRows | fix_scripts/implement_fixes.py:91-107 | an id has an entry only when some row of the root-cause table is for it |
| IssueTracker.ParseCauses | fix_scripts/implement_fixes.py:87-107 | the loop over the root-cause rows builds exactly that dictionary |
| IssueTracker.Merge | fix_scripts/implement_fixes.py:110-112 | an issue with an entry takes that entry's cause and files and keeps its table fields; one without stays as it was |
| IssueTracker.Tracker | fix_scripts/implement_fixes.py:55-115 | a missing issues table gives no issues; otherwise one issue per parsed row with that row's table fields, whether or not the root-cause table is there |
| IssueTracker.ParseTracker | fix_scripts/implement_fixes.py:55-115 | `parse_issues_tracker` computes that list |
| IssueTracker.FixRowCells | fix_scripts/implement_fixes.py:612-616 | a fixes row reads as the id, the default description, the joined files, the date and "Fixed" for a fixed issue, and as the id, three blank cells and the status otherwise |
| IssueTracker.RenderFixesTable | fix_scripts/implement_fixes.py:611-616 | builds the fixes table: its header and one row per issue, fixed or not, in list order |
| IssueTracker.FixesTableCells | fix_scripts/implement_fixes.py:611-616 | the fixes table body reads back as one row per issue with exactly those cells |
| IssueTracker.FixOne | fix_scripts/implement_fixes.py:137-215 | a fixer changes only the status, and an issue is "Fixed" afterwards exactly when it already was, or when the fixer selects it, does not skip it and its edit lands |
| IssueTracker.ApplyFixer | fix_scripts/implement_fixes.py:137-215 | the fixer's loop sets the status in place, leaving the array equal to every issue passed through that fixer, in order |
| IssueTracker.RunFixers | fix_scripts/implement_fixes.py:650-654 | running the fixers keeps the number of issues |
| IssueTracker.FixAll | fix_scripts/implement_fixes.py:650-654 | `main` runs the five fixers in order over the same array of issues |
| IssueTracker.FixersOnlyMark | fix_scripts/implement_fixes.py:132-582 | after the fixers every issue keeps its fields but the status, and a status that changed became "Fixed" by a fixer that tried the issue |
| IssueTracker.FixedOnlyInCategory | fix_scripts/implement_fixes.py:137-493 | an issue ends "Fixed" only if it was, or its feature names Database or API with files, Error, Frontend with Broken Images, or Application Startup |
| IssueTracker.FixedRemainingPartition | fix_scripts/implement_fixes.py:660-663 | the fixed and remaining lists split the issues: each is in exactly one and the counts add up |
| IssueTracker.ImplementFixes | fix_scripts/implement_fixes.py:643-663 | with no parsed issues nothing is done; otherwise, when either table's replacement is not a valid `re.sub` template the run raises, and else the result is the fixed issues, both parsed replacement templates, the fixed count and the remaining issues |
| IssueTracker.PlainTemplate | fix_scripts/implement_fixes.py:603-607 | a replacement without backslashes parses as its characters, literally |
| IssueTracker.ExpandLits | fix_scripts/implement_fixes.py:603-607 | literal pieces expand to their own text |
| IssueTracker.HeaderTemplate | fix_scripts/implement_fixes.py:603-607 | the template `\1\n` followed by text without backslashes parses as group 1, a newline and that text literally |
| IssueTracker.HeaderExpands | fix_scripts/implement_fixes.py:603-607 | that parsed template expands to the matched header, a newline and the text |
| IssueTracker.PlainTableVerbatim | fix_scripts/implement_fixes.py:603-607 | a stripped table without backslashes is inserted verbatim, behind the kept header and a newline |
| IssueTracker.WindowsPathRaises | fix_scripts/implement_fixes.py:619-623 | a cell holding `C:\Users` makes `\U` an unknown escape, so the substitution raises |
| IssueTracker.DoubledBackslashHalved | fix_scripts/implement_fixes.py:619-623 | a doubled backslash in a cell is written back as one |
| TrackerFile.SkipSpaces | fix_scripts/implement_fixes.py:55 | the `\s*` before the separator stays inside the text and never moves backwards |
| TrackerFile.LastPipe | fix_scripts/implement_fixes.py:55 | the backtracking point of `[-\s|]*\|`: the last pipe in the range, or none when the range has no pipe |
| TrackerFile.FirstTerminator | fix_scripts/implement_fixes.py:55 | the lazy `(.*?)` stops at the first blank line or `##` heading, and none comes earlier |
| TrackerFile.CaptureAsWritten | fix_scripts/implement_fixes.py:55 | with the class as written, the separator run crosses the line break, so the capture starts two characters into the first body row |
| TrackerFile.AsWrittenSkipsFirstLine | fix_scripts/implement_fixes.py:55-82 | as written, the parser reads only the issues of the second and later body rows |
| TrackerFile.HeadlessIssueRowSkipped | fix_scripts/implement_fixes.py:64-72 | the first issue row with its leading pipe and space cut off has one cell too few and is skipped |
| TrackerFile.AsWrittenDropsFirstIssue | fix_scripts/implement_fixes.py:55-82 | on any non-empty issues table the testing script writes, the parser as written returns every issue but the first |
| TrackerFile.HeadlessCauseRowSkipped | fix_scripts/implement_fixes.py:85-100 | a root-cause row opens with a pipe, a space and a digit, and with those two characters cut off has two cells and is skipped |
| TrackerFile.CauseRowsHeadless | fix_scripts/implement_fixes.py:85-100 | every root-cause row the testing script writes has that shape |
| TrackerFile.CausesSkip | fix_scripts/implement_fixes.py:91-100 | a skipped row in front of the others leaves the root-cause dictionary unchanged |
| TrackerFile.AsWrittenDropsFirstCause | fix_scripts/implement_fixes.py:85-100 | on any non-empty root-cause table the testing script writes, the pattern as written yields the dictionary of every row but the first |
| TrackerFile.CaptureOnLine | fix_scripts/implement_fixes.py:55 | with the class kept on the separator line, the capture is exactly the table body, behind the line break |
| TrackerFile.OnLineReadsAllIssues | fix_scripts/implement_fixes.py:55-82 | with that class, the parser reads back every issue of the table, in order |
| TrackerFile.ReadTracker | fix_scripts/implement_fixes.py:55-115 | (corrected separator class, see Findings) a missing issues table gives no issues |
| TrackerFile.ReadTrackerRoundTrip | fix_scripts/implement_fixes.py:55-115 | with the corrected separator class (see Findings), reading the file the testing script writes gives back its whole log, with the placeholder root cause on every issue that names files |
| AppTester.IssueLog.constructor | fix_scripts/test_app.py:22-23 | the log starts with no issues and the counter at zero |
| AppTester.IssueLog.AddIssue | fix_scripts/test_app.py:30-42 | the counter goes up by one and the new issue is appended with that id, priority "Medium" and no files when they are not given, and status "Identified"; ids stay sequential |
| AppTester.AppType | fix_scripts/test_app.py:68-86 | both manifests give "hybrid", one alone names its ecosystem; without either a positive `.py` count gives "python", else a positive `.js` count gives "node", else "unknown" |
| AppTester.PendingRowCells | fix_scripts/test_app.py:578 | every fixes row reads as the id, three blank cells and "Pending" |
| AppTester.TestingRowCells | fix_scripts/test_app.py:579 | every testing row reads as the id and four blank cells |
| AppTester.CauseRowRoundTrip | fix_scripts/test_app.py:577 | the root-cause row of an issue with files parses back to its id, the placeholder cause and the same files |
| AppTester.CauseRowsRead | fix_scripts/test_app.py:577 | the root-cause table body reads back as one placeholder entry per issue that names files |
| AppTester.CauseMapEntry | fix_scripts/test_app.py:577 | with distinct ids, an issue has a root-cause entry exactly when it names files, and the entry holds them |
| AppTester.CausesBodyRead | fix_scripts/test_app.py:577 | the whole root-cause table text the testing script writes reads back as the log's cause map |
| AppTester.MergedRereads | fix_scripts/test_app.py:576-577 | merging that cause map into each issue as read gives the issue with the placeholder cause where it names files |
| AppTester.IssuesBodyRead | fix_scripts/test_app.py:576 | the issues table body reads back as every issue's five fields, in order |
| AppTester.TrackerRoundTrip | fix_scripts/test_app.py:576-577 | parsing the two table bodies the testing script writes gives its log back, with the placeholder cause on the issues that name files |
| DocumentList.OfType | RezGuruAI/client/src/components/documents/DocumentList.tsx:25 | the filter keeps exactly the documents of the chosen type, never adds any, and keeps them in the list's order (a subsequence of it) |
| DocumentList.Shown | RezGuruAI/client/src/components/documents/DocumentList.tsx:23-25 | "all" shows every document, any other type exactly those of that type, as that type's filter gives them; either way in the list's order (a subsequence of it); no documents loaded stays missing |
| DocumentList.TotalPages | RezGuruAI/client/src/components/documents/DocumentList.tsx:28-30 | the page count is the ceiling of a quarter of the count: enough pages for every document and no empty last page |
| DocumentList.PageSlice | RezGuruAI/client/src/components/documents/DocumentList.tsx:32-37 | a page holds at most four documents, the ones at its offsets in order; it is empty exactly past the last page and full before it |
| DocumentList.PagesCover | RezGuruAI/client/src/components/documents/DocumentList.tsx:28-37 | the pages taken in order put every document back together |
| DocumentList.FooterMatchesRows | RezGuruAI/client/src/components/documents/DocumentList.tsx:184-188 | on an existing page the footer's "Showing a to b" range names exactly the rows of the table; past the last page the table is empty and the range is backwards |
| DocumentList.TableBody | RezGuruAI/client/src/components/documents/DocumentList.tsx:112-127 | loading shows the spinner; otherwise "No documents found" appears exactly when there are no documents or the page is past the last, and the rows are one to four documents of the selected type, exactly that page's slice of the shown list, in its order |
| DocumentList.Footer | RezGuruAI/client/src/components/documents/DocumentList.tsx:180-188 | the footer is shown exactly when some document is shown, and its total is their count |
| DocumentList.Numbers | RezGuruAI/client/src/components/documents/DocumentList.tsx:202-213 | the short pager numbers its buttons consecutively |
| DocumentList.Near | RezGuruAI/client/src/components/documents/DocumentList.tsx:234-253 | the middle buttons are, in ascending order, exactly the inner pages less than two away from the current one |
| DocumentList.PageButtonShown | RezGuruAI/client/src/components/documents/DocumentList.tsx:202-270 | a page has a button exactly when the pager is short, or it is the first, the last, or within one of the current page |
| DocumentList.PageButtonsAscending | RezGuruAI/client/src/components/documents/DocumentList.tsx:202-270 | the numbered buttons run in ascending order |
| DocumentList.GapsMarkHiddenPages | RezGuruAI/client/src/components/documents/DocumentList.tsx:227-260 | on a long pager, the first ellipsis appears exactly when page 2 has no button, and the last exactly when the page before the last has none |
| DocumentList.AllPageButtons | client/src/components/documents/DocumentList.tsx:175-187 | the pager of the other copy shows one button per page, numbered from 1 |
| DocumentList.Pager.constructor | RezGuruAI/client/src/components/documents/DocumentList.tsx:17-19 | the list starts on all types, page 1, with no document open |
| DocumentList.Pager.SelectType | RezGuruAI/client/src/components/documents/DocumentList.tsx:81 | choosing a type keeps the page, so a page past the new last one shows no rows |
| DocumentList.Pager.Prev | RezGuruAI/client/src/components/documents/DocumentList.tsx:197 | Prev goes back one page but not below 1 |
| DocumentList.Pager.Next | RezGuruAI/client/src/components/documents/DocumentList.tsx:279 | Next goes forward one page but not past the last, and the page it lands on has rows |
| DocumentList.Pager.GoTo | RezGuruAI/client/src/components/documents/DocumentList.tsx:209 | a page button goes to its page |
| DocumentList.Pager.View | RezGuruAI/client/src/components/documents/DocumentList.tsx:64-66 | viewing opens that document |
| DocumentList.Pager.Close | RezGuruAI/client/src/components/documents/DocumentList.tsx:69-71 | closing leaves no document open |
| LeadViews.KeptLeads | client/src/pages/Leads.tsx:22-35 | the search keeps exactly the leads whose lower-cased name contains the lower-cased query (any lead for an empty query) and whose source is the chosen one, unless "all" is chosen; the kept leads stay in fetch order (a subsequence of the fetched list) |
| LeadViews.SortByScore | client/src/pages/Leads.tsx:36-39 | the sort is a permutation of its input that puts higher motivation scores first, an unscored lead counting as 0 |
| LeadViews.SortStable | client/src/pages/Leads.tsx:36-39 | the sort is stable: the leads of any one score keep their order |
| LeadViews.OfStatus | client/src/pages/Leads.tsx:42-44 | a status tab holds exactly the leads of that status, in the order of the list it filters (a subsequence of it) |
| LeadViews.OfStatusSorted | client/src/pages/Leads.tsx:36-44 | sorting does not change which leads a status tab holds |
| LeadViews.StatusCounts | client/src/pages/Leads.tsx:42-44 | the new, contacted and closed leads and those of any other status add up to all the leads |
| LeadViews.LeadsPageOf | client/src/pages/Leads.tsx:22-44 | before the leads load every tab is empty; after, "All" holds exactly the kept leads, as a permutation of them, highest score first; each status tab is the "All" list restricted to that status, in the same order; the three status tabs together hold no more than "All" |
| LeadViews.OtherStatusOnlyUnderAll | client/src/pages/Leads.tsx:115-118 | the tab counts of the three statuses plus the leads of other statuses equal the "All" count |
| LeadViews.OfSource | client/src/components/dashboard/LeadKanban.tsx:22-32 | narrowing a column keeps exactly the leads of the chosen source, in the column's order (a subsequence of it), and "all" keeps the column as it is |
| LeadViews.Column | client/src/components/dashboard/LeadKanban.tsx:17-32 | a column holds exactly the fetched leads of its status and of the chosen source, in fetch order (a subsequence of the fetched list) |
| LeadViews.KanbanBoard | client/src/components/dashboard/LeadKanban.tsx:17-32 | the three columns share no lead and a lead of any other status is on none of them |
| LeadViews.EmptySearchKeepsSource | client/src/pages/Leads.tsx:25-31 | with an empty search the page filter is the source filter alone |
| LeadViews.FiltersCommute | client/src/components/dashboard/LeadKanban.tsx:17-32 | filtering by status then source gives the same leads, in the same order, as by source then status |
| LeadViews.TabsMatchColumns | client/src/pages/Leads.tsx:22-44 | with an empty search, a status tab of the Leads page holds the same leads as that Kanban column for the same source |
| ReportGenerator.FindTemplate | client/src/components/dashboard/ReportGenerator.tsx:124 | the lookup returns a template with the requested id, and none only when no template has that id |
| ReportGenerator.CheckOnly | client/src/components/dashboard/ReportGenerator.tsx:132-135 | applying a template keeps every metric and its order and details, and checks exactly those whose id the template lists |
| ReportGenerator.Toggle | client/src/components/dashboard/ReportGenerator.tsx:149-153 | toggling sets the check mark of the metric with that id and changes nothing else |
| ReportGenerator.SelectedCount | client/src/components/dashboard/ReportGenerator.tsx:155-157 | the count of checked metrics never exceeds the number of metrics |
| ReportGenerator.InitialSelected | client/src/components/dashboard/ReportGenerator.tsx:73-86 | the component starts with twelve metrics, eight of them checked |
| ReportGenerator.InitialIdsDistinct | client/src/components/dashboard/ReportGenerator.tsx:73-86 | no two of the twelve metrics share an id |
| ReportGenerator.TemplatesWellFormed | client/src/components/dashboard/ReportGenerator.tsx:88-121 | every template lists four distinct metric ids, all of which exist |
| ReportGenerator.TemplateCount | client/src/components/dashboard/ReportGenerator.tsx:132-135 | checking exactly a repeat-free list of existing ids leaves as many metrics checked as the list is long |
| ReportGenerator.TemplateChecksFour | client/src/components/dashboard/ReportGenerator.tsx:123-136 | after any template the counter shows four checked metrics, whatever was checked before |
| ReportGenerator.AppliedTemplate | client/src/components/dashboard/ReportGenerator.tsx:123-136 | applying any built-in template keeps the twelve metric ids in order, leaves exactly four checked and gives the report a non-empty name |
| ReportGenerator.ToggleCount | client/src/components/dashboard/ReportGenerator.tsx:149-157 | a toggle changes the checked count by at most one, upwards when checking and downwards when unchecking, and not at all for an unknown id |
| ReportGenerator.TimeRangeLabel | client/src/components/dashboard/ReportGenerator.tsx:159-171 | a custom range shows both dates when both are set and "Custom Range" otherwise; an unknown range shows "Select Range"; the five named ranges show a fixed label |
| ReportGenerator.TemplateLabels | client/src/components/dashboard/ReportGenerator.tsx:88-171 | the time range of every template has one of the fixed labels, never "Select Range" |
| ReportGenerator.Builder.constructor | client/src/components/dashboard/ReportGenerator.tsx:67-86 | the builder starts with no name, PDF, last month, no dates, not generating and the initial metrics, so Generate starts disabled for want of a name |
| ReportGenerator.Builder.ApplyTemplate | client/src/components/dashboard/ReportGenerator.tsx:123-136 | an unknown template changes nothing; a known one sets the name, time range and format from it, checks exactly its metrics and leaves four checked and a non-empty name, so Generate is then enabled unless a report is being generated |
| ReportGenerator.Builder.ToggleMetric | client/src/components/dashboard/ReportGenerator.tsx:149-153 | the metric list becomes the toggled list, and an unknown id leaves it as it was |
| ReportGenerator.Builder.SetReportName | client/src/components/dashboard/ReportGenerator.tsx:216 | the name input sets the report name |
| ReportGenerator.Builder.SetTimeRange | client/src/components/dashboard/ReportGenerator.tsx:227-267 | a range button sets the time range |
| ReportGenerator.Builder.SetDates | client/src/components/dashboard/ReportGenerator.tsx:295-321 | the calendars set the two dates |
| ReportGenerator.Builder.SetFormat | client/src/components/dashboard/ReportGenerator.tsx:401-428 | a format button sets the format |
| ReportGenerator.Builder.Generate | client/src/components/dashboard/ReportGenerator.tsx:138-139 | generating raises the busy flag |
| ReportGenerator.Builder.Finish | client/src/components/dashboard/ReportGenerator.tsx:142-143 | the timer lowers it again |
| Chat.RuleFor | client/src/components/chat/ChatInterface.tsx:95-142 | the reply rule is the first in the chain whose keywords occur in the lower-cased input: none earlier matches |
| Chat.FirstMatchUnique | client/src/components/chat/ChatInterface.tsx:95-142 | any rule that matches, with no earlier rule matching, is the one chosen |
| Chat.ReplyFor | client/src/components/chat/ChatInterface.tsx:95-142 | only the error reply offers Retry and has the error kind; quick replies come exactly with the find-lead, tax, scrape and default replies; a reply is never a user message and carries its rule's text |
| Chat.FindLeadFirst | client/src/components/chat/ChatInterface.tsx:95-102 | an input naming both "find" and "lead" always gets the three city quick replies, whatever else it says |
| Chat.BlankIsSpace | client/src/components/chat/ChatInterface.tsx:55 | a send is ignored exactly when the input is all white space |
| Chat.SendAppendsTwo | client/src/components/chat/ChatInterface.tsx:66-144 | when no message has the loading id, a send leaves the old messages followed by the user's message and the one reply |
| Chat.FindIndex | client/src/components/chat/ChatInterface.tsx:182 | the search returns the first message with the id, or none when no message has it |
| Chat.NearestUser | client/src/components/chat/ChatInterface.tsx:186-189 | the backward walk stops at the latest user message at or before its start, or finds none |
| Chat.RetryLookup | client/src/components/chat/ChatInterface.tsx:180-193 | the retry loop computes the text to resend |
| Chat.RetryTargetIsNearest | client/src/components/chat/ChatInterface.tsx:180-197 | a resent text is that of the latest user message before the retried one; nothing is resent exactly when the id is missing, is the first message, or no user message precedes it |
| Chat.ChatState.constructor | client/src/components/chat/ChatInterface.tsx:24-38 | the chat starts with the welcome message alone, an empty input and not loading |
| Chat.ChatState.SetInput | client/src/components/chat/ChatInterface.tsx:173 | typing or a quick reply sets the input |
| Chat.ChatState.Send | client/src/components/chat/ChatInterface.tsx:54-169 | a blank input changes nothing; otherwise the messages gain the user's message and the reply, the input is emptied and loading ends |
| Chat.ChatState.SendCaptured | client/src/components/chat/ChatInterface.tsx:54-169 | the send handler of an earlier render sends the input it saw: blank changes nothing, any other text is sent, emptying the input |
| Chat.ChatState.QuickReply | client/src/components/chat/ChatInterface.tsx:172-177 | the reply goes into the input, but the timer's stale handler sends the input as it was before: a blank one leaves the reply in the box and sends nothing, any other is sent and the box ends empty |
| Chat.ChatState.Retry | client/src/components/chat/ChatInterface.tsx:180-197 | with no preceding user message nothing changes; otherwise its text goes into the input and, through the same stale handler, a blank earlier input sends nothing and leaves the text in the box, while any other earlier input is sent itself |
| Help.FilteredFaqs | client/src/pages/Help.tsx:49-54 | an empty query keeps every question; otherwise exactly the questions whose question or answer contains the query, ignoring case, and never more than there are |
| Help.FilteredInOrder | client/src/pages/Help.tsx:49-54 | the filtered questions keep the page's order |
| Help.EmptyQueryFilters | client/src/pages/Help.tsx:49-54 | the empty-query shortcut agrees with the filter itself, since every text contains the empty string |
| Help.View | client/src/pages/Help.tsx:83-89 | the "No results" message, with the query, appears exactly when no question is left; otherwise the accordion lists the filtered questions |
| Help.EmptyQueryShowsAll | client/src/pages/Help.tsx:49-89 | with an empty query every question is listed |
| Dashboard.Toggled | RezGuruAI/client/src/pages/Dashboard.tsx:31-36 | toggling flips the shown state of that section, a missing flag counting as collapsed, and leaves every other flag as it was |
| Dashboard.ToggleTwice | RezGuruAI/client/src/pages/Dashboard.tsx:31-36 | toggling twice shows the same sections, and restores the flags themselves for a section that had one |
| Dashboard.InitiallyExpanded | RezGuruAI/client/src/pages/Dashboard.tsx:18-27 | the page opens with exactly the metrics, analytics, leads, automation and documents sections expanded |
| Dashboard.DashboardView.constructor | RezGuruAI/client/src/pages/Dashboard.tsx:18-29 | the page starts with the initial flags on the overview tab |
| Dashboard.DashboardView.ToggleSection | RezGuruAI/client/src/pages/Dashboard.tsx:31-36 | a section's header toggles its flag |
| Dashboard.DashboardView.SetActiveTab | RezGuruAI/client/src/pages/Dashboard.tsx:258 | a tab click selects that tab |
| Dashboard.ExportClean | RezGuruAI/client/src/pages/Dashboard.tsx:64-79 | every cell of the export is free of quotes and line breaks, and every data row has five cells |
| Dashboard.DealRows | RezGuruAI/client/src/pages/Dashboard.tsx:70-71 | the two deal rows hold exactly one comma, in their value cell |
| Dashboard.AsWrittenTwoWide | RezGuruAI/client/src/pages/Dashboard.tsx:82-85 | any clean twelve-row table whose fourth and fifth rows hold such a comma reads back as thirteen lines with those two six fields wide |
| Dashboard.AsWrittenSplitsDealRows | RezGuruAI/client/src/pages/Dashboard.tsx:64-85 | as written, the export reads back as thirteen lines, but the two deal lines have six fields although their rows have five cells |
| Dashboard.ExportReadsBack | RezGuruAI/client/src/pages/Dashboard.tsx:64-85 | with comma cells quoted, the export reads back as exactly the header and the twelve rows |
| Csv.Lines | RezGuruAI/client/src/pages/Dashboard.tsx:82-85 | each line is its row's rendered cells joined by commas |
| Csv.UpTo | RezGuruAI/client/src/pages/Dashboard.tsx:82-85 | the reader's scan stops at the first separator, or at the end |
| Csv.ReadPlain | RezGuruAI/client/src/pages/Dashboard.tsx:82-85 | a line without quotes reads as its split at every comma |
| Csv.AsWrittenReads | RezGuruAI/client/src/pages/Dashboard.tsx:82-85 | written as is, a clean table reads back line by line as each row's cells split at every comma |
| Csv.SixFields | RezGuruAI/client/src/pages/Dashboard.tsx:70-71 | a five-cell row with one comma in its value cell splits into six fields |
| Csv.AsWrittenWideRow | RezGuruAI/client/src/pages/Dashboard.tsx:82-85 | in the export as written, such a row reads back six fields wide |
| Csv.QuotedField | RezGuruAI/client/src/pages/Dashboard.tsx:82-85 | a quoted cell followed by a comma or the end reads back as the cell |
| Csv.QuotedRowRoundTrip | RezGuruAI/client/src/pages/Dashboard.tsx:82-85 | a row of quote-free cells, comma cells quoted, reads back as the row |
| Csv.QuotedReads | RezGuruAI/client/src/pages/Dashboard.tsx:82-85 | a clean table written with comma cells quoted reads back as exactly its header and rows |
| ScheduleEditor.Toggled | RezGuruAI/client/src/components/scraping/ScrapingScheduleEditor.tsx:70-76 | after a toggle a day is selected exactly when it was not before, and every other day keeps its state |
| ScheduleEditor.ToggleDistinct | RezGuruAI/client/src/components/scraping/ScrapingScheduleEditor.tsx:70-76 | toggling keeps the selection free of repeats |
| ScheduleEditor.ToggleTwiceAbsent | RezGuruAI/client/src/components/scraping/ScrapingScheduleEditor.tsx:70-76 | toggling an unselected day twice gives back the same list |
| ScheduleEditor.ToggleTwicePresent | RezGuruAI/client/src/components/scraping/ScrapingScheduleEditor.tsx:70-76 | toggling a selected day twice keeps the same days but moves that one to the end |
| ScheduleEditor.DayLabel | RezGuruAI/client/src/components/scraping/ScrapingScheduleEditor.tsx:36-44 | a known day id has a three-letter label without commas; any other id is shown as itself |
| ScheduleEditor.DayIdLabel | RezGuruAI/client/src/components/scraping/ScrapingScheduleEditor.tsx:36-44 | the label of a known day leads back to its id |
| ScheduleEditor.Labels | RezGuruAI/client/src/components/scraping/ScrapingScheduleEditor.tsx:85-88 | each selected day is replaced by its label, in order |
| ScheduleEditor.DayNamesRoundTrip | RezGuruAI/client/src/components/scraping/ScrapingScheduleEditor.tsx:85-88 | the comma-joined day labels can be read back into the selected days, in order |
| ScheduleEditor.Description | RezGuruAI/client/src/components/scraping/ScrapingScheduleEditor.tsx:78-97 | every description but the custom one ends with " at " and the time; the custom one is "Custom schedule: " followed by the cron text |
| ScheduleEditor.WeeklyDescriptionRoundTrip | RezGuruAI/client/src/components/scraping/ScrapingScheduleEditor.tsx:84-89 | the weekly description determines the selected days and their order |
| ScheduleEditor.Payload | RezGuruAI/client/src/components/scraping/ScrapingScheduleEditor.tsx:99-109 | the submitted schedule has the form's type, time, days and day of month, no dates, and the cron text exactly for a custom schedule |
| ScheduleEditor.Editor.constructor | RezGuruAI/client/src/components/scraping/ScrapingScheduleEditor.tsx:30-34 | the form starts daily at 09:00 on Mon, Wed and Fri, day 1 of the month and the cron "0 9 * * 1-5" |
| ScheduleEditor.Editor.ToggleDay | RezGuruAI/client/src/components/scraping/ScrapingScheduleEditor.tsx:70-76 | a check box toggles its day and the selection stays free of repeats |
| ScheduleEditor.Editor.SetType | RezGuruAI/client/src/components/scraping/ScrapingScheduleEditor.tsx:120 | the type selector sets the type |
| ScheduleEditor.Editor.SetTime | RezGuruAI/client/src/components/scraping/ScrapingScheduleEditor.tsx:153 | the time input sets the time |
| ScheduleEditor.Editor.SetDayOfMonth | RezGuruAI/client/src/components/scraping/ScrapingScheduleEditor.tsx:179 | the day selector sets the day of the month |
| ScheduleEditor.Editor.SetCron | RezGuruAI/client/src/components/scraping/ScrapingScheduleEditor.tsx:200 | the cron input sets the cron text |
| Settings.PasswordSubmit | client/src/pages/Settings.tsx:95-120 | a confirmation that differs is reported first; otherwise a new password under eight characters is refused; otherwise exactly the current and the new password are sent |
| Settings.SentPasswordsAreValid | client/src/pages/Settings.tsx:95-120 | a password is sent exactly when it matches its confirmation and has at least eight characters |
| Settings.ClearPasswords | client/src/pages/Settings.tsx:72-77 | a successful change empties the three password fields and keeps everything else |
| Settings.ButtonAfterSuccess | client/src/pages/Settings.tsx:261-266 | after a successful change the Update Password button is disabled, and an enabled button never sends an empty current password or a short new one |
| Settings.ProfileSubmit | client/src/pages/Settings.tsx:88-93 | the profile request carries the full name and nothing else |
| Settings.FillFromUser | client/src/pages/Settings.tsx:33-39 | once the user has loaded and both name and email are empty, they take the user's full name (or "") and username; otherwise the settings stay as they are |
| Settings.FillSettles | client/src/pages/Settings.tsx:33-39 | filling in is idempotent, and once a user with a username has loaded it never fires again |
| Settings.InputChange | client/src/pages/Settings.tsx:131-134 | a text input sets exactly the field of its name and never changes a switch; any other name leaves the record unchanged |
| Settings.SwitchChange | client/src/pages/Settings.tsx:136-138 | a switch sets exactly the notification flag of its name and never changes a text field; any other name leaves the record unchanged |
| Settings.SettingsPage.constructor | client/src/pages/Settings.tsx:20-30 | the page starts with empty text fields and every notification on |
| Settings.SettingsPage.Render | client/src/pages/Settings.tsx:33-39 | a render applies the fill-in from the loaded user |
| Settings.SettingsPage.OnInput | client/src/pages/Settings.tsx:131-134 | a text input event applies the input change |
| Settings.SettingsPage.OnSwitch | client/src/pages/Settings.tsx:136-138 | a switch event applies the switch change |
| Settings.SettingsPage.PasswordChanged | client/src/pages/Settings.tsx:67-78 | a successful password change clears the three password fields |

## Left out

- web_scraper.py is not part of this model: it is a single call into the trafilatura library. It holds no retry, identity rotation, page classification or chunking, so none of these is modelled.
- The AI services (server/services/aiService.ts and the AI branches of lead scoring, data extraction and document generation) are foreign calls. The model takes their outcome as a parameter and models the deterministic fallbacks.
- `fetch`, `uuid`, `new Date()`, `toLocaleDateString`/`toLocaleString`, `Date.now` and `Math.random` are parameters. This covers user agents, parcel ids, contact numbers, the random counts of the workflow runner, timestamps and message ids.
- The regular-expression engine is not modelled. The match lists of the scraping extractor's patterns are given as sequences. Custom-field keys spliced into a RegExp are assumed to hold no metacharacters. TrackerFile models only the separator run and the capture of the tracker pattern, not its literal header words or its `\s+`.
- The `$` replacement patterns of JavaScript's `String.replace` are not modelled: replacement texts are inserted verbatim.
- Case mapping and white space are ASCII only: `Trim` strips space, tab, line feed, vertical tab, form feed and carriage return. Python's `str.strip` also strips `\x1c`-`\x1f`, `\x85` and the Unicode spaces, and JavaScript's `trim` the Unicode spaces; the model assumes table cells and inputs hold none at their ends. String lengths count characters, not UTF-16 code units.
- JSON numbers are integers only. A `parseInt` that gives NaN, including a `0x` prefix without hex digits, is modelled as no value (`DocumentGenerator.LeadChoice`).
- LeadScoring.UpdateLeadMotivationScore: a NaN score is stored as no score, as JSON writes NaN as null; the model's lead holds integers only.
- LeadScoring.ScoreLeadWithAi: the reply's analysis and motivators are taken as text and a text list; other JSON types there are not modelled.
- Scraping.ItemOf: only the text fields of an AI item are read; numbers, booleans and nested values in it, and the spread of a string or array item, are not modelled.
- Scraping.LeadFromResult: a result without a `name` gives the lead the name "", where the source passes `undefined` on to `createLead`.
- Scraping.TruncateForAi: the AI reply is a parameter of the run (`AiExtraction`), not a function of the text sent, so the 100000-character cut is stated on its own and does not constrain `ExtractData`.
- Of RezGuruAI/server/routes.ts only the workflow run handler is modelled. The CRUD routes are thin calls into the store. The analytics routes do not parse. The catch branches of the document actions cannot be reached with the in-memory store.
- `scheduleScrapingJob` (RezGuruAI/server/services/scrapingService.ts:503-512) is not modelled: it is one store update.
- The PostgreSQL store, the database connection, authentication and sessions are database, crypto and session plumbing and are not modelled.
- In fix_scripts/implement_fixes.py, the source rewriting, file backups and subprocess calls are not modelled. Whether a fixer's edit landed is a parameter. When `grep` finds nothing, `run_command` returns None and the `.split` at fix_scripts/implement_fixes.py:458 and :556 raises, ending the script; this path is not modelled. `fix_description` is never set by any fixer, so the default text is always used.
- In fix_scripts/test_app.py, application start-up and port probing are not modelled. The file-counting commands are optional counts.
- DocumentList: the badges, the date format and the update dialog are rendering only.
- Leads and LeadKanban: status changes and drag and drop are mutations through the server. Each column's badge is that column's length.
- ReportGenerator: date formatting is a `format` parameter. The alert and the two-second timer are modelled as the two steps `Generate` and `Finish`.
- ScheduleEditor: the switch's `default` branch is unreachable because the schedule type is an enumeration. The server mutation, the toasts and `onComplete` are I/O.
- Chat: the reply timers are taken as already elapsed, and the quick-reply and retry timers as firing before any other event. Their stale closure is modelled (`Chat.ChatState.SendCaptured`). The catch branch of the send handler cannot be reached. Message timestamps are parameters.
- Settings: an unknown `[name]` would add a key to the JavaScript record; the model leaves the record unchanged. The toasts, the mutations and the notification submit are I/O.
- Help: rendering of the question list.
- Dashboard: the Blob, download and alert of the export; the other tabs are static charts.
- Charts, static pages, badge and icon tables, and type declarations are presentation only.
- DocumentGeneration: the bodies of the five server templates are long literal texts and are a parameter (`TemplateTexts`); the template ids, names, descriptions and types are modelled as written, and the filling is proved for any bodies.
- DocumentGeneration.CustomEntryIdle: shows that a custom value has no effect only when its placeholder no longer occurs after the earlier replacements. A lead value such as `{{sellerName}}` re-creates the placeholder, so "a field the lead filled ignores its custom value" does not hold in general.
- DocumentGenerator.Assign: field names are taken as not integer-like. JavaScript lists the array-index keys of an object (such as "0" or "12") first, in ascending order, so a new key of that kind would not go last, and the model does not capture that order.
- ReportGenerator.TimeRangeLabel: states that a preset's label is one of the five fixed preset texts, not which text each preset gets.

## Findings

| source | as written | input that shows it | evidently intended | confidence | as-written member | corrected member |
|---|---|---|---|---|---|---|
| RezGuruAI/client/src/components/documents/DocumentGenerator.tsx:241-281 | the local array `customFields` of the input fields shadows the state map, so every input reads its value from the array by field name and shows '' | typing "Alice" into `buyerName`: the state holds "Alice" and the input shows '' | the input shows the value stored for its field | not executed | DocumentGenerator.TypedValueHidden | DocumentGenerator.ShownValue |
| fix_scripts/implement_fixes.py:55 | the separator class `[-\s|]*` also matches the newline after the separator row, so the greedy run reaches the first issue row's leading pipe; the capture starts inside that row, which then has too few cells and is skipped | any tracker written by fix_scripts/test_app.py with at least one issue: the first issue is not read back | the run stays on the separator line, so every issue row is read | not executed | TrackerFile.AsWrittenDropsFirstIssue | TrackerFile.OnLineReadsAllIssues |
| fix_scripts/implement_fixes.py:85 | the root-cause pattern repeats the separator class `[-\s|]*`, so its capture also starts inside the first root-cause row, which then has two cells and is skipped | any tracker written by fix_scripts/test_app.py with an issue that names files: the first root-cause row is not read back | the run stays on the separator line, so every root-cause row is read | not executed | TrackerFile.AsWrittenDropsFirstCause | TrackerFile.ReadTrackerRoundTrip |
| RezGuruAI/client/src/pages/Dashboard.tsx:82-85 | cells are joined with ',' unquoted, but "$158,000" and "$425,000" contain a comma | the exported text: its "Average Deal Size" and "Biggest Deal" lines read as six fields, though each row has five cells | every line reads back as its five cells | not executed | Dashboard.AsWrittenSplitsDealRows | Dashboard.ExportReadsBack |
