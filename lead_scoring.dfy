/**
 * Lead scoring: the rule-based score used whenever the AI service is not
 * available or its answer is unusable, the sanitising of an AI score, and
 * the update that writes a score and its analysis back onto a lead.
 */
module LeadScoring {
  import opened Core
  import opened Text
  import opened Schema
  import Storage

  /** Note phrases that indicate a motivated seller. */
  const Keywords: seq<string> := [
    "foreclosure", "divorce", "bankruptcy", "probate", "death", "inherited", "tax lien",
    "underwater", "behind on payments", "late payments", "distressed", "motivated",
    "urgent", "desperate", "need to sell fast", "relocating", "job transfer",
    "new job", "financial hardship", "unemployment", "vacant", "empty",
    "code violation", "repairs needed", "bad tenant", "problem tenant"
  ]

  /** Priority of each known lead source. */
  const SourcePriorities: map<string, nat> := map[
    "tax_delinquent" := 9, "probate" := 8, "foreclosure" := 8, "fsbo" := 7,
    "divorce" := 7, "vacant" := 6, "code_violation" := 6, "tired_landlord" := 5,
    "referral" := 4, "website" := 3, "zillow" := 2, "facebook" := 2,
    "general_marketing" := 1]

  /** `LEAD_SCORING_CRITERIA`: the keyword list and the source priorities. */
  datatype Criteria = Criteria(keywords: seq<string>, priorities: map<string, nat>)

  const LeadScoringCriteria := Criteria(Keywords, SourcePriorities)

  /**
   * What the proofs need of the criteria: priorities of at most 9, no
   * keyword spelled "financial distress", no motivating source name of
   * that phrase's length, and no own key shadowing an inherited name.
   */
  predicate WellFormed(c: Criteria) {
    PrioritiesBounded(c.priorities) && "financial distress" !in c.keywords &&
    MotivatingSourcesShort(c.priorities) && NoInheritedKeys(c.priorities)
  }

  predicate NoInheritedKeys(priorities: map<string, nat>) {
    forall s :: s in InheritedNames ==> s !in priorities
  }

  predicate PrioritiesBounded(priorities: map<string, nat>) {
    forall s :: s in priorities ==> priorities[s] <= 9
  }

  predicate MotivatingSourcesShort(priorities: map<string, nat>) {
    forall s :: s in priorities && priorities[s] > 5 ==> |s| != |"financial distress"|
  }

  lemma ScoringCriteriaWellFormed()
    ensures WellFormed(LeadScoringCriteria)
  {
    SourcePrioritiesBounded();
    SourcePrioritiesShort();
    DistressNotAKeyword();
    SourcePrioritiesOwnKeys();
  }

  lemma SourcePrioritiesOwnKeys()
    ensures NoInheritedKeys(SourcePriorities)
  {
  }

  lemma SourcePrioritiesBounded()
    ensures PrioritiesBounded(SourcePriorities)
  {
  }

  lemma SourcePrioritiesShort()
    ensures MotivatingSourcesShort(SourcePriorities)
  {
  }

  lemma DistressNotAKeyword()
    ensures "financial distress" !in Keywords
  {
  }

  /**
   * A looked-up priority: a number, or an inherited member, which is truthy
   * (so `|| 1` keeps it) and is `NaN` in arithmetic.
   */
  datatype Priority = Rank(p: nat) | Inherited

  /**
   * `PRIORITY[source] || 1`: an own non-zero priority; otherwise an
   * inherited member when the source names one; otherwise 1.
   */
  function SourcePriority(c: Criteria, source: string): (p: Priority)
    ensures p.Rank? ==> p.p >= 1
    ensures p.Inherited? <==> source !in c.priorities && source in InheritedNames
    ensures source !in c.priorities && source !in InheritedNames ==> p == Rank(1)
    ensures source in c.priorities && c.priorities[source] != 0 ==> p == Rank(c.priorities[source])
    ensures WellFormed(c) && p.Rank? ==> p.p <= 9
  {
    if source in c.priorities then
      if c.priorities[source] != 0 then Rank(c.priorities[source]) else Rank(1)
    else if source in InheritedNames then Inherited
    else Rank(1)
  }

  /** A JavaScript number of the scoring code: an integer or `NaN`. */
  datatype Number = Num(n: int) | NaN

  /** `x + y`: `NaN` absorbs. */
  function Add(x: Number, y: Number): (r: Number)
    ensures r.Num? <==> x.Num? && y.Num?
    ensures r.Num? ==> r.n == x.n + y.n
  {
    if x.Num? && y.Num? then Num(x.n + y.n) else NaN
  }

  /** `sourceScore * 5`. */
  function PriorityPoints(p: Priority): (r: Number)
    ensures r.Num? <==> p.Rank?
    ensures p.Rank? ==> r.n == 5 * p.p
  {
    if p.Rank? then Num(5 * p.p) else NaN
  }

  /** `Math.min(100, Math.max(1, x))`: `NaN` passes through both. */
  function ClampNumber(x: Number): (r: Number)
    ensures r.Num? <==> x.Num?
    ensures r.Num? ==> 1 <= r.n <= 100 && (1 <= x.n <= 100 ==> r.n == x.n)
  {
    if x.Num? then Num(Clamp(x.n, 1, 100)) else NaN
  }

  /** `${x}`: "NaN" or the decimal rendering. */
  function NumberText(x: Number): string {
    if x.Num? then IntToString(x.n) else "NaN"
  }

  datatype ScoreResult = ScoreResult(score: Number, analysis: string, motivators: seq<string>)

  /** `if (lead.notes)`: the notes, when present and non-empty. */
  predicate HasNotes(lead: Lead) {
    lead.notes.Some? && lead.notes.value != ""
  }

  /** Whether the notes mention `keyword`, ignoring case. */
  predicate Mentions(lead: Lead, keyword: string) {
    HasNotes(lead) && Contains(ToLower(lead.notes.value), ToLower(keyword))
  }

  /** `Mentions` as the callback of a `filter`. */
  function MentionedIn(lead: Lead): string -> bool {
    k => Mentions(lead, k)
  }

  /** The keywords the notes mention, in keyword-list order. */
  function MatchedKeywords(c: Criteria, lead: Lead): seq<string> {
    Filter(c.keywords, MentionedIn(lead))
  }

  /** Each keyword is matched at most once, and exactly when the notes mention it. */
  lemma {:induction false} MatchedKeywordsExact(c: Criteria, lead: Lead)
    ensures forall k :: k in MatchedKeywords(c, lead) ==> k in c.keywords && Mentions(lead, k)
    ensures forall k :: k in c.keywords && Mentions(lead, k) ==> k in MatchedKeywords(c, lead)
    ensures |MatchedKeywords(c, lead)| <= |c.keywords|
  {
    var m := MentionedIn(lead);
    assert forall k :: m(k) == Mentions(lead, k);
  }

  /** Absent or empty notes match no keyword. */
  lemma {:induction false} NoNotesNoMatches(c: Criteria, lead: Lead)
    requires !HasNotes(lead)
    ensures MatchedKeywords(c, lead) == []
    ensures RawRuleScore(c, lead) ==
      Add(Add(Num(50), PriorityPoints(SourcePriority(c, lead.source))),
        Num(if InDistress(lead.amountOwed) then 10 else 0))
  {
    FilterNone(c.keywords, MentionedIn(lead));
  }

  /**
   * The amount owed exceeds 1000, reading only the first run of digits as
   * `match(/(\d+)/)` followed by `parseInt` does.
   */
  predicate InDistress(amountOwed: Option<string>) {
    amountOwed.Some? && amountOwed.value != "" &&
    var run := FirstDigitRun(amountOwed.value);
    run.Some? && DigitsValue(run.value) > 1000
  }

  /** `Math.min(matches * 5, 20)`: 5 points per keyword, at most 20. */
  function KeywordBonus(matches: nat): (b: nat)
    ensures b <= 20 && b <= 5 * matches
    ensures matches <= 4 ==> b == 5 * matches
  {
    if matches * 5 <= 20 then matches * 5 else 20
  }

  /** The score before the clamp to [1, 100]. */
  function RawRuleScore(c: Criteria, lead: Lead): Number {
    Add(Add(Num(50), PriorityPoints(SourcePriority(c, lead.source))),
      Num(KeywordBonus(|MatchedKeywords(c, lead)|) + (if InDistress(lead.amountOwed) then 10 else 0)))
  }

  function Clamp(x: int, lo: int, hi: int): (r: int)
    requires lo <= hi
    ensures lo <= r <= hi
    ensures lo <= x <= hi ==> r == x
  {
    Min(hi, Max(lo, x))
  }

  function RuleScore(c: Criteria, lead: Lead): Number {
    ClampNumber(RawRuleScore(c, lead))
  }

  /**
   * The source, with its first '_' turned into a space, when its priority
   * exceeds 5 (`NaN > 5` is false).
   */
  function SourceMotivators(c: Criteria, lead: Lead): seq<string> {
    var p := SourcePriority(c, lead.source);
    if p.Rank? && p.p > 5 then [ReplaceFirst(lead.source, "_", " ")] else []
  }

  /**
   * Source motivator, then each mentioned keyword not yet listed, then
   * "financial distress" when the amount owed exceeds 1000.
   */
  function RuleMotivators(c: Criteria, lead: Lead): seq<string> {
    AppendAllNew(SourceMotivators(c, lead), MatchedKeywords(c, lead)) +
    (if InDistress(lead.amountOwed) then ["financial distress"] else [])
  }

  function RuleAnalysis(score: Number, source: string, matches: nat): string {
    "Rule-based score of " + NumberText(score) + " calculated based on lead source (" +
    source + ") and " + IntToString(matches) + " motivation keywords found."
  }

  /**
   * `calculateRuleBasedScore`: a running score and a motivator list
   * updated by a pass over the keyword list.
   */
  method CalculateRuleBasedScore(c: Criteria, lead: Lead) returns (r: ScoreResult)
    ensures r.score == RuleScore(c, lead)
    ensures r.motivators == RuleMotivators(c, lead)
    ensures r.analysis == RuleAnalysis(r.score, lead.source, |MatchedKeywords(c, lead)|)
  {
    var score := Num(50);
    var motivators: seq<string> := [];
    var sourceScore := SourcePriority(c, lead.source);
    score := Add(score, PriorityPoints(sourceScore));
    if sourceScore.Rank? && sourceScore.p > 5 {
      motivators := motivators + [ReplaceFirst(lead.source, "_", " ")];
    }
    assert motivators == SourceMotivators(c, lead);
    var keywordMatches := 0;
    if HasNotes(lead) {
      keywordMatches, motivators := MatchKeywords(lead, c.keywords, motivators);
    } else {
      NoNotesNoMatches(c, lead);
    }
    assert keywordMatches == |MatchedKeywords(c, lead)|;
    assert motivators == AppendAllNew(SourceMotivators(c, lead), MatchedKeywords(c, lead));
    score := Add(score, Num(KeywordBonus(keywordMatches)));
    score, motivators := CheckAmountOwed(lead, score, motivators);
    assert score == RawRuleScore(c, lead);
    assert motivators == RuleMotivators(c, lead);
    score := ClampNumber(score);
    r := ScoreResult(score, RuleAnalysis(score, lead.source, keywordMatches), motivators);
  }

  /** The amount-owed step: +10 and "financial distress" when the amount exceeds 1000. */
  method CheckAmountOwed(lead: Lead, score0: Number, motivators0: seq<string>)
    returns (score: Number, motivators: seq<string>)
    ensures score == Add(score0, Num(if InDistress(lead.amountOwed) then 10 else 0))
    ensures motivators ==
      motivators0 + (if InDistress(lead.amountOwed) then ["financial distress"] else [])
  {
    score, motivators := score0, motivators0;
    if lead.amountOwed.Some? && lead.amountOwed.value != "" {
      var amountMatch := FirstDigitRun(lead.amountOwed.value);
      if amountMatch.Some? {
        var amount := DigitsValue(amountMatch.value);
        if amount > 1000 {
          score := Add(score, Num(10));
          motivators := motivators + ["financial distress"];
        }
      }
    }
  }

  /**
   * The `forEach` over the keyword list: each keyword the lower-cased notes
   * contain is counted, and appended to `motivators` unless already there.
   */
  method MatchKeywords(lead: Lead, keywords: seq<string>, start: seq<string>)
    returns (matches: nat, motivators: seq<string>)
    requires HasNotes(lead)
    ensures matches == |Filter(keywords, MentionedIn(lead))|
    ensures motivators == AppendAllNew(start, Filter(keywords, MentionedIn(lead)))
  {
    var notesLower := ToLower(lead.notes.value);
    ghost var mentions := MentionedIn(lead);
    matches, motivators := 0, start;
    for i := 0 to |keywords|
      invariant matches == |Filter(keywords[..i], mentions)|
      invariant motivators == AppendAllNew(start, Filter(keywords[..i], mentions))
    {
      var keyword := keywords[i];
      MatchStep(keywords, i, mentions, start);
      assert mentions(keyword) == Contains(notesLower, ToLower(keyword));
      matches, motivators := CountMatch(notesLower, keyword, matches, motivators);
    }
    assert keywords[..|keywords|] == keywords;
  }

  /** The loop body of `MatchKeywords`: count a mentioned keyword, and list it once. */
  method CountMatch(notesLower: string, keyword: string, matches: nat, motivators: seq<string>)
    returns (matches': nat, motivators': seq<string>)
    ensures Contains(notesLower, ToLower(keyword)) ==>
      matches' == matches + 1 && motivators' == AppendNew(motivators, keyword)
    ensures !Contains(notesLower, ToLower(keyword)) ==>
      matches' == matches && motivators' == motivators
  {
    matches', motivators' := matches, motivators;
    if Contains(notesLower, ToLower(keyword)) {
      matches' := matches + 1;
      if keyword !in motivators {
        motivators' := motivators + [keyword];
      }
    }
  }

  /** One more keyword extends the match list by that keyword, if it matches. */
  lemma {:induction false} MatchStep(keywords: seq<string>, i: nat, p: string -> bool, start: seq<string>)
    requires i < |keywords|
    ensures p(keywords[i]) ==>
      |Filter(keywords[..i + 1], p)| == |Filter(keywords[..i], p)| + 1 &&
      AppendAllNew(start, Filter(keywords[..i + 1], p)) ==
        AppendNew(AppendAllNew(start, Filter(keywords[..i], p)), keywords[i])
    ensures !p(keywords[i]) ==> Filter(keywords[..i + 1], p) == Filter(keywords[..i], p)
  {
    var before := Filter(keywords[..i], p);
    assert keywords[..i + 1] == keywords[..i] + [keywords[i]];
    FilterAppend(keywords[..i], [keywords[i]], p);
    if p(keywords[i]) {
      assert Filter([keywords[i]], p) == [keywords[i]];
      AppendAllNewSnoc(start, before, keywords[i]);
    } else {
      assert Filter([keywords[i]], p) == [];
      assert before + [] == before;
    }
  }

  /**
   * A source naming an inherited member makes the score `NaN`. Every other
   * source adds at least 5, so the raw score is at least 55 and the lower
   * clamp never fires; with priorities of at most 9 the returned score lies
   * in [55, 100].
   */
  lemma {:induction false} RuleScoreBounds(c: Criteria, lead: Lead)
    requires WellFormed(c)
    ensures RuleScore(c, lead).NaN? <==> lead.source in InheritedNames
    ensures RawRuleScore(c, lead).Num? ==> 55 <= RawRuleScore(c, lead).n <= 125
    ensures RuleScore(c, lead).Num? ==> 55 <= RuleScore(c, lead).n <= 100
    ensures RawRuleScore(c, lead).Num? && RawRuleScore(c, lead).n <= 100 ==>
      RuleScore(c, lead) == RawRuleScore(c, lead)
  {
    var p := SourcePriority(c, lead.source);
    var b := KeywordBonus(|MatchedKeywords(c, lead)|);
    assert p.Rank? ==> 1 <= p.p <= 9;
    assert b <= 20;
  }

  /**
   * The source "constructor" reads `Object` from the table: the score is
   * `NaN`, so the analysis reads "Rule-based score of NaN", and the source
   * is no motivator.
   */
  lemma ConstructorSourceIsNaN(lead: Lead)
    requires lead.source == "constructor"
    ensures RuleScore(LeadScoringCriteria, lead) == NaN
    ensures SourceMotivators(LeadScoringCriteria, lead) == []
    ensures NumberText(RuleScore(LeadScoringCriteria, lead)) == "NaN"
  {
    SourcePrioritiesOwnKeys();
    assert lead.source in InheritedNames;
    InheritedSourceIsNaN(LeadScoringCriteria, lead);
  }

  /** An inherited name that is no own key gives `NaN` and no source motivator. */
  lemma InheritedSourceIsNaN(c: Criteria, lead: Lead)
    requires lead.source in InheritedNames && lead.source !in c.priorities
    ensures RuleScore(c, lead) == NaN
    ensures SourceMotivators(c, lead) == []
    ensures NumberText(RuleScore(c, lead)) == "NaN"
  {
    assert SourcePriority(c, lead.source) == Inherited;
  }

  /** A keyword is a motivator exactly when the notes mention it (or it names the source). */
  lemma {:induction false} KeywordMotivators(c: Criteria, lead: Lead, keyword: string)
    requires WellFormed(c)
    requires keyword in c.keywords
    ensures Mentions(lead, keyword) ==> keyword in RuleMotivators(c, lead)
    ensures keyword in RuleMotivators(c, lead) ==>
      Mentions(lead, keyword) || keyword in SourceMotivators(c, lead)
  {
    var start, matched := SourceMotivators(c, lead), MatchedKeywords(c, lead);
    var listed := AppendAllNew(start, matched);
    var tail := if InDistress(lead.amountOwed) then ["financial distress"] else [];
    assert RuleMotivators(c, lead) == listed + tail;
    AppendAllNewDistinct(start, matched);
    MatchedKeywordsExact(c, lead);
    assert keyword !in tail;
    assert keyword in listed <==> keyword in start || keyword in matched;
  }

  /** No motivator is listed twice. */
  lemma {:induction false} MotivatorsDistinct(c: Criteria, lead: Lead)
    requires WellFormed(c)
    ensures Distinct(RuleMotivators(c, lead))
  {
    var start, matched := SourceMotivators(c, lead), MatchedKeywords(c, lead);
    var listed := AppendAllNew(start, matched);
    AppendAllNewDistinct(start, matched);
    if InDistress(lead.amountOwed) {
      SourceMotivatorsNotDistress(c, lead);
      MatchedKeywordsExact(c, lead);
      assert "financial distress" !in matched;
      assert "financial distress" !in listed;
      assert RuleMotivators(c, lead) == AppendNew(listed, "financial distress");
    } else {
      assert RuleMotivators(c, lead) == listed + [];
      assert listed + [] == listed;
    }
  }

  /** A source motivator keeps the source's length, which is never the phrase's. */
  lemma {:induction false} SourceMotivatorsNotDistress(c: Criteria, lead: Lead)
    requires WellFormed(c)
    ensures "financial distress" !in SourceMotivators(c, lead)
  {
    if SourceMotivators(c, lead) != [] {
      ReplaceFirstLength(lead.source);
    }
  }

  /** Replacing one character by one character keeps the length. */
  lemma {:induction false} ReplaceFirstLength(s: string)
    ensures |ReplaceFirst(s, "_", " ")| == |s|
  {
  }

  /** "$4,200" is read as 4: only the first run of digits counts. */
  lemma CommaAmountNotDistress()
    ensures FirstDigitRun("$4,200") == Some("4")
    ensures !InDistress(Some("$4,200"))
  {
    assert "$4,200"[1..] == "4,200";
    assert LeadingDigits("4,200") == "4";
  }

  /** The reply of the AI service, reduced to what the code inspects. */
  datatype AiScore = NumberScore(x: real) | NotANumber

  datatype AiReply =
    | NoApiKey
    | CallFailed
    | EmptyResponse
    | Unparseable
    | Parsed(score: AiScore, analysis: string, motivators: Option<seq<string>>)

  /** `Math.round`: halves round towards positive infinity. */
  function Round(x: real): int {
    (x + 0.5).Floor
  }

  /**
   * `scoreLeadWithAI` once the AI reply is known. `analysis` and
   * `motivators` here are the reply's text and text list when it has them.
   */
  method ScoreLeadWithAi(lead: Lead, reply: AiReply) returns (r: ScoreResult)
    ensures r.score.Num? ==> 1 <= r.score.n <= 100
    ensures r.score.NaN? <==> !reply.Parsed? && lead.source in InheritedNames
    ensures !reply.Parsed? ==>
      r.score == RuleScore(LeadScoringCriteria, lead) &&
      r.motivators == RuleMotivators(LeadScoringCriteria, lead) &&
      r.analysis == RuleAnalysis(r.score, lead.source, |MatchedKeywords(LeadScoringCriteria, lead)|)
    ensures reply.Parsed? && reply.score.NumberScore? ==>
      r.score == Num(Clamp(Round(reply.score.x), 1, 100))
    ensures reply.Parsed? && reply.score.NotANumber? ==> r.score == Num(50)
    ensures reply.Parsed? && reply.analysis != "" ==> r.analysis == reply.analysis
    ensures reply.Parsed? && reply.analysis == "" ==> r.analysis == "No analysis provided"
    ensures reply.Parsed? && reply.motivators.Some? ==> r.motivators == reply.motivators.value
    ensures reply.Parsed? && reply.motivators.None? ==> r.motivators == []
  {
    if !reply.Parsed? {
      r := RuleBasedFallback(lead);
      return;
    }
    r := ParsedResult(reply);
  }

  /**
   * The result built from a parsed reply: a numeric score rounded and
   * clamped, anything else 50; the analysis or "No analysis provided"; the
   * motivators or none.
   */
  function ParsedResult(reply: AiReply): (r: ScoreResult)
    requires reply.Parsed?
    ensures r.score.Num? && 1 <= r.score.n <= 100
    ensures reply.score.NumberScore? ==> r.score == Num(Clamp(Round(reply.score.x), 1, 100))
    ensures reply.score.NotANumber? ==> r.score == Num(50)
    ensures reply.analysis != "" ==> r.analysis == reply.analysis
    ensures reply.analysis == "" ==> r.analysis == "No analysis provided"
    ensures reply.motivators.Some? ==> r.motivators == reply.motivators.value
    ensures reply.motivators.None? ==> r.motivators == []
  {
    var score := if reply.score.NumberScore? then Num(Min(100, Max(1, Round(reply.score.x)))) else Num(50);
    var analysis := if reply.analysis != "" then reply.analysis else "No analysis provided";
    var motivators := if reply.motivators.Some? then reply.motivators.value else [];
    ScoreResult(score, analysis, motivators)
  }

  /** `calculateRuleBasedScore(lead)` on the shipped criteria, with the facts `ScoreLeadWithAi` passes on. */
  method RuleBasedFallback(lead: Lead) returns (r: ScoreResult)
    ensures r.score == RuleScore(LeadScoringCriteria, lead)
    ensures r.motivators == RuleMotivators(LeadScoringCriteria, lead)
    ensures r.analysis == RuleAnalysis(r.score, lead.source, |MatchedKeywords(LeadScoringCriteria, lead)|)
    ensures r.score.NaN? <==> lead.source in InheritedNames
    ensures r.score.Num? ==> 1 <= r.score.n <= 100
  {
    r := CalculateRuleBasedScore(LeadScoringCriteria, lead);
    FallbackScoreBounds(lead);
  }

  /** The rule-based score of the shipped criteria, as `ScoreLeadWithAi` returns it. */
  lemma {:induction false} FallbackScoreBounds(lead: Lead)
    ensures RuleScore(LeadScoringCriteria, lead).NaN? <==> lead.source in InheritedNames
    ensures RuleScore(LeadScoringCriteria, lead).Num? ==> 1 <= RuleScore(LeadScoringCriteria, lead).n <= 100
  {
    ScoringCriteriaWellFormed();
    RuleScoreBounds(LeadScoringCriteria, lead);
  }

  /** The score as a lead column holds it: `NaN` becomes null, as JSON writes it. */
  function StoredScore(x: Number): (r: Option<int>)
    ensures r.Some? <==> x.Num?
    ensures r.Some? ==> r.value == x.n
  {
    if x.Num? then Some(x.n) else None
  }

  /** `updateLeadMotivationScore`: the score replaces the old one and the analysis is appended. */
  function UpdateLeadMotivationScore(lead: Lead, result: ScoreResult): (r: Lead)
    ensures r.motivationScore == StoredScore(result.score)
    ensures HasNotes(lead) ==>
      r.notes == Some(lead.notes.value + "\n\nAI Analysis: " + result.analysis)
    ensures !HasNotes(lead) ==> r.notes == Some("AI Analysis: " + result.analysis)
    ensures r.(motivationScore := lead.motivationScore, notes := lead.notes) == lead
  {
    var notes := if HasNotes(lead) then lead.notes.value + "\n\nAI Analysis: " + result.analysis
                 else "AI Analysis: " + result.analysis;
    lead.(motivationScore := StoredScore(result.score), notes := Some(notes))
  }

  /** The same change, written as a storage update patch of two fields. */
  lemma {:induction false} UpdateIsScorePatch(lead: Lead, result: ScoreResult)
    ensures UpdateLeadMotivationScore(lead, result) ==
      Storage.PatchLead(lead, Storage.ScoreAndNotes(StoredScore(result.score),
        UpdateLeadMotivationScore(lead, result).notes.value))
  {
  }
}
