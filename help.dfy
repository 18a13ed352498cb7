/**
 * The help centre's question list (client/src/pages/Help.tsx): seven
 * questions with answers, filtered by a search box that ignores case.
 */
module Help {
  import opened Core
  import opened Text

  datatype FaqItem = FaqItem(id: string, question: string, answer: string)

  const Faq1 := FaqItem("item-1",
    "How do I scrape tax delinquent properties?",
    "Navigate to the 'Data Scraping' page and create a new scraping job. Select 'Tax Delinquent' as the source type, and enter the URL of your county's tax delinquent list. RezGuru AI will automatically extract the property information and create leads.")

  const Faq2 := FaqItem("item-2",
    "How does the AI lead scoring work?",
    "Our AI lead scoring analyzes various factors including property characteristics, owner situation, and market conditions to assign a motivation score from 0-100. Leads with scores above 80 are considered high-motivation sellers. The AI model is powered by HuggingFace's Zephyr-7B and continually improves as you use the system.")

  const Faq3 := FaqItem("item-3",
    "How do I set up automated SMS follow-ups?",
    "Go to the 'Automations' page and create a new workflow. Select 'Outreach Sequence' as the template, then configure your SMS messages and timing. You can set conditions based on lead status, score, or previous interactions.")

  const Faq4 := FaqItem("item-4",
    "Can I generate custom offer documents?",
    "Yes! Visit the 'Documents' page and click 'Create Document'. Select a template like 'Cash Offer' and fill in the required fields. The system will automatically generate a professional PDF document that you can download or send directly to leads.")

  const Faq5 := FaqItem("item-5",
    "What's the difference between the Free and Pro plans?",
    "The Free plan includes 100 leads per month, basic SMS functionality, and limited automation. The Pro plan ($29/month) unlocks unlimited leads, AI scoring, unlimited automations, and priority support. There's also a White-label plan ($299/month) for agencies with custom branding and API access.")

  const Faq6 := FaqItem("item-6",
    "How do I interpret the motivation score?",
    "Motivation scores range from 0-100. Scores 80+ indicate highly motivated sellers likely to accept discounted offers. Scores 60-79 suggest moderate motivation, while scores below 60 typically represent testing-the-market sellers. We recommend prioritizing leads with scores above 70.")

  const Faq7 := FaqItem("item-7",
    "How secure is my data?",
    "RezGuru AI uses enterprise-grade encryption for all data. Our self-hosted architecture means your sensitive lead information stays within your control. We employ industry-standard security practices and regular security audits to ensure your data remains protected.")

  const FaqItems := [Faq1, Faq2, Faq3, Faq4, Faq5, Faq6, Faq7]

  /** The question or the answer contains the query, ignoring case. */
  predicate Mentions(item: FaqItem, query: string) {
    Contains(ToLower(item.question), ToLower(query)) || Contains(ToLower(item.answer), ToLower(query))
  }

  function Mentioning(query: string): FaqItem -> bool {
    (item: FaqItem) => Mentions(item, query)
  }

  /** `filteredFaqs`: all items for an empty query, otherwise those that mention it. */
  function FilteredFaqs(items: seq<FaqItem>, query: string): (r: seq<FaqItem>)
    ensures |r| <= |items|
    ensures query == "" ==> r == items
    ensures forall x :: x in r <==> x in items && (query == "" || Mentions(x, query))
  {
    if query == "" then items else Filter(items, Mentioning(query))
  }

  /** Filtering keeps the items in their original order. */
  lemma {:induction false} FilteredInOrder(items: seq<FaqItem>, query: string)
    ensures IsSubsequence(FilteredFaqs(items, query), items)
  {
    if query == "" {
      EmptyQueryFilters(items);
    }
    FilterIsSubsequence(items, Mentioning(query));
  }

  /** Every text contains the empty query. */
  lemma {:induction false} ContainsEmpty(s: string)
    ensures Contains(s, "")
  {
    assert StartsWith(s[0..], "");
  }

  /**
   * The empty-query shortcut agrees with the filter: every item mentions the
   * empty string.
   */
  lemma {:induction false} EmptyQueryFilters(items: seq<FaqItem>)
    ensures Filter(items, Mentioning("")) == FilteredFaqs(items, "")
    decreases |items|
  {
    if items != [] {
      ContainsEmpty(ToLower(items[0].question));
      EmptyQueryFilters(items[1..]);
    }
  }

  /** What the card shows: the "No results found" message, or the accordion of items. */
  datatype FaqView = NoResults(query: string) | Accordion(items: seq<FaqItem>)

  function View(items: seq<FaqItem>, query: string): (v: FaqView)
    ensures v.NoResults? <==> FilteredFaqs(items, query) == []
    ensures v.Accordion? ==> v.items == FilteredFaqs(items, query)
    ensures v.NoResults? ==> v.query == query
  {
    var shown := FilteredFaqs(items, query);
    if |shown| == 0 then NoResults(query) else Accordion(shown)
  }

  /** The empty query shows every item in order, and never the message unless there are none. */
  lemma {:induction false} EmptyQueryShowsAll(items: seq<FaqItem>)
    ensures View(items, "") == if items == [] then NoResults("") else Accordion(items)
  {
  }
}
