/**
 * The assistant chat (client/src/components/chat/ChatInterface.tsx): a send
 * appends the user's message and exactly one canned reply chosen by keyword
 * rules. Retry on an error reply finds the user message to send again, and a
 * quick reply puts its text in the input; both then run the send of an
 * earlier render, which reads the input as it was before.
 * Clock readings, which the component uses for message ids, are parameters.
 */
module Chat {
  import opened Core
  import opened Text

  datatype MessageType = User | Action | Teach | Error | System

  /** A chat message; no quick replies is the empty list. */
  datatype Message = Message(id: string, kind: MessageType, content: string, quickReplies: seq<string>, showRetry: bool)

  const Welcome := Message("welcome", System,
    "# Welcome to RezGuru AI!\n\nI'm your personal real estate assistant. How can I help you today?",
    ["Find leads in my area", "Generate a purchase offer", "Set up a scraping job"], false)

  /** The keyword rules, in the order they are tried. */
  datatype Rule = FindLead | Offer | TaxTip | Scrape | Failure | Fallback

  /** Position of each rule in the chain. */
  function Rank(rule: Rule): nat {
    match rule
    case FindLead => 0
    case Offer => 1
    case TaxTip => 2
    case Scrape => 3
    case Failure => 4
    case Fallback => 5
  }

  /** The keywords each rule looks for in the lower-cased input; the default matches anything. */
  predicate Matches(rule: Rule, lower: string) {
    match rule
    case FindLead => Contains(lower, "find") && Contains(lower, "lead")
    case Offer => Contains(lower, "generate") || Contains(lower, "offer") || Contains(lower, "contract")
    case TaxTip => Contains(lower, "tax") && Contains(lower, "delinquent")
    case Scrape => Contains(lower, "scrape") || Contains(lower, "scraping")
    case Failure => Contains(lower, "error") || Contains(lower, "fail")
    case Fallback => true
  }

  /** The first rule in the chain whose keywords occur in the lower-cased input. */
  function RuleFor(lower: string): (r: Rule)
    ensures Matches(r, lower)
    ensures forall q :: Rank(q) < Rank(r) ==> !Matches(q, lower)
  {
    if Contains(lower, "find") && Contains(lower, "lead") then FindLead
    else if Contains(lower, "generate") || Contains(lower, "offer") || Contains(lower, "contract") then Offer
    else if Contains(lower, "tax") && Contains(lower, "delinquent") then TaxTip
    else if Contains(lower, "scrape") || Contains(lower, "scraping") then Scrape
    else if Contains(lower, "error") || Contains(lower, "fail") then Failure
    else Fallback
  }

  /** Exactly one rule is the first that matches. */
  lemma {:induction false} FirstMatchUnique(lower: string, rule: Rule)
    requires Matches(rule, lower) && forall q :: Rank(q) < Rank(rule) ==> !Matches(q, lower)
    ensures rule == RuleFor(lower)
  {
    var r := RuleFor(lower);
    assert Rank(rule) == Rank(r);
  }

  const FindLeadText := "I'll help you find high-quality leads. What area are you targeting?"
  const OfferText := "I can generate a purchase offer for you. Which property do you want to make an offer on?"
  const TaxTipText :=
    "**\U{1F4DA} Guru Tip**: Tax-delinquent owners:\n- 23% more likely to sell below market\n- Average 11-month redemption period \U{2192} **urgency leverage**\n\n*Want me to set up a tax-delinquent scraper?*"
  const ScrapeText := "Setting up a scraping job. Which data source would you like to scrape?"
  const FailureText := "I encountered an error with that operation. It looks like the data source is temporarily unavailable."
  const FallbackText :=
    "I'm here to help with your real estate needs. Would you like me to find leads, generate documents, or set up automation workflows?"

  /** The text of each rule's reply. */
  function ReplyText(rule: Rule): string {
    match rule
    case FindLead => FindLeadText
    case Offer => OfferText
    case TaxTip => TaxTipText
    case Scrape => ScrapeText
    case Failure => FailureText
    case Fallback => FallbackText
  }

  /** The quick replies offered with each rule's reply. */
  function QuickReplies(rule: Rule): seq<string> {
    match rule
    case FindLead => ["Phoenix, AZ", "Miami, FL", "Dallas, TX"]
    case TaxTip => ["Yes", "No"]
    case Scrape => ["Tax Delinquent Records", "Probate Records", "Foreclosure Listings"]
    case Fallback => ["Find leads", "Generate documents", "Set up workflow"]
    case _ => []
  }

  /**
   * The canned reply of each rule, its id built from the clock reading `now`.
   * Only the error reply offers Retry, and only the find-lead, tax, scrape and
   * default replies offer quick replies.
   */
  function ReplyFor(rule: Rule, now: nat): (m: Message)
    ensures m.showRetry <==> m.kind == Error
    ensures m.showRetry <==> rule == Failure
    ensures m.quickReplies != [] <==> rule in {FindLead, TaxTip, Scrape, Fallback}
    ensures m.kind != User && m.content == ReplyText(rule)
  {
    var t := NatToString(now);
    var kind := match rule
      case TaxTip => Teach
      case Scrape => Action
      case Failure => Error
      case _ => System;
    var prefix := match rule
      case TaxTip => "teach-"
      case Scrape => "action-"
      case Failure => "error-"
      case _ => "system-";
    Message(prefix + t, kind, ReplyText(rule), QuickReplies(rule), rule == Failure)
  }

  /** The reply to an input. */
  function Reply(input: string, now: nat): Message {
    ReplyFor(RuleFor(ToLower(input)), now)
  }

  /** An input mentioning both "find" and "lead" always gets the lead-search reply, whatever else it says. */
  lemma {:induction false} FindLeadFirst(input: string, now: nat)
    requires Contains(ToLower(input), "find") && Contains(ToLower(input), "lead")
    ensures Reply(input, now).quickReplies == ["Phoenix, AZ", "Miami, FL", "Dallas, TX"]
  {
  }

  /** `!inputValue.trim()`. */
  predicate Blank(input: string) {
    Trim(input) == ""
  }

  /** Blank inputs are exactly those made of white space. */
  lemma {:induction false} BlankIsSpace(input: string)
    ensures Blank(input) <==> forall i :: 0 <= i < |input| ==> IsSpace(input[i])
  {
    TrimStartSuffix(input);
    var s := TrimStart(input);
    TrimEndPrefix(s);
    if !Blank(input) {
      assert s != [];
      assert !IsSpace(input[|input| - |s|]);
    }
  }

  function UserMessage(input: string, now: nat): Message {
    Message("user-" + NatToString(now), User, input, [], false)
  }

  function LoadingMessage(now: nat): Message {
    Message("action-" + NatToString(now), Action, "Processing your request...", [], false)
  }

  /**
   * The messages after a send with the clock readings `t1` (user message),
   * `t2` (loading message) and `t3` (reply): the loading message is added and
   * then every message with its id is removed.
   */
  function AfterSend(ms: seq<Message>, input: string, t1: nat, t2: nat, t3: nat): seq<Message> {
    Filter(ms + [UserMessage(input, t1)] + [LoadingMessage(t2)], Without(LoadingMessage(t2).id)) + [Reply(input, t3)]
  }

  /** `m => m.id !== id`. */
  function Without(id: string): Message -> bool {
    (m: Message) => m.id != id
  }

  lemma {:induction false} FilterKeepsAll<T>(s: seq<T>, keep: T -> bool)
    requires forall k :: 0 <= k < |s| ==> keep(s[k])
    ensures Filter(s, keep) == s
    decreases |s|
  {
    if s != [] {
      FilterKeepsAll(s[1..], keep);
    }
  }

  /**
   * When no earlier message carries the loading message's id, a send leaves
   * the history followed by the user's message and exactly one reply.
   */
  lemma {:induction false} SendAppendsTwo(ms: seq<Message>, input: string, t1: nat, t2: nat, t3: nat)
    requires forall k :: 0 <= k < |ms| ==> ms[k].id != LoadingMessage(t2).id
    ensures AfterSend(ms, input, t1, t2, t3) == ms + [UserMessage(input, t1), Reply(input, t3)]
  {
    var loading := LoadingMessage(t2);
    var user := UserMessage(input, t1);
    assert user.id[0] == 'u' && loading.id[0] == 'a';
    DropLoading(ms, user, loading);
  }

  lemma {:induction false} DropLoading(ms: seq<Message>, user: Message, loading: Message)
    requires forall k :: 0 <= k < |ms| ==> ms[k].id != loading.id
    requires user.id != loading.id
    ensures Filter(ms + [user] + [loading], Without(loading.id)) == ms + [user]
  {
    AppendIds(ms, user, loading.id);
    DropLast(ms + [user], loading);
  }

  lemma {:induction false} AppendIds(ms: seq<Message>, user: Message, id: string)
    requires forall k :: 0 <= k < |ms| ==> ms[k].id != id
    requires user.id != id
    ensures forall k :: 0 <= k < |ms + [user]| ==> (ms + [user])[k].id != id
  {
  }

  /** Removing a message's id from a list it ends, and that no other message carries, drops just that message. */
  lemma {:induction false} DropLast(front: seq<Message>, loading: Message)
    requires forall k :: 0 <= k < |front| ==> front[k].id != loading.id
    ensures Filter(front + [loading], Without(loading.id)) == front
  {
    var keep := Without(loading.id);
    assert Filter([loading], keep) == [] by {
      assert [loading][1..] == [];
    }
    FilterAppend(front, [loading], keep);
    FilterKeepsAll(front, keep);
  }

  /** `messages.findIndex(m => m.id === id)`. */
  function FindIndex(ms: seq<Message>, id: string): (r: Option<nat>)
    ensures r.Some? ==> r.value < |ms| && ms[r.value].id == id && forall j :: 0 <= j < r.value ==> ms[j].id != id
    ensures r.None? ==> forall j :: 0 <= j < |ms| ==> ms[j].id != id
    decreases |ms|
  {
    if ms == [] then None
    else if ms[0].id == id then Some(0)
    else match FindIndex(ms[1..], id)
      case None => None
      case Some(k) => Some(k + 1)
  }

  /** The last user message at or before index `k`. */
  function NearestUser(ms: seq<Message>, k: int): (r: Option<nat>)
    requires -1 <= k < |ms|
    ensures r.Some? ==> r.value <= k && ms[r.value].kind == User && forall j :: r.value < j <= k ==> ms[j].kind != User
    ensures r.None? ==> forall j :: 0 <= j <= k ==> ms[j].kind != User
    decreases k + 1
  {
    if k < 0 then None else if ms[k].kind == User then Some(k) else NearestUser(ms, k - 1)
  }

  /**
   * What Retry on the message `id` sends again: nothing when the message is
   * missing or first, or when no user message precedes it; otherwise the
   * content of the nearest user message before it.
   */
  function RetryTarget(ms: seq<Message>, id: string): Option<string> {
    match FindIndex(ms, id)
    case None => None
    case Some(e) =>
      if e == 0 then None
      else match NearestUser(ms, e - 1)
        case None => None
        case Some(u) => Some(ms[u].content)
  }

  /** `handleRetry`'s backward walk. */
  method RetryLookup(ms: seq<Message>, id: string) returns (r: Option<string>)
    ensures r == RetryTarget(ms, id)
  {
    var found := FindIndex(ms, id);
    if found.None? || found.value == 0 {
      return None;
    }
    var u: int := found.value - 1;
    while u >= 0 && ms[u].kind != User
      invariant -1 <= u < found.value
      invariant NearestUser(ms, found.value - 1) == NearestUser(ms, u)
      decreases u
    {
      u := u - 1;
    }
    if u >= 0 {
      r := Some(ms[u].content);
    } else {
      r := None;
    }
  }

  /** The text Retry sends is that of a user message before the retried one, with no user message between. */
  lemma {:induction false} RetryTargetIsNearest(ms: seq<Message>, id: string)
    ensures var r := RetryTarget(ms, id);
      r.Some? ==> exists e, u :: (0 <= u < e < |ms| && ms[e].id == id && ms[u].kind == User && ms[u].content == r.value &&
        forall j :: u < j < e ==> ms[j].kind != User)
    ensures RetryTarget(ms, id).None? <==>
      FindIndex(ms, id).None? || FindIndex(ms, id).value == 0 || forall j :: 0 <= j < FindIndex(ms, id).value ==> ms[j].kind != User
  {
    match FindIndex(ms, id)
    case None =>
    case Some(e) =>
      if e > 0 {
        match NearestUser(ms, e - 1)
        case None =>
        case Some(u) =>
          assert 0 <= u < e < |ms| && ms[e].id == id && ms[u].kind == User;
      }
  }

  /** The chat's state. */
  class ChatState {
    var messages: seq<Message>
    var inputValue: string
    var isLoading: bool

    constructor()
      ensures messages == [Welcome] && inputValue == "" && !isLoading
    {
      messages := [Welcome];
      inputValue := "";
      isLoading := false;
    }

    method SetInput(s: string)
      modifies this`inputValue
      ensures inputValue == s
    {
      inputValue := s;
    }

    /** `handleSendMessage`, its delays taken as already elapsed. */
    method Send(t1: nat, t2: nat, t3: nat)
      modifies this
      ensures Blank(old(inputValue)) ==>
        messages == old(messages) && inputValue == old(inputValue) && isLoading == old(isLoading)
      ensures !Blank(old(inputValue)) ==>
        messages == AfterSend(old(messages), old(inputValue), t1, t2, t3) && inputValue == "" && !isLoading
    {
      SendCaptured(inputValue, t1, t2, t3);
    }

    /**
     * The `handleSendMessage` of the render that was current when its
     * caller ran: it reads the input value `captured` of that render, while
     * its message updates apply to the latest list.
     */
    method SendCaptured(captured: string, t1: nat, t2: nat, t3: nat)
      modifies this
      ensures Blank(captured) ==>
        messages == old(messages) && inputValue == old(inputValue) && isLoading == old(isLoading)
      ensures !Blank(captured) ==>
        messages == AfterSend(old(messages), captured, t1, t2, t3) && inputValue == "" && !isLoading
    {
      if Blank(captured) {
        return;
      }
      var input := captured;
      messages := messages + [UserMessage(input, t1)];
      inputValue := "";
      isLoading := true;
      var loading := LoadingMessage(t2);
      messages := messages + [loading];
      messages := Filter(messages, Without(loading.id));
      messages := messages + [Reply(input, t3)];
      isLoading := false;
    }

    /**
     * `handleQuickReply`: the reply goes into the input, and the send the
     * timer runs is the clicked render's, which sees the input as it was
     * before. A blank input sends nothing and leaves the reply in the box;
     * otherwise the earlier input is sent and the box ends empty.
     */
    method QuickReply(reply: string, t1: nat, t2: nat, t3: nat)
      modifies this
      ensures Blank(old(inputValue)) ==>
        messages == old(messages) && inputValue == reply && isLoading == old(isLoading)
      ensures !Blank(old(inputValue)) ==>
        messages == AfterSend(old(messages), old(inputValue), t1, t2, t3) && inputValue == "" && !isLoading
    {
      var captured := inputValue;
      inputValue := reply;
      SendCaptured(captured, t1, t2, t3);
    }

    /**
     * `handleRetry`: with no user message to send again nothing happens.
     * Otherwise that message's text goes into the input and, as with a quick
     * reply, the scheduled send reads the input as it was before: a blank
     * input sends nothing and leaves the text in the box, and any other
     * input is sent itself, leaving the box empty.
     */
    method Retry(messageId: string, t1: nat, t2: nat, t3: nat)
      modifies this
      ensures RetryTarget(old(messages), messageId).None? ==>
        messages == old(messages) && inputValue == old(inputValue) && isLoading == old(isLoading)
      ensures RetryTarget(old(messages), messageId).Some? && Blank(old(inputValue)) ==>
        messages == old(messages) && inputValue == RetryTarget(old(messages), messageId).value &&
        isLoading == old(isLoading)
      ensures RetryTarget(old(messages), messageId).Some? && !Blank(old(inputValue)) ==>
        messages == AfterSend(old(messages), old(inputValue), t1, t2, t3) && inputValue == "" && !isLoading
    {
      var target := RetryLookup(messages, messageId);
      if target.Some? {
        var captured := inputValue;
        inputValue := target.value;
        SendCaptured(captured, t1, t2, t3);
      }
    }
  }
}
