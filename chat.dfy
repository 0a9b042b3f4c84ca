/** The fallback side of the chat endpoint (app/api/chat/route.ts): a keyword
    router that picks one of seven canned answers, and the choice, in the
    request handler, between the language model's answer and a canned answer
    with or without an explanatory note. The completion call itself is an
    input: its outcome is given as an `ApiOutcome`. */
module ChatFallback {
  import opened Wrappers
  import opened Text

  /** The seven canned answers of the fallback table. */
  datatype Template = OrderGuide | CustomerGuide | InventoryGuide | DashboardGuide | ReportGuide | HelpGuide | Welcome

  // The keywords tested for each topic, in the order the router tests them.
  const OrderWords: seq<string> := ["order", "create order", "view order"]
  const CustomerWords: seq<string> := ["customer", "client", "contact"]
  const InventoryWords: seq<string> := ["inventory", "stock", "product", "item"]
  const DashboardWords: seq<string> := ["dashboard", "metric", "revenue", "overview"]
  const ReportWords: seq<string> := ["report", "analytics", "statistics"]
  const HelpWords: seq<string> := ["help", "assist", "guide"]

  /** `text.includes(w1) || text.includes(w2) || ...` */
  predicate MentionsAny(text: string, words: seq<string>)
  {
    exists i :: 0 <= i < |words| && Contains(text, words[i])
  }

  /** getFallbackResponse: lower-case the message, then the first topic with
      a keyword in it wins; with none, the welcome answer. */
  function FallbackTemplate(userMessage: string): (t: Template)
    ensures t == OrderGuide <==> Contains(ToLower(userMessage), "order")
  {
    var message := ToLower(userMessage);
    OrderWordsMeanOrder(message);
    if MentionsAny(message, OrderWords) then OrderGuide
    else if MentionsAny(message, CustomerWords) then CustomerGuide
    else if MentionsAny(message, InventoryWords) then InventoryGuide
    else if MentionsAny(message, DashboardWords) then DashboardGuide
    else if MentionsAny(message, ReportWords) then ReportGuide
    else if MentionsAny(message, HelpWords) then HelpGuide
    else Welcome
  }

  /** The router does not see the case of the message. */
  lemma FallbackIgnoresCase(userMessage: string)
    ensures FallbackTemplate(ToLower(userMessage)) == FallbackTemplate(userMessage)
  {
    ToLowerIdempotent(userMessage);
  }

  /** "create order" and "view order" both contain "order", so the order topic
      is exactly "the message contains `order`". */
  lemma {:induction false} OrderWordsMeanOrder(text: string)
    ensures MentionsAny(text, OrderWords) <==> Contains(text, "order")
  {
    if MentionsAny(text, OrderWords) {
      var i :| 0 <= i < |OrderWords| && Contains(text, OrderWords[i]);
      if i == 1 {
        assert OccursAt("create order", "order", 7);
        ContainsTransitive(text, "create order", "order");
      } else if i == 2 {
        assert OccursAt("view order", "order", 5);
        ContainsTransitive(text, "view order", "order");
      }
    }
    if Contains(text, "order") {
      assert Contains(text, OrderWords[0]);
    }
  }

  /** The fixed priority order > customer > inventory > dashboard > report >
      help: each answer is chosen exactly when its topic is mentioned and no
      earlier topic is, and the welcome answer exactly when no keyword is. */
  lemma FallbackPriority(userMessage: string)
    ensures var m, t := ToLower(userMessage), FallbackTemplate(userMessage);
      && (t == OrderGuide <==> Contains(m, "order"))
      && (t == CustomerGuide <==> !Contains(m, "order") && MentionsAny(m, CustomerWords))
      && (t == InventoryGuide <==>
            !Contains(m, "order") && !MentionsAny(m, CustomerWords) && MentionsAny(m, InventoryWords))
      && (t == DashboardGuide <==>
            !Contains(m, "order") && !MentionsAny(m, CustomerWords) && !MentionsAny(m, InventoryWords)
            && MentionsAny(m, DashboardWords))
      && (t == ReportGuide <==>
            !Contains(m, "order") && !MentionsAny(m, CustomerWords) && !MentionsAny(m, InventoryWords)
            && !MentionsAny(m, DashboardWords) && MentionsAny(m, ReportWords))
      && (t == HelpGuide <==>
            !Contains(m, "order") && !MentionsAny(m, CustomerWords) && !MentionsAny(m, InventoryWords)
            && !MentionsAny(m, DashboardWords) && !MentionsAny(m, ReportWords) && MentionsAny(m, HelpWords))
      && (t == Welcome <==>
            !Contains(m, "order") && !MentionsAny(m, CustomerWords) && !MentionsAny(m, InventoryWords)
            && !MentionsAny(m, DashboardWords) && !MentionsAny(m, ReportWords) && !MentionsAny(m, HelpWords))
  {
    OrderWordsMeanOrder(ToLower(userMessage));
  }

  /** A message mentioning both a customer keyword and a stock keyword, but not
      "order", gets the customer answer. */
  lemma CustomerBeforeInventory(userMessage: string)
    requires !Contains(ToLower(userMessage), "order")
    requires Contains(ToLower(userMessage), "customer") && Contains(ToLower(userMessage), "stock")
    ensures FallbackTemplate(userMessage) == CustomerGuide
  {
    OrderWordsMeanOrder(ToLower(userMessage));
    assert Contains(ToLower(userMessage), CustomerWords[0]);
  }

  // =====================================================================
  // The request handler's choice of content

  /** One element of the request's `messages` array. */
  datatype ChatMessage = ChatMessage(role: string, content: Option<string>)

  /** `messages[messages.length - 1]?.content || ''`: the content of the last
      message, whatever its role, or the empty string. */
  function LastUserMessage(messages: seq<ChatMessage>): (text: string)
    ensures messages == [] ==> text == ""
  {
    if messages == [] then "" else messages[|messages| - 1].content.GetOr("")
  }

  /** An empty conversation routes the empty text, which gets the welcome answer. */
  lemma EmptyConversationGetsWelcome()
    ensures FallbackTemplate(LastUserMessage([])) == Welcome
  {
    assert ToLower("") == "";
    forall words: seq<string>, i | 0 <= i < |words| && words[i] != []
      ensures !Contains("", words[i])
    {
      EmptyContainsNothing(words[i]);
    }
  }

  /** How the completion call went: no client because no key is configured,
      an error carrying the provider's code and HTTP status, or an answer. */
  datatype ApiOutcome =
    | NoClient
    | ApiError(code: Option<string>, status: Option<int>)
    | Completed(content: string)

  /** `apiError.code === 'insufficient_quota' || apiError.status === 429` */
  predicate IsQuotaError(code: Option<string>, status: Option<int>)
    ensures code == Some("insufficient_quota") ==> IsQuotaError(code, status)
    ensures status == Some(429) ==> IsQuotaError(code, status)
    ensures code.None? && status.None? ==> !IsQuotaError(code, status)
    ensures code.Some? && code.value != "insufficient_quota" && status.Some? && status.value != 429 ==> !IsQuotaError(code, status)
  {
    code == Some("insufficient_quota") || status == Some(429)
  }

  /** The note appended after a canned answer. */
  datatype Note = NoNote | KeyNotConfigured | QuotaExhausted

  /** The `content` of the assistant message the handler returns. */
  datatype ReplyContent = Canned(template: Template, note: Note) | ModelAnswer(text: string)

  /** The handler never reports a failed completion as an error: without a
      client it answers with the routed template and the missing-key note; on
      a quota or rate-limit error with the template and the quota note; on any
      other error with the template alone. */
  function ChatReply(outcome: ApiOutcome, messages: seq<ChatMessage>): (r: ReplyContent)
    ensures outcome.Completed? <==> r.ModelAnswer?
    ensures outcome.Completed? ==> r.text == outcome.content
    ensures r.Canned? ==> r.template == FallbackTemplate(LastUserMessage(messages))
    ensures r.Canned? ==> (r.note == KeyNotConfigured <==> outcome.NoClient?)
    ensures r.Canned? ==> (r.note == QuotaExhausted <==> outcome.ApiError? && IsQuotaError(outcome.code, outcome.status))
    ensures r.Canned? ==> (r.note == NoNote <==> outcome.ApiError? && !IsQuotaError(outcome.code, outcome.status))
  {
    var fallback := FallbackTemplate(LastUserMessage(messages));
    match outcome
    case NoClient => Canned(fallback, KeyNotConfigured)
    case ApiError(code, status) =>
      if IsQuotaError(code, status) then Canned(fallback, QuotaExhausted) else Canned(fallback, NoNote)
    case Completed(content) => ModelAnswer(content)
  }
}
