/**
 * The completion client. `sendMessage` reads the stored key, builds a
 * two-message conversation, hands it to the remote completion endpoint and
 * turns the reply into text or a classified error; `getNutritionAdvice`
 * folds an optional nutrition context into the query first. The network
 * exchange itself is a parameter: `transport` maps the request that would be
 * sent to what came back.
 */
module ChatService {
  import opened Wrappers
  import opened JsString

  const BaseUrl := "https://api.openai.com/v1/chat/completions"
  const Model := "gpt-3.5-turbo"
  const MaxTokens: nat := 500

  /** The fixed persona sent as the system message of every conversation. */
  const SystemPrompt :=
    "You are NutriBox AI, a helpful nutrition assistant for a smart food analysis system. \n"
    + "    \n"
    + "    You help users with:\n"
    + "    - Nutrition advice and meal planning\n"
    + "    - Food analysis and health recommendations  \n"
    + "    - Dietary goals and tracking\n"
    + "    - General nutrition questions\n"
    + "    \n"
    + "    The user has access to a Raspberry Pi system that analyzes food items and provides nutrition data.\n"
    + "    Be friendly, helpful, and provide practical nutrition advice. Keep responses concise but informative.\n"
    + "    \n"
    + "    If asked about current food data, you can reference typical nutrition information, but mention that specific data comes from their NutriBox device."

  datatype Role = System | User | Assistant

  datatype ChatMessage = ChatMessage(role: Role, content: string)

  /** What the client posts: endpoint, bearer credential and body (temperature left out). */
  datatype Request = Request(url: string, apiKey: string, model: string,
                             messages: seq<ChatMessage>, maxTokens: nat)

  /** One entry of the reply's `choices`, reduced to `message.content`. */
  datatype Choice = Choice(content: string)

  /** An HTTP reply: status, status text and the `choices` of the JSON body, if any. */
  datatype Response = Response(status: int, statusText: string, choices: Option<seq<Choice>>)

  /** A value thrown by the network layer: an `Error` instance with its message, or anything else. */
  datatype Thrown = ErrorObject(message: string) | OtherValue

  /** The outcome of one network exchange. */
  datatype Exchange = Responded(response: Response) | Threw(thrown: Thrown)

  /** The errors `sendMessage` can reject with. */
  datatype ChatError =
    | KeyNotConfigured
    | InvalidApiKey
    | RateLimited
    | RequestFailed(statusText: string)
    | NoResponse
    | Rethrown(message: string)
    | Unexpected

  /** The message of the `Error` each kind is thrown as. */
  function ErrorMessage(e: ChatError): (r: string)
    ensures e.Rethrown? ==> r == e.message
    ensures e.RequestFailed? ==> |r| > |e.statusText| && r[|r| - |e.statusText|..] == e.statusText
    ensures r == "" ==> e.Rethrown?
  {
    match e
    case KeyNotConfigured => "OpenAI API key not configured. Please set it in Settings."
    case InvalidApiKey => "Invalid API key. Please check your OpenAI API key in Settings."
    case RateLimited => "Rate limit exceeded. Please try again in a moment."
    case RequestFailed(text) => "API request failed: " + text
    case NoResponse => "No response from ChatGPT"
    case Rethrown(message) => message
    case Unexpected => "An unexpected error occurred while contacting ChatGPT"
  }

  /** The five fixed messages are pairwise distinct, so a caller can tell those errors apart by message. */
  lemma FixedMessagesDistinct()
    ensures var fixed := [ErrorMessage(KeyNotConfigured), ErrorMessage(InvalidApiKey),
                          ErrorMessage(RateLimited), ErrorMessage(NoResponse), ErrorMessage(Unexpected)];
            forall i, j :: 0 <= i < j < |fixed| ==> fixed[i] != fixed[j]
  {
  }

  /** `response.ok`. */
  predicate IsOk(status: int) {
    200 <= status <= 299
  }

  /**
   * `getApiKey`: `stored` is what local storage holds under
   * `nutribox_openai_key`. The result is the stored key, unless it is absent or empty (a falsy
   * value), in which case the call fails with the configuration error.
   */
  function GetApiKey(stored: Option<string>): (r: Result<string, ChatError>)
    ensures r.Success? <==> stored.Some? && stored.value != ""
    ensures r.Success? ==> r.value == stored.value
    ensures r.Failure? ==> r.error == KeyNotConfigured
  {
    if stored.Some? && stored.value != "" then Success(stored.value) else Failure(KeyNotConfigured)
  }

  /** The request `sendMessage` posts for `userMessage` under `apiKey`. */
  function BuildRequest(apiKey: string, userMessage: string): (req: Request)
    ensures |req.messages| == 2
    ensures req.messages[0] == ChatMessage(System, SystemPrompt)
    ensures req.messages[1] == ChatMessage(User, userMessage)
    ensures req.apiKey == apiKey && req.url == BaseUrl
    ensures req.model == Model && req.maxTokens == MaxTokens
  {
    Request(BaseUrl, apiKey, Model, [ChatMessage(System, SystemPrompt), ChatMessage(User, userMessage)], MaxTokens)
  }

  /**
   * The try/catch of `sendMessage` around the exchange: a non-ok status is
   * sorted into 401, 429 and the rest; an ok reply yields its first choice
   * trimmed, or "no response" when there is none; a thrown `Error` passes
   * through unchanged and any other thrown value becomes the generic error.
   */
  function Interpret(x: Exchange): (r: Result<string, ChatError>)
    ensures r.Success? <==> x.Responded? && IsOk(x.response.status)
                            && x.response.choices.Some? && |x.response.choices.value| > 0
    ensures r.Success? ==> IsTrimmed(r.value) && r.value == Trim(x.response.choices.value[0].content)
    ensures x.Responded? && x.response.status == 401 ==> r == Failure(InvalidApiKey)
    ensures x.Responded? && x.response.status == 429 ==> r == Failure(RateLimited)
    ensures x.Responded? && !IsOk(x.response.status) && x.response.status !in {401, 429}
            ==> r == Failure(RequestFailed(x.response.statusText))
    ensures x.Responded? && IsOk(x.response.status)
            && (x.response.choices.None? || x.response.choices.value == [])
            ==> r == Failure(NoResponse)
    ensures x.Threw? && x.thrown.ErrorObject? ==> r == Failure(Rethrown(x.thrown.message))
    ensures x.Threw? && x.thrown.OtherValue? ==> r == Failure(Unexpected)
  {
    match x
    case Threw(ErrorObject(message)) => Failure(Rethrown(message))
    case Threw(OtherValue) => Failure(Unexpected)
    case Responded(response) =>
      if !IsOk(response.status) then
        if response.status == 401 then Failure(InvalidApiKey)
        else if response.status == 429 then Failure(RateLimited)
        else Failure(RequestFailed(response.statusText))
      else if response.choices.Some? && |response.choices.value| > 0 then
        Success(Trim(response.choices.value[0].content))
      else
        Failure(NoResponse)
  }

  /** `sendMessage`: the key check comes first; only with a key is the conversation sent. */
  function SendMessage(stored: Option<string>, userMessage: string, transport: Request -> Exchange)
    : (r: Result<string, ChatError>)
    ensures r == Failure(KeyNotConfigured) <==> stored.None? || stored.value == ""
    ensures stored.Some? && stored.value != ""
            ==> r == Interpret(transport(BuildRequest(stored.value, userMessage)))
    ensures r.Success? ==> IsTrimmed(r.value)
  {
    match GetApiKey(stored)
    case Failure(e) => Failure(e)
    case Success(apiKey) => Interpret(transport(BuildRequest(apiKey, userMessage)))
  }

  /**
   * Without a usable key the call fails with the configuration error and
   * never reaches the network: its result is the same whatever the transport.
   */
  lemma MissingKeyFailsBeforeSending(stored: Option<string>, userMessage: string,
                                     t1: Request -> Exchange, t2: Request -> Exchange)
    requires stored.None? || stored.value == ""
    ensures SendMessage(stored, userMessage, t1) == Failure(KeyNotConfigured)
    ensures SendMessage(stored, userMessage, t1) == SendMessage(stored, userMessage, t2)
  {
  }

  /**
   * With a key, the transport is handed exactly one request: the system
   * persona then the user's message verbatim, under the stored key, and its
   * reply alone decides the result.
   */
  lemma SendMessageSendsConversation(stored: Option<string>, userMessage: string,
                                     transport: Request -> Exchange)
    requires stored.Some? && stored.value != ""
    ensures var req := BuildRequest(stored.value, userMessage);
            && req.messages == [ChatMessage(System, SystemPrompt), ChatMessage(User, userMessage)]
            && req.apiKey == stored.value
            && SendMessage(stored, userMessage, transport) == Interpret(transport(req))
  {
  }

  /** Once a request has gone out, the configuration error can no longer arise. */
  lemma SentRequestNeverReportsMissingKey(x: Exchange)
    ensures Interpret(x) != Failure(KeyNotConfigured)
  {
  }

  /**
   * What a caller sees of a failed reply: `error.message` is one of the three
   * fixed messages, or "API request failed: " followed by the status text.
   */
  lemma ReplyFailureMessage(x: Exchange)
    requires x.Responded? && Interpret(x).Failure?
    ensures var m := ErrorMessage(Interpret(x).error);
            m == "Invalid API key. Please check your OpenAI API key in Settings."
            || m == "Rate limit exceeded. Please try again in a moment."
            || m == "No response from ChatGPT"
            || m == "API request failed: " + x.response.statusText
  {
  }

  /** A thrown `Error` keeps its message; any other thrown value surfaces as the generic message. */
  lemma ThrownFailureMessage(x: Exchange)
    requires x.Threw?
    ensures ErrorMessage(Interpret(x).error)
            == if x.thrown.ErrorObject? then x.thrown.message
               else "An unexpected error occurred while contacting ChatGPT"
  {
  }

  /**
   * A reply whose first choice is only whitespace succeeds with the empty
   * string: a successful reply need not be non-empty.
   */
  lemma BlankChoiceGivesEmptyReply()
    ensures Interpret(Responded(Response(200, "OK", Some([Choice("   ")])))) == Success("")
  {
    assert TrimStart("   ") == "";
  }

  /** A successful reply is already trimmed: trimming it again changes nothing. */
  lemma ReplyIsTrimFixpoint(x: Exchange)
    requires Interpret(x).Success?
    ensures Trim(Interpret(x).value) == Interpret(x).value
  {
    TrimmedIsFixpoint(Interpret(x).value);
  }

  /**
   * The nutrition context a caller may attach. Each field is `None` when the
   * caller's value is falsy (`undefined`, `null`, `false`, `0`, `-0`, `NaN`
   * or the empty string) and
   * otherwise `Some` of the value as the template literal renders it.
   */
  datatype NutritionContext = NutritionContext(
    foodName: Option<string>,
    calories: Option<string>,
    protein: Option<string>,
    carbs: Option<string>,
    fats: Option<string>)

  /** `value || 'N/A'`. */
  function OrNA(value: Option<string>): string {
    if value.Some? then value.value else "N/A"
  }

  /** The line break and indentation between lines of the template literal. */
  const Indent := "\n      "

  /**
   * The query `getNutritionAdvice` forwards: the query itself, extended by
   * the labelled context block when a context is given. `context` is `None`
   * when the caller's `nutritionContext` is falsy (omitted, `undefined` or
   * `null`), since only a truthy context is appended.
   */
  function ContextualQuery(query: string, context: Option<NutritionContext>): (q: string)
    ensures context.None? ==> q == query
    ensures |query| <= |q| && q[..|query|] == query
    ensures context.Some? ==> |q| > |query|
  {
    match context
    case None => query
    case Some(c) =>
      query + Indent + Indent + "Current nutrition context:"
      + Indent + ("- Recent food: " + OrNA(c.foodName))
      + Indent + ("- Calories: " + OrNA(c.calories))
      + Indent + ("- Protein: " + OrNA(c.protein) + "g")
      + Indent + ("- Carbs: " + OrNA(c.carbs) + "g")
      + Indent + ("- Fats: " + OrNA(c.fats) + "g")
  }

  /** `getNutritionAdvice`: a live `sendMessage` of the contextual query; its errors propagate as they are. */
  function GetNutritionAdvice(query: string, context: Option<NutritionContext>,
                              stored: Option<string>, transport: Request -> Exchange)
    : (r: Result<string, ChatError>)
    ensures r == Failure(KeyNotConfigured) <==> stored.None? || stored.value == ""
    ensures stored.Some? && stored.value != ""
            ==> r == Interpret(transport(BuildRequest(stored.value, ContextualQuery(query, context))))
    ensures context.None? ==> r == SendMessage(stored, query, transport)
    ensures r.Success? ==> IsTrimmed(r.value)
  {
    SendMessage(stored, ContextualQuery(query, context), transport)
  }

  /** Without context the query is forwarded to `sendMessage` unchanged. */
  lemma AdviceWithoutContextIsPlainMessage(query: string, stored: Option<string>,
                                           transport: Request -> Exchange)
    ensures GetNutritionAdvice(query, None, stored, transport) == SendMessage(stored, query, transport)
  {
  }

  /** Each line of a block of five lines joined by a separator occurs in the block. */
  lemma JoinedLinesOccur(h: string, sep: string, l1: string, l2: string, l3: string, l4: string, l5: string)
    ensures var s := h + l1 + sep + l2 + sep + l3 + sep + l4 + sep + l5;
            IsInfix(l1, s) && IsInfix(l2, s) && IsInfix(l3, s) && IsInfix(l4, s) && IsInfix(l5, s)
  {
    var a1 := h + l1;
    var a2 := a1 + sep;
    var a3 := a2 + l2;
    var a4 := a3 + sep;
    var a5 := a4 + l3;
    var a6 := a5 + sep;
    var a7 := a6 + l4;
    var a8 := a7 + sep;
    var a9 := a8 + l5;
    InfixOfConcat(h, l1, []);
    InfixOfConcat(a2, l2, []);
    InfixOfConcat(a4, l3, []);
    InfixOfConcat(a6, l4, []);
    InfixOfConcat(a8, l5, []);
    assert h + l1 + [] == a1 && a2 + l2 + [] == a3 && a4 + l3 + [] == a5;
    assert a6 + l4 + [] == a7 && a8 + l5 + [] == a9;
    InfixAppend(l1, a1, sep);
    InfixAppend(l1, a2, l2);
    InfixAppend(l1, a3, sep);
    InfixAppend(l1, a4, l3);
    InfixAppend(l1, a5, sep);
    InfixAppend(l1, a6, l4);
    InfixAppend(l1, a7, sep);
    InfixAppend(l1, a8, l5);
    InfixAppend(l2, a3, sep);
    InfixAppend(l2, a4, l3);
    InfixAppend(l2, a5, sep);
    InfixAppend(l2, a6, l4);
    InfixAppend(l2, a7, sep);
    InfixAppend(l2, a8, l5);
    InfixAppend(l3, a5, sep);
    InfixAppend(l3, a6, l4);
    InfixAppend(l3, a7, sep);
    InfixAppend(l3, a8, l5);
    InfixAppend(l4, a7, sep);
    InfixAppend(l4, a8, l5);
  }

  /**
   * With context, the prompt carries each field on its labelled line, with
   * `N/A` for every falsy field.
   */
  lemma ContextualQueryMentionsEveryField(query: string, c: NutritionContext)
    ensures var q := ContextualQuery(query, Some(c));
            && IsInfix("- Recent food: " + OrNA(c.foodName), q)
            && IsInfix("- Calories: " + OrNA(c.calories), q)
            && IsInfix("- Protein: " + OrNA(c.protein) + "g", q)
            && IsInfix("- Carbs: " + OrNA(c.carbs) + "g", q)
            && IsInfix("- Fats: " + OrNA(c.fats) + "g", q)
  {
    var head := query + Indent + Indent + "Current nutrition context:" + Indent;
    JoinedLinesOccur(head, Indent,
      "- Recent food: " + OrNA(c.foodName), "- Calories: " + OrNA(c.calories),
      "- Protein: " + OrNA(c.protein) + "g", "- Carbs: " + OrNA(c.carbs) + "g",
      "- Fats: " + OrNA(c.fats) + "g");
  }

  /**
   * With context, every field's value (or `N/A`) appears in the prompt,
   * after the query, which the prompt starts with.
   */
  lemma ContextualQueryMentionsEveryValue(query: string, c: NutritionContext)
    ensures var q := ContextualQuery(query, Some(c));
            && q[..|query|] == query
            && IsInfix(OrNA(c.foodName), q) && IsInfix(OrNA(c.calories), q)
            && IsInfix(OrNA(c.protein), q) && IsInfix(OrNA(c.carbs), q)
            && IsInfix(OrNA(c.fats), q)
  {
    var q := ContextualQuery(query, Some(c));
    ContextualQueryMentionsEveryField(query, c);
    ValueInLine("- Recent food: ", OrNA(c.foodName), "", q);
    ValueInLine("- Calories: ", OrNA(c.calories), "", q);
    ValueInLine("- Protein: ", OrNA(c.protein), "g", q);
    ValueInLine("- Carbs: ", OrNA(c.carbs), "g", q);
    ValueInLine("- Fats: ", OrNA(c.fats), "g", q);
  }

  lemma ValueInLine(prefix: string, value: string, unit: string, q: string)
    requires IsInfix(prefix + value, q) || IsInfix(prefix + value + unit, q)
    ensures IsInfix(value, q)
  {
    InfixOfConcat(prefix, value, []);
    assert prefix + value + [] == prefix + value;
    if IsInfix(prefix + value, q) {
      InfixTransitive(value, prefix + value, q);
    } else {
      InfixOfConcat(prefix, value, unit);
      InfixTransitive(value, prefix + value + unit, q);
    }
  }

  /**
   * With a key, the advice call sends the contextual query as the user
   * message and reports the interpreted reply, errors included, as it is.
   */
  lemma AdviceSendsContextualQuery(query: string, context: Option<NutritionContext>,
                                   stored: Option<string>, transport: Request -> Exchange)
    requires stored.Some? && stored.value != ""
    ensures GetNutritionAdvice(query, context, stored, transport)
            == Interpret(transport(BuildRequest(stored.value, ContextualQuery(query, context))))
  {
  }
}
