# NutriView core: daily tip cache, completion client and two page helpers

A Dafny model of the logic inside the NutriView nutrition dashboard. It covers
four pieces.

- **Daily tip cache** (`TipService.getDailyTip`). A single cache slot keyed by
  calendar day wraps a completion call that may fail. A same-day hit returns
  the cached tip. A miss asks the chat service once with a fixed prompt. It
  caches and returns the reply, or, on any failure, one of five fixed fallback
  tips. The model is the class `Tips.TipService`, whose method is proved
  against the pure step function `Tips.DailyTip`. Properties over many calls
  are proved about `Tips.Replay`.
- **Completion client** (`ChatService.sendMessage`, `getNutritionAdvice`).
  Pure functions decide the following:
  - a missing or empty key is a configuration error, raised before any
    request;
  - the two-message conversation is built (system persona, then the user's
    text verbatim);
  - a reply is sorted into 401, 429 and other non-ok statuses;
  - the first choice is taken and trimmed, or the call fails with "no
    response";
  - `Error` values are rethrown unchanged, and any other thrown value becomes
    the generic error;
  - the optional nutrition context is appended to the query, with `N/A` for
    falsy fields.
- **API-key masking** (`maskApiKey` on the settings page).
- **Freshness colour** (`getFreshnessColor` on the dashboard page).

Inputs that the source takes from its environment are parameters:
- the day key that `new Date().toDateString()` yields;
- the index that `Math.floor(Math.random() * 5)` yields;
- the value `localStorage.getItem('nutribox_openai_key')` returns, as
  `Option<string>`;
- the network exchange, as a function `transport: Request -> Exchange`.

Because the exchange is a parameter, "no request is sent" becomes "the result
is the same whatever the transport". `getNutritionAdvice` is a pure function
of its transport, so no caching can sit between two advice calls.

The error kinds follow the code. It
throws plain `Error`s with fixed messages (`ChatService.ErrorMessage` holds
them). A caller sees only `error.message`; `ChatService.ReplyFailureMessage` and
`ChatService.ThrownFailureMessage` say which messages can arrive. A network failure that throws an `Error` passes through unchanged as
`Rethrown(message)`. `response.ok` is modelled as a status in 200..299.

The tip cache does not guarantee a non-empty tip. A reply whose first choice is
only whitespace trims to the empty string, and that empty string is cached and
returned for the rest of the day (`ChatService.BlankChoiceGivesEmptyReply`,
`Tips.EmptyReplyIsCached`).

## Model

| member | source | states |
|---|---|---|
| `JsString.Trim` | src/services/chatService.ts:75 | the result is a slice of the input, only whitespace is cut on either side, and neither end of the result is whitespace |
| `JsString.TrimIdempotent` | src/services/chatService.ts:75 | trimming a trimmed reply changes nothing |
| `JsString.TrimmedIsFixpoint` | src/services/chatService.ts:75 | a string without whitespace at its ends is its own trim |
| `JsString.ToLower` | src/pages/Dashboard.tsx:37 | lowering keeps the length and lowers each character independently |
| `JsString.ToLowerIdempotent` | src/pages/Dashboard.tsx:37 | lowering twice is lowering once |
| `JsString.Repeat` | src/pages/Settings.tsx:74 | `'•'.repeat(n)` has length n and every character is the repeated one |
| `Settings.MaskApiKey` | src/pages/Settings.tsx:72-75 | a key of length at most 8 is returned unchanged; a longer one keeps its length, its first 4 and last 4 characters, and every position from 4 to len-5 is `•` |
| `Settings.MaskBulletCount` | src/pages/Settings.tsx:74 | the masked key holds exactly len-8 bullets more than its kept ends already did |
| `Settings.MaskHidesMiddle` | src/pages/Settings.tsx:74 | two long keys of the same length that agree on their first and last 4 characters mask identically: nothing of the middle shows |
| `Settings.MaskIdempotent` | src/pages/Settings.tsx:72-75 | masking a masked key changes nothing |
| `Dashboard.FreshnessColor` | src/pages/Dashboard.tsx:36-44 | total and always one of the five class strings; green iff the lowered input is "excellent", blue iff "good", yellow iff "fair", red iff "poor", gray iff it is none of the four |
| `Dashboard.FreshnessColorIgnoresCase` | src/pages/Dashboard.tsx:37 | the colour depends only on the lowered input: lowering it first gives the same colour |
| `Dashboard.SampleFoodIsBlue` | src/pages/Dashboard.tsx:15-39 | the dashboard's sample grade "Good" gets `bg-blue-500` |
| `ChatService.GetApiKey` | src/services/chatService.ts:10-16 | the key is returned iff it is present and non-empty, and then verbatim; otherwise the configuration error |
| `ChatService.BuildRequest` | src/services/chatService.ts:36-59 | the request goes to the completions endpoint under the given key, with model `gpt-3.5-turbo` and 500 max tokens, and holds exactly two messages: the system persona, then the user's text verbatim |
| `ChatService.Interpret` | src/services/chatService.ts:62-87 | success iff the status is ok and `choices` is non-empty, and then the first choice's content trimmed (so no whitespace at its ends); 401 gives the invalid-key error, 429 the rate-limit error, any other non-ok status a failure carrying the status text; ok without choices gives "no response"; a thrown `Error` is rethrown unchanged and any other thrown value becomes the unexpected error |
| `ChatService.MissingKeyFailsBeforeSending` | src/services/chatService.ts:10-34 | with the key absent or empty, `sendMessage` fails with the configuration error and its result does not depend on the transport (no request is made) |
| `ChatService.SendMessageSendsConversation` | src/services/chatService.ts:33-60 | with a key, the transport receives one request of two messages (system, then the user's text verbatim) under that key, and its reply alone decides the result |
| `ChatService.SentRequestNeverReportsMissingKey` | src/services/chatService.ts:62-87 | once a request has gone out, the configuration error cannot arise |
| `ChatService.FixedMessagesDistinct` | src/services/chatService.ts:13-85 | the five fixed error messages (missing key, invalid key, rate limit, no response, unexpected) are pairwise distinct |
| `ChatService.ReplyFailureMessage` | src/services/chatService.ts:62-78 | when a reply arrives and the call fails, `error.message` is the invalid-key, rate-limit or no-response message, or "API request failed: " followed by the status text |
| `ChatService.ThrownFailureMessage` | src/services/chatService.ts:79-87 | a thrown `Error` reaches the caller with its own message; any other thrown value arrives as the generic unexpected-error message |
| `ChatService.BlankChoiceGivesEmptyReply` | src/services/chatService.ts:74-75 | an ok reply whose first choice is only whitespace succeeds with the empty string |
| `ChatService.ReplyIsTrimFixpoint` | src/services/chatService.ts:74-75 | a successful reply is unchanged by trimming it again |
| `ChatService.SendMessage` | src/services/chatService.ts:33-88 | the configuration error arises iff the stored key is absent or empty; with a key, the result is the interpreted reply to the request of two messages built from that key and the verbatim text (partners: `MissingKeyFailsBeforeSending`, `SendMessageSendsConversation`, `ReplyFailureMessage`); a successful result is trimmed |
| `ChatService.ErrorMessage` | src/services/chatService.ts:13-85 | a rethrown `Error` keeps its own message; the status-failure message ends with the status text; only a rethrown `Error` can carry an empty message (partner: `FixedMessagesDistinct`) |
| `ChatService.ContextualQuery` | src/services/chatService.ts:91-103 | without context the query is forwarded unchanged; with context the prompt starts with the query and is strictly longer |
| `ChatService.ContextualQueryMentionsEveryField` | src/services/chatService.ts:94-103 | with context, the prompt contains each labelled line (food, calories, protein g, carbs g, fats g), with `N/A` for every falsy field |
| `ChatService.ContextualQueryMentionsEveryValue` | src/services/chatService.ts:94-103 | with context, the prompt starts with the query and contains each field's value or `N/A` |
| `ChatService.GetNutritionAdvice` | src/services/chatService.ts:91-106 | the configuration error arises iff the stored key is absent or empty; with a key, the result is the interpreted reply to the contextual query, errors passed through; without context it equals `sendMessage` of the query; a successful result is trimmed (partners: `AdviceSendsContextualQuery`, `ContextualQueryMentionsEveryField`) |
| `ChatService.AdviceWithoutContextIsPlainMessage` | src/services/chatService.ts:91-105 | without context, `getNutritionAdvice` is `sendMessage` of the query itself |
| `ChatService.AdviceSendsContextualQuery` | src/services/chatService.ts:91-106 | with a key, the advice call sends the contextual query as the user message and returns the interpreted reply, errors included, without absorbing them |
| `Tips.FallbackTipsAreDistinct` | src/services/tipService.ts:26-32 | the fallback list holds 5 distinct, non-empty tips |
| `Tips.DailyTip` | src/services/tipService.ts:7-39 | a hit (slot present, date equals today) returns the cached tip, keeps the slot and sends nothing; a miss sends the tip prompt exactly once and returns the reply, or `FallbackTips[pick]` on failure; after any call the slot holds the returned tip dated today |
| `Tips.EmptyReplyIsCached` | src/services/tipService.ts:16-23 | an empty reply is cached under today and returned like any other: no non-empty guarantee |
| `Tips.HitIgnoresOutcome` | src/services/tipService.ts:11-13 | on a hit, neither the chat outcome nor the random index affects the result |
| `Tips.DailyTipNeverFails` | src/services/tipService.ts:15-38 | the result is the cached tip, the reply or a fallback tip: no error reaches the caller |
| `Tips.SameDayCallsAgree` | src/services/tipService.ts:11-37 | two calls with the same day return the same tip whichever branch the first took, and the second sends nothing |
| `Tips.NewDayAsksAgain` | src/services/tipService.ts:11-18 | a tip cached on another day is stale: the next call asks the chat service again |
| `Tips.FreshSlotAnswersAllDay` | src/services/tipService.ts:11-13 | while the day is that of the slot, every call in a sequence returns the cached tip |
| `Tips.SameDayReplayIsConstant` | src/services/tipService.ts:11-37 | any number of calls on one day return the tip of the first |
| `Tips.FailingReplayOnlyFallbacks` | src/services/tipService.ts:24-37 | under repeated failure across any days, starting from an empty slot or a fallback tip, only fallback tips are returned |
| `Tips.TipService.constructor` | src/services/tipService.ts:4-5 | a new service starts with an empty slot |
| `Tips.TipService.GetDailyTip` | src/services/tipService.ts:7-39 | updates the `cachedTip` field in place exactly as `DailyTip` prescribes, returns its tip and logs the prompts sent; afterwards the slot holds the returned tip dated today |
| `Tips.AskTwiceSameDay` | src/services/tipService.ts:11-37 | a caller asking the service object twice on one day gets the same tip, leaves that tip cached under today, and causes one chat request exactly when the slot was not fresh beforehand, none otherwise |

## Left out

- Network I/O: `fetch`, the headers, JSON parsing and the `temperature: 0.7` field (a floating-point constant). The exchange is the `transport` parameter.
- `localStorage`, `Date.toDateString`, `Math.random` and `console.error` are not modelled. The first three become parameters; logging has no effect on results.
- Concurrency: two `getDailyTip` calls in flight at once can both miss and overwrite the slot. Calls are modelled as sequential.
- ChatService.Interpret: a first choice whose `message` or `content` is missing makes `.trim()` throw a `TypeError`. That error would be rethrown, but the model's `Choice` always has content. A `choices` value that is truthy but not an array is not modelled either.
- JsString.ToLower: only ASCII letters are lowered, whereas JavaScript lowers all of Unicode. `FreshnessColor` classifies the same either way. Only U+0130 and U+212A lower into ASCII letters, U+0130 becomes two code units, and `k` occurs in none of the four grades.
- Strings are sequences of Unicode `char`. A character outside the Basic Multilingual Plane is one `char` here but two UTF-16 code units in JavaScript. For such input, lengths and substring positions differ from the source, for example where `MaskApiKey` splits off its first and last four characters.
- Nutrition-context numbers come pre-rendered as strings. A falsy field value is `None`: `undefined`, `null`, `false`, `0`, `-0`, `NaN` or `''`. A falsy `nutritionContext` (omitted, `undefined` or `null`) is `context: None`. JavaScript number formatting is not modelled.
- `src/services/apiService.ts`, the three chat widgets, and all page rendering, animation and chart arithmetic are not part of this model.
