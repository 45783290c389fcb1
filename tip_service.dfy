/**
 * The daily tip cache: a single slot, keyed by calendar day, wrapped around
 * a completion call that may fail. The calendar day, the outcome of the
 * completion call and the random index into the fallback list are inputs.
 */
module Tips {
  import opened Wrappers
  import opened ChatService

  /** The prompt sent to the chat service on a cache miss. */
  const TipPrompt :=
    "Give me a short, motivational health tip for today (2-3 sentences max). Focus on practical nutrition or wellness advice."

  /** The tips handed out when the completion call fails. */
  const FallbackTips: seq<string> := [
    "Stay hydrated! Drinking water throughout the day helps with digestion and keeps your energy levels stable.",
    "Try to include a variety of colorful fruits and vegetables in your meals - each color provides different nutrients.",
    "Take a short walk after eating. It can help with digestion and blood sugar regulation.",
    "Mindful eating is key - try to eat slowly and pay attention to your hunger and fullness cues.",
    "Protein at every meal helps keep you satisfied and supports muscle health."
  ]

  /** The fallback list is fixed: five distinct, non-empty tips. */
  lemma FallbackTipsAreDistinct()
    ensures |FallbackTips| == 5
    ensures forall i :: 0 <= i < |FallbackTips| ==> FallbackTips[i] != ""
    ensures forall i, j :: 0 <= i < j < |FallbackTips| ==> FallbackTips[i] != FallbackTips[j]
  {
  }

  /** The cached tip and the day key (`toDateString()`) it was produced on. */
  datatype CachedTip = CachedTip(tip: string, date: string)

  /** The slot holds a tip from `today`: a hit. */
  predicate IsFresh(cache: Option<CachedTip>, today: string) {
    cache.Some? && cache.value.date == today
  }

  /** What one `getDailyTip` call returns, the slot it leaves, and the prompts it sent to the chat service. */
  datatype TipStep = TipStep(tip: string, cache: Option<CachedTip>, prompts: seq<string>)

  /**
   * `getDailyTip` as a function of the slot. A hit returns the cached tip,
   * leaves the slot as it is and sends nothing. A miss sends the tip prompt
   * once; it returns the reply, or the fallback tip at `pick` when the call
   * failed, and stores what it returns under `today`.
   */
  function DailyTip(cache: Option<CachedTip>, today: string,
                    outcome: Result<string, ChatError>, pick: nat): (r: TipStep)
    requires pick < |FallbackTips|
    ensures r.cache == Some(CachedTip(r.tip, today))
    ensures IsFresh(cache, today) ==> r.tip == cache.value.tip && r.cache == cache && r.prompts == []
    ensures !IsFresh(cache, today) ==> r.prompts == [TipPrompt]
    ensures !IsFresh(cache, today) && outcome.Success? ==> r.tip == outcome.value
    ensures !IsFresh(cache, today) && outcome.Failure? ==> r.tip == FallbackTips[pick]
  {
    if IsFresh(cache, today) then TipStep(cache.value.tip, cache, [])
    else
      var tip := match outcome
        case Success(reply) => reply
        case Failure(_) => FallbackTips[pick];
      TipStep(tip, Some(CachedTip(tip, today)), [TipPrompt])
  }

  /** A hit does not depend on what the chat service or the random source would have produced. */
  lemma HitIgnoresOutcome(cache: Option<CachedTip>, today: string,
                          o1: Result<string, ChatError>, p1: nat,
                          o2: Result<string, ChatError>, p2: nat)
    requires p1 < |FallbackTips| && p2 < |FallbackTips|
    requires IsFresh(cache, today)
    ensures DailyTip(cache, today, o1, p1) == DailyTip(cache, today, o2, p2)
  {
  }

  /** The returned tip is the cached one, the reply, or a fallback tip: no error reaches the caller. */
  lemma DailyTipNeverFails(cache: Option<CachedTip>, today: string,
                           outcome: Result<string, ChatError>, pick: nat)
    requires pick < |FallbackTips|
    ensures var tip := DailyTip(cache, today, outcome, pick).tip;
            (IsFresh(cache, today) && tip == cache.value.tip)
            || (outcome.Success? && tip == outcome.value)
            || tip in FallbackTips
  {
  }

  /**
   * Two calls on the same day return the same tip, whichever branch the
   * first took, and the second sends nothing.
   */
  lemma SameDayCallsAgree(cache: Option<CachedTip>, today: string,
                          o1: Result<string, ChatError>, p1: nat,
                          o2: Result<string, ChatError>, p2: nat)
    requires p1 < |FallbackTips| && p2 < |FallbackTips|
    ensures var first := DailyTip(cache, today, o1, p1);
            var second := DailyTip(first.cache, today, o2, p2);
            second.tip == first.tip && second.cache == first.cache && second.prompts == []
  {
  }

  /** A tip cached on another day is stale: the next call asks the chat service again. */
  lemma NewDayAsksAgain(cache: Option<CachedTip>, today: string,
                        outcome: Result<string, ChatError>, pick: nat)
    requires pick < |FallbackTips|
    requires cache.Some? && cache.value.date != today
    ensures DailyTip(cache, today, outcome, pick).prompts == [TipPrompt]
  {
  }

  /**
   * An empty reply is cached and returned like any other: the cache does
   * not guarantee a non-empty tip.
   */
  lemma EmptyReplyIsCached(today: string)
    ensures DailyTip(None, today, Success(""), 0) == TipStep("", Some(CachedTip("", today)), [TipPrompt])
  {
  }

  /** One call to `getDailyTip`, with its inputs. */
  datatype TipRequest = TipRequest(today: string, outcome: Result<string, ChatError>, pick: nat)

  predicate ValidPicks(calls: seq<TipRequest>) {
    forall i :: 0 <= i < |calls| ==> calls[i].pick < |FallbackTips|
  }

  /** The tips returned by a sequence of calls, starting from `cache`. */
  function Replay(cache: Option<CachedTip>, calls: seq<TipRequest>): (tips: seq<string>)
    requires ValidPicks(calls)
    ensures |tips| == |calls|
    decreases |calls|
  {
    if calls == [] then []
    else
      var step := DailyTip(cache, calls[0].today, calls[0].outcome, calls[0].pick);
      [step.tip] + Replay(step.cache, calls[1..])
  }

  /** While the day stays that of a fresh slot, every call returns the cached tip. */
  lemma {:induction false} FreshSlotAnswersAllDay(cache: Option<CachedTip>, calls: seq<TipRequest>)
    requires ValidPicks(calls)
    requires cache.Some?
    requires forall i :: 0 <= i < |calls| ==> calls[i].today == cache.value.date
    ensures forall i :: 0 <= i < |calls| ==> Replay(cache, calls)[i] == cache.value.tip
    decreases |calls|
  {
    if calls != [] {
      FreshSlotAnswersAllDay(cache, calls[1..]);
    }
  }

  /** However many calls a day brings, they all return the tip of the first. */
  lemma {:induction false} SameDayReplayIsConstant(cache: Option<CachedTip>, calls: seq<TipRequest>)
    requires ValidPicks(calls) && |calls| > 0
    requires forall i :: 0 <= i < |calls| ==> calls[i].today == calls[0].today
    ensures forall i :: 0 <= i < |calls| ==> Replay(cache, calls)[i] == Replay(cache, calls)[0]
  {
    var step := DailyTip(cache, calls[0].today, calls[0].outcome, calls[0].pick);
    FreshSlotAnswersAllDay(step.cache, calls[1..]);
  }

  /**
   * Under repeated failure, across any number of days, only fallback tips
   * are ever returned (from an empty slot or one holding a fallback tip).
   */
  lemma {:induction false} FailingReplayOnlyFallbacks(cache: Option<CachedTip>, calls: seq<TipRequest>)
    requires ValidPicks(calls)
    requires cache.Some? ==> cache.value.tip in FallbackTips
    requires forall i :: 0 <= i < |calls| ==> calls[i].outcome.Failure?
    ensures forall i :: 0 <= i < |calls| ==> Replay(cache, calls)[i] in FallbackTips
    decreases |calls|
  {
    if calls != [] {
      var step := DailyTip(cache, calls[0].today, calls[0].outcome, calls[0].pick);
      FailingReplayOnlyFallbacks(step.cache, calls[1..]);
    }
  }

  /** The service object: its one mutable field is the cache slot. */
  class TipService {
    var cachedTip: Option<CachedTip>
    /** The prompts handed to the chat service so far. */
    ghost var sentPrompts: seq<string>

    constructor ()
      ensures cachedTip == None && sentPrompts == []
    {
      cachedTip := None;
      sentPrompts := [];
    }

    /**
     * `getDailyTip`: `today` is the current day key, `outcome` what the chat
     * service answers if asked, `pick` the index `Math.random` selects.
     */
    method GetDailyTip(today: string, outcome: Result<string, ChatError>, pick: nat) returns (tip: string)
      requires pick < |FallbackTips|
      modifies this
      ensures cachedTip == Some(CachedTip(tip, today))
      ensures var step := DailyTip(old(cachedTip), today, outcome, pick);
              tip == step.tip && cachedTip == step.cache && sentPrompts == old(sentPrompts) + step.prompts
    {
      if cachedTip.Some? && cachedTip.value.date == today {
        return cachedTip.value.tip;
      }
      sentPrompts := sentPrompts + [TipPrompt];
      match outcome {
        case Success(reply) =>
          cachedTip := Some(CachedTip(reply, today));
          tip := reply;
        case Failure(_) =>
          var fallback := FallbackTips[pick];
          cachedTip := Some(CachedTip(fallback, today));
          tip := fallback;
      }
    }
  }

  /**
   * A caller that asks twice on the same day gets one tip, and causes one
   * chat request exactly when the slot was not fresh beforehand.
   */
  method AskTwiceSameDay(service: TipService, today: string,
                         o1: Result<string, ChatError>, p1: nat,
                         o2: Result<string, ChatError>, p2: nat) returns (first: string, second: string)
    requires p1 < |FallbackTips| && p2 < |FallbackTips|
    modifies service
    ensures first == second
    ensures service.cachedTip == Some(CachedTip(first, today))
    ensures service.sentPrompts
            == old(service.sentPrompts) + (if IsFresh(old(service.cachedTip), today) then [] else [TipPrompt])
  {
    first := service.GetDailyTip(today, o1, p1);
    second := service.GetDailyTip(today, o2, p2);
  }
}
