/**
 * The query policy of src/hooks/useContentQuery.ts and the defaults of
 * src/providers/ReactQueryProvider.tsx: query keys, the retry predicate and
 * backoff handed to the query library, and the two derived hooks that map the
 * fetched titles to content items and to the hero banner.
 *
 * The library itself (caching, scheduling of retries) is not modelled: a query
 * result is an input, and `refetch` is a value of an arbitrary type.
 */
module ContentQuery {
  import opened Common
  import opened JsText
  import opened Api

  // ---------------------------------------------------------------------------
  // Query keys

  const TitlesKey: seq<string> := ["titles"]

  /** `queryKeys.titles.category(category)`. */
  function CategoryKey(category: string): (key: seq<string>)
    ensures |key| == |TitlesKey| + 1 && key[..|TitlesKey|] == TitlesKey && key[|TitlesKey|] == category
  {
    TitlesKey + [category]
  }

  /** `queryKeys.titles.liveAction()`. */
  function LiveActionKey(): seq<string> {
    TitlesKey + ["live_action"]
  }

  /** The live-action key is the category key of `live_action`, which is `["titles", "live_action"]`. */
  lemma LiveActionIsCategory()
    ensures LiveActionKey() == CategoryKey("live_action") == ["titles", "live_action"]
  {
  }

  /** Different categories have different keys, so their cached results never mix. */
  lemma CategoryKeyInjective(a: string, b: string)
    requires CategoryKey(a) == CategoryKey(b)
    ensures a == b
  {
    assert CategoryKey(a)[1] == a;
  }

  // ---------------------------------------------------------------------------
  // Timing policy (milliseconds)

  const StaleTime := 5 * 60 * 1000
  const GcTime := 10 * 60 * 1000

  /** Data turns stale well before it is collected. */
  lemma StaleBeforeCollected()
    ensures StaleTime == 300000 && GcTime == 600000 && StaleTime < GcTime
  {
  }

  // ---------------------------------------------------------------------------
  // Retry predicate

  /**
   * The `retry` option of `useLiveActionTitles`: an error whose message mentions
   * `connect` is retried while fewer than two attempts have failed, any other
   * error while fewer than three have.
   */
  function ShouldRetry(failureCount: nat, error: JsError): (retry: bool)
    ensures Includes(error.message, "connect") ==> (retry <==> failureCount < 2)
    ensures !Includes(error.message, "connect") ==> (retry <==> failureCount < 3)
  {
    if Includes(error.message, "connect") then failureCount < 2 else failureCount < 3
  }

  /** A connectivity error is never retried more often than any other error. */
  lemma ConnectivityBudgetSmaller(failureCount: nat, e: JsError, other: JsError)
    requires ShouldRetry(failureCount, e) && Includes(e.message, "connect")
    ensures ShouldRetry(failureCount, other)
  {
  }

  /** The message the catch block makes of a failed network request gets the smaller budget. */
  lemma ConnectivityMessageRetriedTwice(failureCount: nat)
    ensures ShouldRetry(failureCount, JsError(PlainError, ConnectivityMessage)) <==> failureCount < 2
  {
    IncludesAt(ConnectivityMessage, "connect", 10);
  }

  /** A message without the letter `c` cannot mention `connect`. */
  lemma RetryWithoutConnect(failureCount: nat, e: JsError)
    requires 'c' !in e.message
    ensures ShouldRetry(failureCount, e) <==> failureCount < 3
  {
    NotIncludesWithoutFirstChar(e.message, "connect");
  }

  /** The message the catch block makes of a timeout gets the full budget. */
  lemma TimeoutMessageRetriedThrice(failureCount: nat)
    ensures ShouldRetry(failureCount, JsError(PlainError, TimeoutRetryMessage)) <==> failureCount < 3
  {
    RetryWithoutConnect(failureCount, JsError(PlainError, TimeoutRetryMessage));
  }

  /** The provider's default `retry: 3`: retried while fewer than three attempts have failed. */
  function ProviderShouldRetry(failureCount: nat): (retry: bool)
    ensures retry <==> failureCount < 3
  {
    failureCount < 3
  }

  /**
   * The hook's `retry` override is never more permissive than the provider's
   * default, and agrees with it on every error that does not mention `connect`.
   */
  lemma HookRetryWithinDefault(failureCount: nat, e: JsError)
    ensures ShouldRetry(failureCount, e) ==> ProviderShouldRetry(failureCount)
    ensures !Includes(e.message, "connect") ==> (ShouldRetry(failureCount, e) <==> ProviderShouldRetry(failureCount))
  {
  }

  // ---------------------------------------------------------------------------
  // Backoff

  function Pow2(i: nat): (p: nat)
    ensures p >= 1
  {
    if i == 0 then 1 else 2 * Pow2(i - 1)
  }

  lemma {:induction false} Pow2Monotone(i: nat, j: nat)
    requires i <= j
    ensures Pow2(i) <= Pow2(j)
  {
    if i < j {
      Pow2Monotone(i, j - 1);
    }
  }

  /** `Math.min(1000 * 2 ** attemptIndex, cap)`. */
  function Backoff(attemptIndex: nat, cap: nat): (delay: nat)
    ensures delay <= cap && delay <= 1000 * Pow2(attemptIndex)
    ensures delay == cap || delay == 1000 * Pow2(attemptIndex)
  {
    if 1000 * Pow2(attemptIndex) < cap then 1000 * Pow2(attemptIndex) else cap
  }

  /** The backoff never decreases from one attempt to a later one. */
  lemma BackoffMonotone(i: nat, j: nat, cap: nat)
    requires i <= j
    ensures Backoff(i, cap) <= Backoff(j, cap)
  {
    Pow2Monotone(i, j);
  }

  /** The `retryDelay` of `useLiveActionTitles`: capped at five seconds. */
  function RetryDelay(attemptIndex: nat): (delay: nat)
    ensures delay <= 5000
  {
    Backoff(attemptIndex, 5000)
  }

  /** The provider's default `retryDelay`: the same curve capped at thirty seconds. */
  function ProviderRetryDelay(attemptIndex: nat): (delay: nat)
    ensures delay <= 30000
  {
    Backoff(attemptIndex, 30000)
  }

  /** The delays are 1000, 2000, 4000 and then 5000 from the fourth attempt on. */
  lemma RetryDelayValues(i: nat)
    ensures RetryDelay(0) == 1000 && RetryDelay(1) == 2000 && RetryDelay(2) == 4000
    ensures i >= 3 ==> RetryDelay(i) == 5000
  {
    assert Pow2(3) == 8;
    if i >= 3 {
      Pow2Monotone(3, i);
    }
  }

  /** The provider's delays double from one second up to sixteen, then stay at thirty. */
  lemma ProviderRetryDelayValues(i: nat)
    ensures i <= 4 ==> ProviderRetryDelay(i) == 1000 * Pow2(i)
    ensures i >= 5 ==> ProviderRetryDelay(i) == 30000
  {
    assert Pow2(5) == 32;
    if i <= 4 {
      Pow2Monotone(i, 4);
    } else {
      Pow2Monotone(5, i);
    }
  }

  // ---------------------------------------------------------------------------
  // Derived hooks

  /** What the query library reports for the live-action titles. */
  datatype QueryState<R> = QueryState(data: Option<seq<ApiTitle>>, isLoading: bool, error: Option<JsError>, refetch: R)

  /** `useLiveActionContent`'s result. */
  datatype ContentResult<R> = ContentResult(data: seq<ContentItem>, isLoading: bool, error: Option<JsError>, refetch: R)

  /** `useLiveActionHeroContent`'s result. */
  datatype HeroResult<R> = HeroResult(data: Option<HeroContent>, isLoading: bool, error: Option<JsError>, refetch: R)

  /** `useLiveActionContent`: the mapped titles, or `[]` while there are none; the rest passes through. */
  function LiveActionContent<R>(q: QueryState<R>): (c: ContentResult<R>)
    ensures q.data.None? ==> c.data == []
    ensures q.data.Some? ==> |c.data| == |q.data.value|
                             && forall i :: 0 <= i < |q.data.value| ==> c.data[i] == ToContentItem(q.data.value[i])
    ensures c.isLoading == q.isLoading && c.error == q.error && c.refetch == q.refetch
  {
    ContentResult(if q.data.Some? then Map(q.data.value, ToContentItem) else [], q.isLoading, q.error, q.refetch)
  }

  /** `useLiveActionHeroContent`: the hero made of the first title, if there is one. */
  function LiveActionHero<R>(q: QueryState<R>): (h: HeroResult<R>)
    ensures h.data.Some? <==> q.data.Some? && |q.data.value| > 0
    ensures h.data.Some? ==> h.data.value == ToHeroContent(q.data.value[0])
    ensures h.isLoading == q.isLoading && h.error == q.error && h.refetch == q.refetch
  {
    HeroResult(if q.data.Some? && |q.data.value| > 0 then Some(ToHeroContent(q.data.value[0])) else None,
               q.isLoading, q.error, q.refetch)
  }

  /** The hero banner shows the same title as the first content item. */
  lemma HeroMatchesFirstItem<R>(q: QueryState<R>)
    requires LiveActionHero(q).data.Some?
    ensures |LiveActionContent(q).data| > 0
    ensures LiveActionHero(q).data.value.item == LiveActionContent(q).data[0]
  {
  }
}
