/** The server actions that talk to the CoinGecko API: the table that maps an
    endpoint to its demo payload, the fetcher that serves that payload in demo
    mode or when the API fails, and the pool lookup that never fails.

    The network is a parameter: the outcome of the one `fetch` a call makes,
    either a response (status, status text and body) or a failure. The demo
    switch is read once when the module loads, so it is a parameter too. */
module CoinGecko {
  import opened Wrappers
  import opened Text
  import opened MockData

  // ---------------------------------------------------------------- the two regular expressions

  /** The end of the longest run of characters outside `stop` that starts at
      `i`: what a greedy `[^...]+` consumes. */
  function RunEnd(s: string, i: nat, stop: set<char>): (e: nat)
    requires i <= |s|
    ensures i <= e <= |s|
    ensures forall k :: i <= k < e ==> s[k] !in stop
    ensures e == |s| || s[e] in stop
    decreases |s| - i
  {
    if i == |s| || s[i] in stop then i else RunEnd(s, i + 1, stop)
  }

  /** A run that ends at a stop character or at the end is the longest one. */
  lemma {:induction false} RunEndExact(s: string, i: nat, j: nat, stop: set<char>)
    requires i <= j <= |s|
    requires forall k :: i <= k < j ==> s[k] !in stop
    requires j == |s| || s[j] in stop
    ensures RunEnd(s, i, stop) == j
    decreases j - i
  {
    if i < j {
      RunEndExact(s, i + 1, j, stop);
    }
  }

  const CoinsPrefix: string := "/coins/"
  const OhlcSuffix: string := "/ohlc"

  /** `/\/coins\/([^/]+)\/ohlc/` matches at `p`. The greedy group takes the
      whole run of non-slash characters; giving any back would leave a
      non-slash character where the `/` of `/ohlc` must be, so the run is the
      only candidate. */
  predicate OhlcMatchAt(s: string, p: int) {
    && OccursAt(s, CoinsPrefix, p)
    && var e := RunEnd(s, p + 7, {'/'});
    && e > p + 7
    && OccursAt(s, OhlcSuffix, e)
  }

  /** `/\/coins\/([^/?]+)/` matches at `p`. */
  predicate CoinMatchAt(s: string, p: int) {
    OccursAt(s, CoinsPrefix, p) && RunEnd(s, p + 7, {'/', '?'}) > p + 7
  }

  /** The leftmost start position in `[q, |s|]` where `matchesAt` holds: the
      position `String.prototype.match` reports. */
  function Leftmost(s: string, q: nat, matchesAt: (string, int) -> bool): (r: Option<nat>)
    ensures r.Some? ==> q <= r.value <= |s| && matchesAt(s, r.value)
    ensures r.Some? ==> forall p :: q <= p < r.value ==> !matchesAt(s, p)
    ensures r.None? ==> forall p :: q <= p <= |s| ==> !matchesAt(s, p)
    decreases |s| + 1 - q
  {
    if q > |s| then None
    else if matchesAt(s, q) then Some(q)
    else Leftmost(s, q + 1, matchesAt)
  }

  /** `endpoint.match(/\/coins\/([^/]+)\/ohlc/)?.[1]` */
  function OhlcId(s: string): Option<string> {
    match Leftmost(s, 0, OhlcMatchAt)
    case None => None
    case Some(p) => Some(s[p + 7..RunEnd(s, p + 7, {'/'})])
  }

  /** `endpoint.match(/\/coins\/([^/?]+)/)?.[1]` */
  function CoinId(s: string): Option<string> {
    match Leftmost(s, 0, CoinMatchAt)
    case None => None
    case Some(p) => Some(s[p + 7..RunEnd(s, p + 7, {'/', '?'})])
  }

  /** A non-empty id free of the excluded characters. */
  predicate IdSegment(id: string, stop: set<char>) {
    id != [] && forall k :: 0 <= k < |id| ==> id[k] !in stop
  }

  lemma OccursConcat(s: string, a: string, b: string, p: int)
    requires OccursAt(s, a, p) && OccursAt(s, b, p + |a|)
    ensures OccursAt(s, a + b, p)
  {
    assert s[p..p + |a + b|] == s[p..p + |a|] + s[p + |a|..p + |a| + |b|];
  }

  lemma OccursSplit(s: string, a: string, b: string, p: int)
    requires OccursAt(s, a + b, p)
    ensures OccursAt(s, a, p) && OccursAt(s, b, p + |a|)
  {
    assert s[p..p + |a|] == (a + b)[..|a|];
    assert s[p + |a|..p + |a| + |b|] == (a + b)[|a|..];
  }

  /** The OHLC pattern matches at `p` exactly when `/coins/{id}/ohlc` occurs
      there for a non-empty `id` without `/`. */
  lemma OhlcMatchAtIff(s: string, p: int, id: string)
    requires IdSegment(id, {'/'})
    ensures OccursAt(s, CoinsPrefix + id + OhlcSuffix, p) ==> OhlcMatchAt(s, p) && RunEnd(s, p + 7, {'/'}) == p + 7 + |id|
    ensures OhlcMatchAt(s, p) && RunEnd(s, p + 7, {'/'}) == p + 7 + |id| && s[p + 7..p + 7 + |id|] == id
      ==> OccursAt(s, CoinsPrefix + id + OhlcSuffix, p)
  {
    if OccursAt(s, CoinsPrefix + id + OhlcSuffix, p) {
      OccursSplit(s, CoinsPrefix + id, OhlcSuffix, p);
      OccursSplit(s, CoinsPrefix, id, p);
      var j := p + 7 + |id|;
      assert s[j] == OhlcSuffix[0];
      forall k | p + 7 <= k < j ensures s[k] !in {'/'} {
        assert s[k] == id[k - (p + 7)];
      }
      RunEndExact(s, p + 7, j, {'/'});
    }
    if OhlcMatchAt(s, p) && RunEnd(s, p + 7, {'/'}) == p + 7 + |id| && s[p + 7..p + 7 + |id|] == id {
      assert OccursAt(s, id, p + 7);
      OccursConcat(s, CoinsPrefix, id, p);
      OccursConcat(s, CoinsPrefix + id, OhlcSuffix, p);
    }
  }

  /** What the OHLC pattern captures: a non-empty id without `/` such that
      `/coins/{id}/ohlc` occurs in the endpoint. */
  lemma OhlcIdSound(s: string)
    ensures OhlcId(s).Some? ==>
      && IdSegment(OhlcId(s).value, {'/'})
      && Includes(s, CoinsPrefix + OhlcId(s).value + OhlcSuffix)
  {
    var m := Leftmost(s, 0, OhlcMatchAt);
    if m.Some? {
      var p := m.value;
      var e := RunEnd(s, p + 7, {'/'});
      var id := s[p + 7..e];
      assert IdSegment(id, {'/'}) by {
        forall k | 0 <= k < |id| ensures id[k] !in {'/'} {
          assert id[k] == s[p + 7 + k];
        }
      }
      OhlcMatchAtIff(s, p, id);
      OccursThenIncludes(s, CoinsPrefix + id + OhlcSuffix, p);
    }
  }

  /** The OHLC pattern captures something whenever `/coins/{id}/ohlc` occurs
      for a non-empty `id` without `/`. */
  lemma OhlcIdComplete(s: string, p: int, id: string)
    requires IdSegment(id, {'/'}) && OccursAt(s, CoinsPrefix + id + OhlcSuffix, p)
    ensures OhlcId(s).Some?
  {
    OhlcMatchAtIff(s, p, id);
  }

  /** What the coin pattern captures: a non-empty id with neither `/` nor `?`
      such that `/coins/{id}` occurs in the endpoint. */
  lemma CoinIdSound(s: string)
    ensures CoinId(s).Some? ==>
      && IdSegment(CoinId(s).value, {'/', '?'})
      && Includes(s, CoinsPrefix + CoinId(s).value)
  {
    var m := Leftmost(s, 0, CoinMatchAt);
    if m.Some? {
      var p := m.value;
      var e := RunEnd(s, p + 7, {'/', '?'});
      var id := s[p + 7..e];
      assert IdSegment(id, {'/', '?'}) by {
        forall k | 0 <= k < |id| ensures id[k] !in {'/', '?'} {
          assert id[k] == s[p + 7 + k];
        }
      }
      assert OccursAt(s, id, p + 7);
      OccursConcat(s, CoinsPrefix, id, p);
      OccursThenIncludes(s, CoinsPrefix + id, p);
    }
  }

  /** The coin pattern captures something whenever `/coins/` is followed by a
      character other than `/` and `?`. */
  lemma CoinIdComplete(s: string, p: int, id: string)
    requires IdSegment(id, {'/', '?'}) && OccursAt(s, CoinsPrefix + id, p)
    ensures CoinId(s).Some?
  {
    OccursSplit(s, CoinsPrefix, id, p);
    assert s[p + 7] == id[0];
    assert CoinMatchAt(s, p);
  }

  // ---------------------------------------------------------------- getMockData

  /** The branch of `getMockData` an endpoint takes. */
  datatype Route =
    | BitcoinOhlc
    | BitcoinDetail
    | CategoriesRoute
    | CoinOhlc(id: string)
    | CoinDetail(id: string)
    | TrendingRoute
    | NoRoute

  /** The tests of `getMockData`, in their order; the first that passes wins. */
  function RouteOf(endpoint: string): Route {
    if Includes(endpoint, "/coins/bitcoin/ohlc") then BitcoinOhlc
    else if endpoint == "/coins/bitcoin" || StartsWith(endpoint, "/coins/bitcoin?") then BitcoinDetail
    else if endpoint == "/coins/categories" || Includes(endpoint, "/coins/categories") then CategoriesRoute
    else if OhlcId(endpoint).Some? then CoinOhlc(OhlcId(endpoint).value)
    else if CoinId(endpoint).Some? then CoinDetail(CoinId(endpoint).value)
    else if Includes(endpoint, "/search/trending") then TrendingRoute
    else NoRoute
  }

  /** An endpoint that mentions the categories path never gets a coin record
      or a coin's OHLC series, although the coin patterns would match it. */
  lemma CategoriesBeforeCoinPatterns(endpoint: string)
    requires Includes(endpoint, "/coins/categories")
    ensures !RouteOf(endpoint).CoinOhlc? && !RouteOf(endpoint).CoinDetail?
    ensures RouteOf(endpoint) in {BitcoinOhlc, BitcoinDetail, CategoriesRoute}
  {
  }

  /** Trending is reached only when no coin pattern matches: an endpoint in
      which `/coins/` is followed by a character other than `/` and `?` gets
      coin data, whatever else it contains. */
  lemma CoinPatternsBeforeTrending(endpoint: string, p: int, id: string)
    requires IdSegment(id, {'/', '?'}) && OccursAt(endpoint, CoinsPrefix + id, p)
    ensures RouteOf(endpoint) != TrendingRoute && RouteOf(endpoint) != NoRoute
  {
    CoinIdComplete(endpoint, p, id);
  }

  /** The ids the generic routes carry: the OHLC id has no `/` and names a
      coin whose `/coins/{id}/ohlc` path is in the endpoint; the detail id has
      neither `/` nor `?`. */
  lemma RouteIds(endpoint: string)
    ensures RouteOf(endpoint).CoinOhlc? ==>
      && IdSegment(RouteOf(endpoint).id, {'/'})
      && Includes(endpoint, CoinsPrefix + RouteOf(endpoint).id + OhlcSuffix)
    ensures RouteOf(endpoint).CoinDetail? ==>
      && IdSegment(RouteOf(endpoint).id, {'/', '?'})
      && Includes(endpoint, CoinsPrefix + RouteOf(endpoint).id)
    ensures RouteOf(endpoint) == TrendingRoute ==>
      Includes(endpoint, "/search/trending") && OhlcId(endpoint).None? && CoinId(endpoint).None?
  {
    OhlcIdSound(endpoint);
    CoinIdSound(endpoint);
  }

  /** What `getMockData` returns; an array or object, never a falsy value. */
  datatype MockPayload =
    | OhlcPayload(candles: seq<Candle>)
    | CoinPayload(details: CoinDetails)
    | CategoriesPayload(categories: seq<Category>)
    | TrendingPayload(coins: seq<TrendingCoin>)

  /** The random inputs the demo OHLC series need: the clock reading and draws
      consumed when the module loaded (for `mockOHLCData`) and those of the
      current call (for a generic coin's series). */
  datatype MockSource = MockSource(loadNow: int, loadDraws: seq<real>, now: int, draws: seq<real>)

  predicate EnoughRandomness(src: MockSource) {
    |src.loadDraws| >= 75 && |src.draws| >= 75
  }

  /** `getMockData(endpoint)`; `None` is `null`. */
  function GetMockData(endpoint: string, src: MockSource): (r: Option<MockPayload>)
    requires EnoughRandomness(src)
    ensures r.None? <==> RouteOf(endpoint) == NoRoute
    ensures RouteOf(endpoint) == BitcoinOhlc ==> r == Some(OhlcPayload(MockOHLC(96000.0, src.loadNow, src.loadDraws)))
    ensures RouteOf(endpoint) == BitcoinDetail ==> r == Some(CoinPayload(MockBitcoinData))
    ensures RouteOf(endpoint) == CategoriesRoute ==> r == Some(CategoriesPayload(MockCategories))
    ensures RouteOf(endpoint).CoinOhlc? ==>
      var price := GetMockCoinData(RouteOf(endpoint).id).marketData.currentPrice;
      r == Some(OhlcPayload(MockOHLC(price, src.now, src.draws)))
    ensures RouteOf(endpoint).CoinDetail? ==> r == Some(CoinPayload(GetMockCoinData(RouteOf(endpoint).id)))
    ensures RouteOf(endpoint) == TrendingRoute ==> r == Some(TrendingPayload(MockTrendingCoins))
  {
    match RouteOf(endpoint)
    case BitcoinOhlc => Some(OhlcPayload(MockOHLC(96000.0, src.loadNow, src.loadDraws)))
    case BitcoinDetail => Some(CoinPayload(MockBitcoinData))
    case CategoriesRoute => Some(CategoriesPayload(MockCategories))
    case CoinOhlc(coinId) =>
      var coinData := GetMockCoinData(coinId);
      var basePrice := coinData.marketData.currentPrice;
      Some(OhlcPayload(GetMockOHLCData(Some(basePrice), src.now, src.draws)))
    case CoinDetail(coinId) => Some(CoinPayload(GetMockCoinData(coinId)))
    case TrendingRoute => Some(TrendingPayload(MockTrendingCoins))
    case NoRoute => None
  }

  /** A generic coin's demo series opens at that coin's demo price: the
      table's price for a table coin, 100 for any other id. */
  lemma CoinOhlcSeededByCoinPrice(endpoint: string, src: MockSource)
    requires EnoughRandomness(src) && RouteOf(endpoint).CoinOhlc?
    ensures var id := RouteOf(endpoint).id;
      var r := GetMockData(endpoint, src);
      && r.Some? && r.value.OhlcPayload? && |r.value.candles| == 25
      && r.value.candles[0].open == (if id in MockCoins then MockCoins[id].marketData.currentPrice else 100.0)
  {
    var id := RouteOf(endpoint).id;
    var price := GetMockCoinData(id).marketData.currentPrice;
    MockOHLCChained(price, src.now, src.draws);
  }

  /** An endpoint without `/ohlc` never matches the OHLC pattern. */
  lemma NoSuffixNoOhlcId(s: string)
    requires !Includes(s, OhlcSuffix)
    ensures OhlcId(s).None?
  {
    var m := Leftmost(s, 0, OhlcMatchAt);
    if m.Some? {
      OccursThenIncludes(s, OhlcSuffix, RunEnd(s, m.value + 7, {'/'}));
    }
  }

  /** An endpoint without `/coins/` matches neither coin pattern. */
  lemma NoPrefixNoCoinId(s: string)
    requires !Includes(s, CoinsPrefix)
    ensures OhlcId(s).None? && CoinId(s).None?
  {
    var m := Leftmost(s, 0, OhlcMatchAt);
    if m.Some? {
      OccursThenIncludes(s, CoinsPrefix, m.value);
    }
    var m' := Leftmost(s, 0, CoinMatchAt);
    if m'.Some? {
      OccursThenIncludes(s, CoinsPrefix, m'.value);
    }
  }

  /** The two fixed bitcoin routes. (The examples take the endpoint as a
      parameter so that the verifier does not evaluate every test of the
      chain on a literal.) */
  lemma BitcoinOhlcRouteExample(endpoint: string)
    requires endpoint == "/coins/bitcoin/ohlc"
    ensures RouteOf(endpoint) == BitcoinOhlc
  {
    assert OccursAt(endpoint, "/coins/bitcoin/ohlc", 0);
    OccursThenIncludes(endpoint, "/coins/bitcoin/ohlc", 0);
  }

  lemma BitcoinDetailRouteExample(endpoint: string)
    requires endpoint == "/coins/bitcoin"
    ensures RouteOf(endpoint) == BitcoinDetail
  {
    IncludesNotLonger(endpoint, "/coins/bitcoin/ohlc");
  }

  /** `/coins/categories`, the endpoint the categories section requests, gets
      the categories list and not the record of a coin called "categories". */
  lemma CategoriesRouteExample(endpoint: string)
    requires endpoint == "/coins/categories"
    ensures RouteOf(endpoint) == CategoriesRoute
  {
    IncludesNotLonger(endpoint, "/coins/bitcoin/ohlc");
    assert endpoint[7] != "/coins/bitcoin?"[7];
    assert |endpoint| != |"/coins/bitcoin"|;
    assert OccursAt(endpoint, "/coins/categories", 0);
    OccursThenIncludes(endpoint, "/coins/categories", 0);
  }

  /** The coin pattern alone would read `/coins/categories` as the coin
      "categories". */
  lemma CategoriesLooksLikeACoin(endpoint: string)
    requires endpoint == "/coins/categories"
    ensures CoinId(endpoint) == Some("categories")
  {
    RunEndExact(endpoint, 7, 17, {'/', '?'});
    assert endpoint[7..17] == "categories";
    assert CoinMatchAt(endpoint, 0);
  }

  /** An endpoint that mentions no `/coins/` path is routed by the trending
      test alone: the trending list if it mentions `/search/trending`, no
      payload otherwise. The pool search is such an endpoint. */
  lemma OnlyTrendingWithoutCoins(s: string)
    requires !Includes(s, CoinsPrefix)
    ensures RouteOf(s) == (if Includes(s, "/search/trending") then TrendingRoute else NoRoute)
  {
    NoBitcoinTests(s);
    NoPrefixNoCoinId(s);
  }

  /** Without `/coins/` none of the three fixed tests passes. */
  lemma NoBitcoinTests(s: string)
    requires !Includes(s, CoinsPrefix)
    ensures !Includes(s, "/coins/bitcoin/ohlc") && !Includes(s, "/coins/categories")
    ensures !StartsWith(s, "/coins/bitcoin?") && s != "/coins/bitcoin"
  {
    NotIncludedWithPrefix(s, "bitcoin/ohlc");
    NotIncludedWithPrefix(s, "categories");
    if StartsWith(s, "/coins/bitcoin?") {
      BitcoinQueryHasPrefix(s);
    }
    BitcoinPathHasPrefix();
  }

  lemma BitcoinQueryHasPrefix(s: string)
    requires StartsWith(s, "/coins/bitcoin?")
    ensures Includes(s, CoinsPrefix)
  {
    assert "/coins/bitcoin?" == CoinsPrefix + "bitcoin?";
    StartsWithIncludesPrefix(s, CoinsPrefix, "bitcoin?");
  }

  lemma NotIncludedWithPrefix(s: string, rest: string)
    requires !Includes(s, CoinsPrefix)
    ensures !Includes(s, CoinsPrefix + rest)
  {
    if Includes(s, CoinsPrefix + rest) {
      IncludesPrefix(s, CoinsPrefix, rest);
    }
  }

  lemma StartsWithIncludesPrefix(s: string, a: string, b: string)
    requires StartsWith(s, a + b)
    ensures Includes(s, a)
  {
    assert s[..|a|] == (a + b)[..|a|] == a;
    assert OccursAt(s, a, 0);
    OccursThenIncludes(s, a, 0);
  }

  lemma BitcoinPathHasPrefix()
    ensures Includes("/coins/bitcoin", CoinsPrefix)
  {
    assert "/coins/bitcoin" == CoinsPrefix + "bitcoin";
    StartsWithIncludesPrefix("/coins/bitcoin", CoinsPrefix, "bitcoin");
  }

  // ---------------------------------------------------------------- fetcher

  /** The body of a response: JSON that parses (with its `error` field, read
      when the status is not OK) or text that does not. */
  datatype Body<T> = Json(value: T, errorField: Option<string>) | NotJson(parseError: string)

  /** What the one `fetch` of a call comes back with. */
  datatype NetOutcome<T> =
    | Response(status: int, statusText: string, body: Body<T>)
    | NetworkFailure(message: string)

  /** `response.ok`. */
  predicate IsOk(status: int) { 200 <= status <= 299 }

  predicate Succeeded<T>(outcome: NetOutcome<T>) {
    outcome.Response? && IsOk(outcome.status)
  }

  /** What reaches the caller of `fetcher` as a rejection. */
  datatype FetchError =
    | NoMockData(endpoint: string)
    | ApiError(status: int, detail: string)
    | NetworkError(message: string)
    | BodyParseError(message: string)

  /** The text of the `Error` each case carries. */
  function Message(e: FetchError): (r: string)
    ensures e.NoMockData? ==>
      StartsWith(r, "No mock data available for endpoint: ") && r[37..] == e.endpoint
    ensures e.ApiError? ==> StartsWith(r, "API Error: ") && EndsWith(r, ": " + e.detail)
  {
    match e
    case NoMockData(endpoint) => "No mock data available for endpoint: " + endpoint
    case ApiError(status, detail) => "API Error: " + IntToString(status) + ": " + detail
    case NetworkError(message) => message
    case BodyParseError(message) => message
  }

  /** The message names the endpoint: different endpoints give different
      messages. */
  lemma NoMockDataMessageInjective(a: string, b: string)
    requires Message(NoMockData(a)) == Message(NoMockData(b))
    ensures a == b
  {
  }

  /** `errorBody.error || response.statusText`, where a body that does not
      parse counts as `{}`. */
  function ErrorDetail<T>(statusText: string, body: Body<T>): (r: string)
    ensures body.Json? && body.errorField.Some? && body.errorField.value != [] ==> r == body.errorField.value
    ensures !(body.Json? && body.errorField.Some? && body.errorField.value != []) ==> r == statusText
  {
    match body
    case Json(_, errorField) => if Truthy(errorField) then errorField.value else statusText
    case NotJson(_) => statusText
  }

  /** The error a failed request throws inside the `try`. */
  function RequestError<T>(outcome: NetOutcome<T>): FetchError
    requires !Succeeded(outcome)
  {
    match outcome
    case NetworkFailure(message) => NetworkError(message)
    case Response(status, statusText, body) => ApiError(status, ErrorDetail(statusText, body))
  }

  /** A request: the endpoint and the query parameters. */
  datatype Request = Request(endpoint: string, query: Option<string>)

  /** What `fetcher` resolves to: the live body or a demo payload. */
  datatype Fetched<T> = Live(body: T) | Mock(payload: MockPayload)

  /** `fetcher(endpoint, params)`. `mockMode` is the switch read at load
      time, `outcome` what the request would come back with, and `sent` the
      request made, if any. */
  method Fetcher<T>(endpoint: string, query: Option<string>, mockMode: bool, src: MockSource, outcome: NetOutcome<T>)
    returns (r: Result<Fetched<T>, FetchError>, sent: Option<Request>)
    requires EnoughRandomness(src)
    // demo mode: no request, the demo payload or the "no mock data" error
    ensures mockMode ==> sent.None?
    ensures mockMode ==> r == match GetMockData(endpoint, src)
      case Some(payload) => Ok(Mock(payload))
      case None => Err(NoMockData(endpoint))
    // otherwise exactly one request
    ensures !mockMode ==> sent == Some(Request(endpoint, query))
    // an OK response is returned as it is, even when its body does not parse
    ensures !mockMode && Succeeded(outcome) ==> r == match outcome.body
      case Json(value, _) => Ok(Live(value))
      case NotJson(message) => Err(BodyParseError(message))
    // any other outcome: the demo payload when there is one, else the error
    ensures !mockMode && !Succeeded(outcome) ==> r == match GetMockData(endpoint, src)
      case Some(payload) => Ok(Mock(payload))
      case None => Err(RequestError(outcome))
    // consequences: a demo payload is served only for a routed endpoint and
    // never instead of an OK response; an API error reaches the caller only
    // for an endpoint without a route
    ensures r.Ok? && r.value.Mock? ==> RouteOf(endpoint) != NoRoute && (mockMode || !Succeeded(outcome))
    ensures r.Err? && (r.error.ApiError? || r.error.NetworkError?) ==> RouteOf(endpoint) == NoRoute
  {
    if mockMode {
      var mockData := GetMockData(endpoint, src);
      if mockData.Some? {
        return Ok(Mock(mockData.value)), None;
      }
      return Err(NoMockData(endpoint)), None;
    }
    sent := Some(Request(endpoint, query));
    var thrown: FetchError;
    match outcome {
      case NetworkFailure(message) =>
        thrown := NetworkError(message);
      case Response(status, statusText, body) =>
        if !IsOk(status) {
          if status == 429 || status == 400 || status == 401 {
            var mockData := GetMockData(endpoint, src);
            if mockData.Some? {
              return Ok(Mock(mockData.value)), sent;
            }
          }
          thrown := ApiError(status, ErrorDetail(statusText, body));
        } else {
          // the body is returned without being awaited, so a parse failure
          // rejects past the `catch`
          match body {
            case Json(value, _) => return Ok(Live(value)), sent;
            case NotJson(message) => return Err(BodyParseError(message)), sent;
          }
        }
    }
    // the `catch`
    var mockData := GetMockData(endpoint, src);
    if mockData.Some? {
      return Ok(Mock(mockData.value)), sent;
    }
    return Err(thrown), sent;
  }

  // ---------------------------------------------------------------- getPools

  datatype PoolData = PoolData(id: string, address: string, name: string, network: string)

  const FallbackPool: PoolData := PoolData("", "", "", "")

  /** The response body `getPools` expects: `{ data: PoolData[] }`, where
      `data` may be missing. */
  datatype PoolsBody = PoolsBody(data: Option<seq<PoolData>>)

  /** `poolData.data?.[0]`. */
  function FirstPool(body: PoolsBody): Option<PoolData> {
    if body.data.Some? && |body.data.value| > 0 then Some(body.data.value[0]) else None
  }

  /** The request `getPools` makes: the token's pools when both the network
      and the contract address are non-empty, a search by id otherwise. */
  function PoolsRequest(id: string, network: Option<string>, contractAddress: Option<string>): (r: Request)
    ensures Truthy(network) && Truthy(contractAddress) ==>
      r == Request("/onchain/networks/" + network.value + "/tokens/" + contractAddress.value + "/pools", None)
    ensures !(Truthy(network) && Truthy(contractAddress)) ==> r == Request("/onchain/search/pools", Some(id))
  {
    if Truthy(network) && Truthy(contractAddress) then
      Request("/onchain/networks/" + network.value + "/tokens/" + contractAddress.value + "/pools", None)
    else
      Request("/onchain/search/pools", Some(id))
  }

  /** `getPools(id, network, contractAddress)`: never rejects. */
  method GetPools(id: string, network: Option<string>, contractAddress: Option<string>,
                  mockMode: bool, src: MockSource, outcome: NetOutcome<PoolsBody>)
    returns (pool: PoolData, sent: Option<Request>)
    requires EnoughRandomness(src)
    ensures mockMode ==> pool == FallbackPool && sent.None?
    ensures !mockMode ==> sent == Some(PoolsRequest(id, network, contractAddress))
    // the first pool of an OK response, the fallback in every other case
    ensures pool == (if !mockMode && Succeeded(outcome) && outcome.body.Json? && FirstPool(outcome.body.value).Some?
                     then FirstPool(outcome.body.value).value else FallbackPool)
  {
    pool := FallbackPool;
    if mockMode {
      return pool, None;
    }
    var request := PoolsRequest(id, network, contractAddress);
    var r;
    r, sent := Fetcher(request.endpoint, request.query, mockMode, src, outcome);
    match r {
      case Ok(Live(poolData)) =>
        var first := FirstPool(poolData);
        if first.Some? {
          pool := first.value;
        }
      case Ok(Mock(_)) =>
        // no demo payload has a `data` field
      case Err(_) =>
    }
  }
}
