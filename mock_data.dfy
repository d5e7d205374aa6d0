/** The demo data served when the CoinGecko API is not configured: a six-coin
    table, a per-coin detail record built from it (with a generic record for
    any other id), a random-walk OHLC series, fixed category and trending
    lists, and the environment test that switches the demo mode on.

    `Math.random()` and `Date.now()` are parameters: the OHLC generator takes
    the clock reading `now` and the sequence of random draws it consumes, three
    per candle in the order the loop asks for them. */
module MockData {
  import opened Wrappers
  import opened Text
  import opened MathUtils

  // ---------------------------------------------------------------- records

  datatype Image = Image(large: string, small: string)

  /** The `usd` values of the market data block. */
  datatype MarketData = MarketData(
    currentPrice: real,
    priceChange24h: real,
    priceChangePercentage24h: real,
    priceChangePercentage30d: real,
    marketCap: real,
    totalVolume: real)

  /** An entry of `MOCK_COINS`. */
  datatype CoinEntry = CoinEntry(
    id: string, name: string, symbol: string, marketCapRank: nat,
    image: Image, marketData: MarketData)

  datatype Links = Links(homepage: seq<string>, blockchainSite: seq<string>, subredditUrl: string)

  /** A market of the coin on an exchange; the demo records carry none. */
  datatype Ticker = Ticker(base: string, target: string, last: real)

  /** `CoinDetailsData`; `assetPlatformId` is `null` for every demo record. */
  datatype CoinDetails = CoinDetails(
    id: string, name: string, symbol: string, assetPlatformId: Option<string>,
    image: Image, marketData: MarketData, marketCapRank: nat,
    description: string, links: Links, tickers: seq<Ticker>)

  // ---------------------------------------------------------------- the coin table

  const ImageBase: string := "https://coin-images.coingecko.com/coins/images/"

  const BitcoinImage: Image := Image(ImageBase + "1/large/bitcoin.png", ImageBase + "1/small/bitcoin.png")

  const BitcoinMarket: MarketData := MarketData(97500.0, 1250.5, 1.3, 12.5, 1920000000000.0, 45000000000.0)

  /** `MOCK_COINS`, keyed by coin id. */
  const MockCoins: map<string, CoinEntry> := map[
    "bitcoin" := CoinEntry("bitcoin", "Bitcoin", "btc", 1, BitcoinImage, BitcoinMarket),
    "ethereum" := CoinEntry("ethereum", "Ethereum", "eth", 2,
      Image(ImageBase + "279/large/ethereum.png", ImageBase + "279/small/ethereum.png"),
      MarketData(3450.0, 85.5, 2.1, 8.3, 415000000000.0, 18000000000.0)),
    "solana" := CoinEntry("solana", "Solana", "sol", 5,
      Image(ImageBase + "4128/large/solana.png", ImageBase + "4128/small/solana.png"),
      MarketData(185.0, 6.2, 3.5, 15.8, 87000000000.0, 4500000000.0)),
    "ripple" := CoinEntry("ripple", "XRP", "xrp", 4,
      Image(ImageBase + "44/large/xrp-symbol-white-128.png", ImageBase + "44/small/xrp-symbol-white-128.png"),
      MarketData(2.35, -0.02, -0.8, 45.2, 135000000000.0, 8500000000.0)),
    "dogecoin" := CoinEntry("dogecoin", "Dogecoin", "doge", 8,
      Image(ImageBase + "5/large/dogecoin.png", ImageBase + "5/small/dogecoin.png"),
      MarketData(0.32, 0.016, 5.2, 22.1, 47000000000.0, 2800000000.0)),
    "cardano" := CoinEntry("cardano", "Cardano", "ada", 9,
      Image(ImageBase + "975/large/cardano.png", ImageBase + "975/small/cardano.png"),
      MarketData(0.95, -0.012, -1.2, 18.5, 33000000000.0, 1200000000.0))
  ]

  /** The table has six coins. */
  lemma MockCoinsSize()
    ensures MockCoins.Keys == {"bitcoin", "ethereum", "solana", "ripple", "dogecoin", "cardano"}
    ensures |MockCoins| == 6
  {
    assert MockCoins.Keys == {"bitcoin", "ethereum", "solana", "ripple", "dogecoin", "cardano"};
  }

  /** Every entry is filed under its own id. */
  lemma MockCoinsKeyedById()
    ensures forall k :: k in MockCoins ==> MockCoins[k].id == k
  {
    MockCoinsSize();
  }

  // ---------------------------------------------------------------- detail records

  /** The links both branches of `getMockCoinData` build from the id. */
  function CoinLinks(coinId: string): Links {
    Links(["https://" + coinId + ".org"], ["https://explorer." + coinId + ".org"], "https://reddit.com/r/" + coinId)
  }

  /** `s.charAt(0).toUpperCase() + s.slice(1)` (ASCII case mapping). */
  function Capitalize(s: string): (r: string)
    ensures |r| == |s|
    ensures s != [] ==> r[0] == UpperChar(s[0]) && r[1..] == s[1..]
  {
    if s == [] then [] else [UpperChar(s[0])] + s[1..]
  }

  /** `s.slice(0, 3).toUpperCase()` (ASCII case mapping). */
  function SymbolOf(s: string): (r: string)
    ensures |r| == if |s| < 3 then |s| else 3
    ensures forall i :: 0 <= i < |r| ==> r[i] == UpperChar(s[i])
  {
    ToUpper(s[..if |s| < 3 then |s| else 3])
  }

  const FallbackMarket: MarketData := MarketData(100.0, 2.5, 2.5, 10.0, 1000000000.0, 50000000.0)

  /** `getMockCoinData`: the table entry with demo description and links, or a
      generic record named after the id. */
  function GetMockCoinData(coinId: string): (r: CoinDetails)
    ensures r.assetPlatformId == None && r.tickers == []
    ensures r.links.homepage == ["https://" + coinId + ".org"]
    ensures r.links.blockchainSite == ["https://explorer." + coinId + ".org"]
    ensures r.links.subredditUrl == "https://reddit.com/r/" + coinId
    ensures coinId in MockCoins ==>
      var c := MockCoins[coinId];
      && r.id == c.id && r.name == c.name && r.symbol == c.symbol
      && r.marketCapRank == c.marketCapRank && r.image == c.image && r.marketData == c.marketData
      && r.description == c.name + " is a popular cryptocurrency."
    ensures coinId !in MockCoins ==>
      && r.id == coinId && r.name == Capitalize(coinId) && r.symbol == SymbolOf(coinId)
      && r.image == BitcoinImage
      && r.marketData.currentPrice == 100.0 && r.marketCapRank == 100
      && r.description == coinId + " is a cryptocurrency."
  {
    if coinId in MockCoins then
      var coin := MockCoins[coinId];
      CoinDetails(coin.id, coin.name, coin.symbol, None, coin.image, coin.marketData, coin.marketCapRank,
        coin.name + " is a popular cryptocurrency.", CoinLinks(coinId), [])
    else
      CoinDetails(coinId, Capitalize(coinId), SymbolOf(coinId), None, BitcoinImage, FallbackMarket, 100,
        coinId + " is a cryptocurrency.", CoinLinks(coinId), [])
  }

  /** Whatever the id, the record is about the coin asked for. */
  lemma GetMockCoinDataIsAboutTheId(coinId: string)
    ensures GetMockCoinData(coinId).id == coinId
  {
    MockCoinsKeyedById();
  }

  /** `mockBitcoinData`, served for `/coins/bitcoin`. */
  const MockBitcoinData: CoinDetails := CoinDetails(
    "bitcoin", "Bitcoin", "btc", None, BitcoinImage, BitcoinMarket, 1,
    "Bitcoin is the first successful internet money based on peer-to-peer technology.",
    Links(["https://bitcoin.org"], ["https://blockchain.info"], "https://reddit.com/r/bitcoin"), [])

  /** An unknown id is capitalised for the name and cut to three capitals for
      the symbol; an empty id gives empty ones. */
  lemma UnknownCoinExamples()
    ensures GetMockCoinData("pepe").name == "Pepe" && GetMockCoinData("pepe").symbol == "PEP"
    ensures GetMockCoinData("pepe").marketCapRank == 100
    ensures GetMockCoinData("xy").symbol == "XY" && GetMockCoinData("").name == ""
  {
    assert "pepe" !in MockCoins;
    assert "xy" !in MockCoins;
    assert "" !in MockCoins;
    assert "pepe"[..3] == "pep";
  }

  /** The dedicated bitcoin record agrees with the table's bitcoin record in
      market data, image and homepage, and differs in its description and
      explorer link. */
  lemma BitcoinRecordDiffers()
    ensures var b := GetMockCoinData("bitcoin");
      && b.marketData == MockBitcoinData.marketData && b.image == MockBitcoinData.image
      && b.links.homepage == MockBitcoinData.links.homepage
      && b.description != MockBitcoinData.description
      && b.links.blockchainSite != MockBitcoinData.links.blockchainSite
  {
    assert "https://" + "bitcoin" + ".org" == "https://bitcoin.org";
    var b := GetMockCoinData("bitcoin");
    assert |b.description| != |MockBitcoinData.description|;
    assert |b.links.blockchainSite[0]| != |MockBitcoinData.links.blockchainSite[0]|;
  }

  // ---------------------------------------------------------------- OHLC series

  /** `[timestamp, open, high, low, close]`. */
  datatype Candle = Candle(timestamp: int, open: real, high: real, low: real, close: real)

  /** The first value of the loop counter: the oldest candle is this many hours
      old. */
  const HoursBack: int := 24

  /** The base price `getMockOHLCData` uses when none is given. */
  const DefaultBasePrice: real := 96000.0

  /** One round of the loop: the candle opened at `price`, drawn with `dc` for the
      change and `dh`, `dl` for the wicks. */
  function MakeCandle(timestamp: int, price: real, volatility: real, dc: real, dh: real, dl: real): Candle {
    var open := price;
    var change := (dc - 0.48) * volatility;
    var close := price + change;
    var high := Max(open, close) + dh * (volatility * 0.4);
    var low := Min(open, close) - dl * (volatility * 0.4);
    Candle(timestamp, open, high, low, close)
  }

  /** The draws are read three at a time from position `at`; there are enough
      of them for rounds `i` down to 0. */
  predicate EnoughDraws(draws: seq<real>, i: int, at: int) {
    i >= -1 && 0 <= at && at + 3 * (i + 1) <= |draws|
  }

  /** The candles of loop rounds `i`, `i - 1`, ..., `0`, the first opening at
      `price` and drawn from `draws[at..]`; round `i` is stamped `i` hours (of
      3600000 ms) before `now`. */
  function CandlesFrom(now: int, i: int, price: real, volatility: real, draws: seq<real>, at: int): seq<Candle>
    requires EnoughDraws(draws, i, at)
    decreases |draws| - at
  {
    if i < 0 then []
    else
      var c := MakeCandle(now - i * 3600000, price, volatility, draws[at], draws[at + 1], draws[at + 2]);
      [c] + CandlesFrom(now, i - 1, c.close, volatility, draws, at + 3)
  }

  /** What `generateMockOHLC(basePrice)` returns for the clock reading `now`
      and the random draws `draws`: 25 hourly candles with volatility 0.5% of
      the base price. */
  function MockOHLC(basePrice: real, now: int, draws: seq<real>): seq<Candle>
    requires |draws| >= 75
  {
    CandlesFrom(now, HoursBack, basePrice, basePrice * 0.005, draws, 0)
  }

  /** `getMockOHLCData(basePrice?)`: an absent base price means 96000. */
  function GetMockOHLCData(basePrice: Option<real>, now: int, draws: seq<real>): (r: seq<Candle>)
    requires |draws| >= 75
    ensures basePrice.None? ==> r == MockOHLC(DefaultBasePrice, now, draws)
    ensures basePrice.Some? ==> r == MockOHLC(basePrice.value, now, draws)
  {
    MockOHLC(basePrice.GetOr(DefaultBasePrice), now, draws)
  }

  /** `generateMockOHLC`: counts `i` down from 24 to 0, pushing one candle per
      round and carrying the close into the next round's open. */
  method GenerateMockOHLC(basePrice: real, now: int, draws: seq<real>) returns (data: seq<Candle>)
    requires |draws| >= 75
    ensures data == MockOHLC(basePrice, now, draws)
  {
    var hourMs := 3600000;
    data := [];
    var price := basePrice;
    var volatility := basePrice * 0.005;
    var next := 0;
    var i := 24;
    while i >= 0
      invariant -1 <= i <= 24 && next == 3 * (24 - i)
      invariant data + CandlesFrom(now, i, price, volatility, draws, next) == MockOHLC(basePrice, now, draws)
      decreases i + 1
    {
      var candle := MakeCandle(now - i * hourMs, price, volatility, draws[next], draws[next + 1], draws[next + 2]);
      GenerateStep(data, now, i, price, volatility, draws, next);
      data := data + [candle];
      price := candle.close;
      next := next + 3;
      i := i - 1;
    }
  }

  /** One round moves the first pending candle onto the output. */
  lemma GenerateStep(data: seq<Candle>, now: int, i: int, price: real, volatility: real, draws: seq<real>, at: int)
    requires EnoughDraws(draws, i, at) && i >= 0
    ensures var c := MakeCandle(now - i * 3600000, price, volatility, draws[at], draws[at + 1], draws[at + 2]);
      data + CandlesFrom(now, i, price, volatility, draws, at)
      == (data + [c]) + CandlesFrom(now, i - 1, c.close, volatility, draws, at + 3)
  {
    var c := MakeCandle(now - i * 3600000, price, volatility, draws[at], draws[at + 1], draws[at + 2]);
    var rest := CandlesFrom(now, i - 1, c.close, volatility, draws, at + 3);
    assert CandlesFrom(now, i, price, volatility, draws, at) == [c] + rest;
    assert data + ([c] + rest) == (data + [c]) + rest;
  }

  /** Round `i` down to round 0 gives `i + 1` candles, the `k`-th stamped
      `(i - k)` hours before `now`, each an hour after the one before. */
  lemma {:induction false} CandlesFromTimestamps(now: int, i: int, price: real, volatility: real, draws: seq<real>, at: int)
    requires EnoughDraws(draws, i, at)
    ensures var r := CandlesFrom(now, i, price, volatility, draws, at);
      && |r| == i + 1
      && (forall k :: 0 <= k < |r| ==> r[k].timestamp == now - (i - k) * 3600000)
    decreases i + 1
  {
    if i >= 0 {
      var c := MakeCandle(now - i * 3600000, price, volatility, draws[at], draws[at + 1], draws[at + 2]);
      CandlesFromTimestamps(now, i - 1, c.close, volatility, draws, at + 3);
    }
  }

  /** Candle `k` opens at the close of candle `k - 1`. */
  predicate OpensAtPreviousClose(r: seq<Candle>, k: int)
    requires 0 < k < |r|
  {
    r[k].open == r[k - 1].close
  }

  /** The first candle opens at `price` and every later one opens at the close
      of the one before. */
  lemma {:induction false} CandlesFromChained(now: int, i: int, price: real, volatility: real, draws: seq<real>, at: int)
    requires EnoughDraws(draws, i, at)
    ensures var r := CandlesFrom(now, i, price, volatility, draws, at);
      && (|r| > 0 ==> r[0].open == price)
      && forall k :: 0 < k < |r| ==> OpensAtPreviousClose(r, k)
    decreases i + 1
  {
    if i >= 0 {
      var c := MakeCandle(now - i * 3600000, price, volatility, draws[at], draws[at + 1], draws[at + 2]);
      var rest := CandlesFrom(now, i - 1, c.close, volatility, draws, at + 3);
      CandlesFromChained(now, i - 1, c.close, volatility, draws, at + 3);
      var r := [c] + rest;
      forall k | 0 < k < |r|
        ensures OpensAtPreviousClose(r, k)
      {
        if k > 1 {
          assert OpensAtPreviousClose(rest, k - 1);
        }
      }
    }
  }

  /** The high is at or above both the open and the close, and the low at or
      below both. */
  predicate WicksEncloseBody(c: Candle) {
    c.high >= Max(c.open, c.close) && c.low <= Min(c.open, c.close)
  }

  /** With a non-negative volatility and non-negative draws the wicks enclose
      the body of every candle. */
  lemma {:induction false} CandlesFromWicks(now: int, i: int, price: real, volatility: real, draws: seq<real>, at: int)
    requires EnoughDraws(draws, i, at)
    requires volatility >= 0.0 && forall j :: 0 <= j < |draws| ==> draws[j] >= 0.0
    ensures forall c :: c in CandlesFrom(now, i, price, volatility, draws, at) ==> WicksEncloseBody(c)
    decreases i + 1
  {
    if i >= 0 {
      var c := MakeCandle(now - i * 3600000, price, volatility, draws[at], draws[at + 1], draws[at + 2]);
      MulNonNegative(draws[at + 1], volatility * 0.4);
      MulNonNegative(draws[at + 2], volatility * 0.4);
      assert WicksEncloseBody(c);
      CandlesFromWicks(now, i - 1, c.close, volatility, draws, at + 3);
    }
  }

  /** The series `generateMockOHLC` promises: 25 candles an hour apart ending
      at `now`, strictly increasing in time. */
  lemma MockOHLCTimestamps(basePrice: real, now: int, draws: seq<real>)
    requires |draws| >= 75
    ensures var r := MockOHLC(basePrice, now, draws);
      && |r| == 25
      && (forall k :: 0 <= k < 25 ==> r[k].timestamp == now - (24 - k) * 3600000)
      && (forall k :: 0 <= k < 24 ==> r[k + 1].timestamp == r[k].timestamp + 3600000)
      && r[24].timestamp == now
  {
    var r := MockOHLC(basePrice, now, draws);
    CandlesFromTimestamps(now, HoursBack, basePrice, basePrice * 0.005, draws, 0);
    forall k | 0 <= k < 24
      ensures r[k + 1].timestamp == r[k].timestamp + 3600000
    {
      assert r[k + 1].timestamp == now - (24 - (k + 1)) * 3600000;
    }
  }

  /** The first candle opens at the base price and each later one at the
      previous close. */
  lemma MockOHLCChained(basePrice: real, now: int, draws: seq<real>)
    requires |draws| >= 75
    ensures var r := MockOHLC(basePrice, now, draws);
      && |r| == 25
      && r[0].open == basePrice
      && (forall k :: 0 < k < 25 ==> OpensAtPreviousClose(r, k))
  {
    CandlesFromTimestamps(now, HoursBack, basePrice, basePrice * 0.005, draws, 0);
    CandlesFromChained(now, HoursBack, basePrice, basePrice * 0.005, draws, 0);
  }

  /** For a non-negative base price and draws in [0, 1), which `Math.random()`
      guarantees, the wicks enclose the body of each candle. */
  lemma MockOHLCWicks(basePrice: real, now: int, draws: seq<real>)
    requires |draws| >= 75
    requires basePrice >= 0.0 && forall j :: 0 <= j < |draws| ==> 0.0 <= draws[j] < 1.0
    ensures forall c :: c in MockOHLC(basePrice, now, draws) ==> WicksEncloseBody(c)
  {
    CandlesFromWicks(now, HoursBack, basePrice, basePrice * 0.005, draws, 0);
  }

  // ---------------------------------------------------------------- static lists

  /** An entry of `mockCategories`. */
  datatype Category = Category(
    name: string, top3Coins: seq<string>, marketCapChange24h: real, marketCap: real, volume24h: real)

  const MockCategories: seq<Category> := [
    Category("Layer 1 (L1)",
      [ImageBase + "1/small/bitcoin.png", ImageBase + "279/small/ethereum.png", ImageBase + "4128/small/solana.png"],
      2.5, 2500000000000.0, 85000000000.0),
    Category("Smart Contract Platform",
      [ImageBase + "279/small/ethereum.png", ImageBase + "4128/small/solana.png", ImageBase + "975/small/cardano.png"],
      1.8, 650000000000.0, 32000000000.0),
    Category("DeFi",
      [ImageBase + "12559/small/Avalanche_Circle_RedWhite_Trans.png", ImageBase + "13442/small/steth_logo.png",
       ImageBase + "9956/small/Badge_Dai.png"],
      -0.5, 120000000000.0, 8500000000.0),
    Category("Meme",
      [ImageBase + "5/small/dogecoin.png", ImageBase + "11939/small/shiba.png", ImageBase + "29850/small/pepe-token.jpeg"],
      8.2, 75000000000.0, 12000000000.0),
    Category("Exchange Token",
      [ImageBase + "825/small/bnb-icon2_2x.png", ImageBase + "2822/small/huobi-token-logo.png",
       ImageBase + "4713/small/matic-token-icon.png"],
      0.9, 95000000000.0, 5500000000.0),
    Category("Gaming (GameFi)",
      [ImageBase + "12129/small/sandbox_logo.jpg", ImageBase + "12493/small/GALA-COINGECKO.png",
       ImageBase + "13029/small/axie_infinity_logo.png"],
      -2.1, 18000000000.0, 1200000000.0),
    Category("AI & Big Data",
      [ImageBase + "26375/small/FET_logo.png", ImageBase + "22959/small/AGIX-token-img.png",
       ImageBase + "16547/small/photo_2023-03-29_21.47.00.jpeg"],
      4.5, 25000000000.0, 3200000000.0),
    Category("Stablecoins",
      [ImageBase + "325/small/Tether.png", ImageBase + "6319/small/usdc.png", ImageBase + "9956/small/Badge_Dai.png"],
      0.1, 165000000000.0, 95000000000.0),
    Category("Privacy Coins",
      [ImageBase + "69/small/monero_logo.png", ImageBase + "486/small/circle-zcash-color.png",
       ImageBase + "63/small/dash-logo.png"],
      -1.5, 4500000000.0, 180000000.0),
    Category("Layer 2 (L2)",
      [ImageBase + "25244/small/Optimism.png", ImageBase + "16547/small/photo_2023-03-29_21.47.00.jpeg",
       ImageBase + "4713/small/matic-token-icon.png"],
      3.2, 22000000000.0, 2800000000.0)
  ]

  /** Ten categories, each listing three coin images. */
  lemma MockCategoriesShape()
    ensures |MockCategories| == 10
    ensures forall c :: c in MockCategories ==> |c.top3Coins| == 3
  {
  }

  /** An item of `mockTrendingCoins.coins`. */
  datatype TrendingCoin = TrendingCoin(
    id: string, name: string, symbol: string, marketCapRank: nat,
    thumb: string, large: string, price: real, priceChangePercentage24h: real)

  const MockTrendingCoins: seq<TrendingCoin> := [
    TrendingCoin("bitcoin", "Bitcoin", "BTC", 1, ImageBase + "1/thumb/bitcoin.png",
      ImageBase + "1/large/bitcoin.png", 97500.0, 1.3),
    TrendingCoin("ethereum", "Ethereum", "ETH", 2, ImageBase + "279/thumb/ethereum.png",
      ImageBase + "279/large/ethereum.png", 3450.0, 2.1),
    TrendingCoin("solana", "Solana", "SOL", 5, ImageBase + "4128/thumb/solana.png",
      ImageBase + "4128/large/solana.png", 185.0, 3.5),
    TrendingCoin("ripple", "XRP", "XRP", 4, ImageBase + "44/thumb/xrp-symbol-white-128.png",
      ImageBase + "44/large/xrp-symbol-white-128.png", 2.35, -0.8),
    TrendingCoin("dogecoin", "Dogecoin", "DOGE", 8, ImageBase + "5/thumb/dogecoin.png",
      ImageBase + "5/large/dogecoin.png", 0.32, 5.2),
    TrendingCoin("cardano", "Cardano", "ADA", 9, ImageBase + "975/thumb/cardano.png",
      ImageBase + "975/large/cardano.png", 0.95, -1.2)
  ]

  /** A trending item that repeats a coin of the table: same name, rank,
      large image, price and 24-hour change, and its symbol in capitals. */
  predicate AgreesWithTable(t: TrendingCoin) {
    && t.id in MockCoins
    && var c := MockCoins[t.id];
    && t.name == c.name && t.marketCapRank == c.marketCapRank && t.large == c.image.large
    && t.price == c.marketData.currentPrice
    && t.priceChangePercentage24h == c.marketData.priceChangePercentage24h
    && t.symbol == ToUpper(c.symbol)
  }

  /** Six trending coins, each repeating a coin of the table. */
  lemma MockTrendingCoinsAgreeWithTable()
    ensures |MockTrendingCoins| == 6
    ensures forall k :: 0 <= k < |MockTrendingCoins| ==> AgreesWithTable(MockTrendingCoins[k])
  {
    assert ToUpper("btc") == "BTC";
    assert ToUpper("eth") == "ETH";
    assert ToUpper("sol") == "SOL";
    assert ToUpper("xrp") == "XRP";
    assert ToUpper("doge") == "DOGE";
    assert ToUpper("ada") == "ADA";
    assert AgreesWithTable(MockTrendingCoins[0]);
    assert AgreesWithTable(MockTrendingCoins[1]);
    assert AgreesWithTable(MockTrendingCoins[2]);
    assert AgreesWithTable(MockTrendingCoins[3]);
    assert AgreesWithTable(MockTrendingCoins[4]);
    assert AgreesWithTable(MockTrendingCoins[5]);
  }

  // ---------------------------------------------------------------- demo mode

  /** The environment variables the demo switch reads; `None` is unset. */
  datatype Env = Env(mockMode: Option<string>, baseUrl: Option<string>, apiKey: Option<string>)

  /** `v?.trim()` */
  function TrimOpt(v: Option<string>): Option<string> {
    if v.None? then None else Some(Trim(v.value))
  }

  /** JavaScript truthiness of a string that may be `undefined`. */
  predicate Truthy(v: Option<string>) {
    v.Some? && v.value != []
  }

  /** `isMockMode` */
  predicate IsMockMode(env: Env) {
    if env.mockMode == Some("true") then true
    else
      var baseUrl := TrimOpt(env.baseUrl);
      var apiKey := TrimOpt(env.apiKey);
      !Truthy(baseUrl) || !Truthy(apiKey) || |baseUrl.value| == 0 || |apiKey.value| == 0
  }

  /** A variable that is unset or holds only whitespace. */
  predicate Unconfigured(v: Option<string>) {
    v.None? || Blank(v.value)
  }

  /** The demo mode is on exactly when it is requested with `MOCK_MODE=true`, or
      the base URL or the API key is unset or blank. */
  lemma IsMockModeIff(env: Env)
    ensures IsMockMode(env) <==>
      env.mockMode == Some("true") || Unconfigured(env.baseUrl) || Unconfigured(env.apiKey)
  {
    if env.baseUrl.Some? { TrimEmptyIff(env.baseUrl.value); }
    if env.apiKey.Some? { TrimEmptyIff(env.apiKey.value); }
  }
}
