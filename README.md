# CryptoPulse vault hero, demo data and naming rules in Dafny

This project models the logic core of CryptoPulse, a crypto-market front end
with a 3D "vault" hero section. It covers five parts:

- **The interaction store** (`VaultStore`). One mutable record holds the
  door offset, the normalised mouse, the scroll progress, the animation flag
  and the flashlight settings. Its actions clamp their inputs, derive the
  offset and the flag from the progress, shallow-merge the flashlight
  settings, and reset to the defaults. `Store` is a class whose methods
  update its fields in place. The pure `With*` functions say what each
  action does to a snapshot, and the lemmas state the range invariant,
  idempotence, and what each action leaves alone.
- **The two input hooks** (`VaultEvents`, `VaultScroll`).
  - The pointer is mapped to [-1, 1]² relative to the `vault-hero` box.
  - The scroll offset is turned into a progress in [0, 1].
  - Each hook registers its listeners on a `Dom.EventTarget` at mount and
    removes exactly those listeners at teardown.
- **The per-frame easing and the grid layout** (`Vault`, `CameraRig`,
  `FittedGrid`, `MathUtils`).
  - Each frame moves the doors a tenth, and the camera five percent, of the
    way to their targets.
  - The lemmas cover one frame (no overshoot, a fixed contraction) and `n`
    frames (`0.9^n`, `0.95^n`).
  - The floor grid is sized so that it ends at the bottom of the hero
    section.
- **The demo data and the CoinGecko actions** (`MockData`, `CoinGecko`).
  - The coin table and the per-coin detail records.
  - A random-walk OHLC series. A method with a loop is proved equal to a
    recursive definition; the lemmas give its length, its hourly
    timestamps, its open-at-previous-close chaining and its wick bounds.
  - The demo-mode switch.
  - The ordered routing of an endpoint to a demo payload, including the two
    regular expressions, modelled as leftmost-match scanners with soundness
    and completeness lemmas.
  - The fetcher's fallback rules and the pool lookup that never fails.
- **The naming-rule script** (`ValidateRules`).
  - The kebab, Pascal and camel tests. The kebab regular expression is proved
    equal to a direct description.
  - The pre-order directory walk.
  - The three rule passes. A `Validator` class appends violations to its
    `errors` list in walk order, and its `Run` method reports them with exit
    code 0.

`Text`, `MathUtils`, `Dom` and `Wrappers` hold the JavaScript string
operations, the `Math`/`THREE.MathUtils` helpers, the listener lists and the
`Option`/`Result` types the rest uses.

The model follows the code where the project's design notes describe more:

- The scroll progress is `scrollY / innerHeight`; no scroll track element is
  involved.
- `Vault.tsx` fixes the door offset at 0 (line 20), so the doors ease back
  to their initial positions. There is no multi-phase door timeline.
- `CameraRig.tsx` fixes the mouse at (0, 0) (line 17), so the camera eases
  towards the origin. There is no aspect-ratio push.
- In `fetcher`, the `API Error` thrown at line 104 is caught at line 108.
  As a result, every failed request, not just statuses 429, 400 and 401,
  falls back to demo data when the endpoint has a route.
- The body of an OK response is returned without `await` (line 107). A body
  that does not parse therefore rejects past the `catch`, with no fallback.

Numbers are `real`; times and counters are `int`.

## Model

| member | source | states |
|---|---|---|
| MathUtils.Clamp | lib/stores/vault-store.ts:50 | `Math.max(lo, Math.min(hi, x))` lies in [lo, hi], is `x` for an in-range `x`, and is the nearer bound otherwise |
| MathUtils.ClampIdempotent | lib/stores/vault-store.ts:62-63 | clamping an already clamped value changes nothing |
| MathUtils.ClampMonotone | hooks/useVaultScroll.ts:25 | clamping preserves order |
| MathUtils.MinMaxIsClamp | hooks/useVaultScroll.ts:25 | the hook's `min(max(x, lo), hi)` equals the store's `max(lo, min(hi, x))` whenever `lo <= hi` |
| MathUtils.Lerp | components/vault-hero/Vault.tsx:24-28 | `lerp(x, y, t)` scales the remaining distance to `y` by `1 - t`, i.e. it is `x + (y - x)·t` |
| MathUtils.LerpNoOvershoot | components/vault-hero/CameraRig.tsx:24-25 | for `t` in [0, 1] one step lands between the value and the target, and the distance shrinks by exactly `1 - t` |
| MathUtils.LerpAtTarget | components/vault-hero/CameraRig.tsx:24-25 | a value that is already at its target stays there |
| MathUtils.LerpNegate | components/vault-hero/Vault.tsx:24-33 | `lerp` commutes with negation |
| MathUtils.PowPositive | components/vault-hero/Vault.tsx:22-34 | a positive base has positive powers |
| MathUtils.EaseDistance | components/vault-hero/Vault.tsx:22-34 | after `n` frames of `x := lerp(x, y, t)` the distance to `y` is `(1 - t)^n` times the initial distance |
| MathUtils.EaseNeverArrives | components/vault-hero/Vault.tsx:22-34 | with `t` in [0, 1) a value that starts away from its target never reaches it exactly |
| VaultStore.MergeFlashlight | lib/stores/vault-store.ts:104 | `{ ...flashlight, ...config }`: every key present in the patch overwrites, every absent key keeps its value |
| VaultStore.MergeLaws | lib/stores/vault-store.ts:101-109 | an empty patch changes nothing, a repeated patch is absorbed, and two merges are one merge of the combined patch |
| VaultStore.WithVaultOffset | lib/stores/vault-store.ts:49-51 | the offset is clamped to [0, 1], an in-range offset is stored as given, and every other field is kept |
| VaultStore.WithMouse | lib/stores/vault-store.ts:58-69 | each coordinate is clamped to [-1, 1], in-range coordinates are stored as given, and every other field is kept |
| VaultStore.WithScrollProgress | lib/stores/vault-store.ts:75-88 | the clamped progress is stored as both progress and offset, and the flag holds exactly when the progress is strictly between 0 and 1; the mouse and the flashlight are kept |
| VaultStore.WithIsAnimating | lib/stores/vault-store.ts:94-96 | only the flag changes |
| VaultStore.WithFlashlight | lib/stores/vault-store.ts:101-109 | the flashlight becomes the shallow merge and nothing else changes; nothing is clamped |
| VaultStore.ActionsKeepInRange | lib/stores/vault-store.ts:50-96 | every action preserves "mouse in [-1, 1]², progress and offset in [0, 1]", and so does the initial state; setMouse and setFlashlight keep offset, progress and flag in step |
| VaultStore.SettersIdempotent | lib/stores/vault-store.ts:49-109 | repeating any setter with the same input changes nothing |
| VaultStore.DirectSettersCanDesync | lib/stores/vault-store.ts:49-51 | setVaultOffset can leave an offset different from the progress, and setIsAnimating can leave a flag that does not follow it |
| VaultStore.StoreExamples | lib/stores/vault-store.test.ts:19-64 | setMouse(0.5, -0.5) stores (0.5, -0.5); setMouse(2, -2) stores (1, -1); progress 0.5 gives 0.5/0.5 and animating; progress 1.5 gives 1/1 and not animating |
| VaultStore.Store.constructor | lib/stores/vault-store.ts:30-39 | the store starts with offset 0, mouse (0, 0), progress 0, not animating, flashlight {true, 300, 0.9, 0.5} |
| VaultStore.Store.SetVaultOffset | lib/stores/vault-store.ts:49-51 | the new state is `WithVaultOffset` of the old one |
| VaultStore.Store.SetMouse | lib/stores/vault-store.ts:58-69 | the new state is `WithMouse` of the old one |
| VaultStore.Store.SetScrollProgress | lib/stores/vault-store.ts:75-88 | the new state is `WithScrollProgress` of the old one |
| VaultStore.Store.SetIsAnimating | lib/stores/vault-store.ts:94-96 | the new state is `WithIsAnimating` of the old one |
| VaultStore.Store.SetFlashlight | lib/stores/vault-store.ts:101-109 | the new state is `WithFlashlight` of the old one |
| VaultStore.Store.Reset | lib/stores/vault-store.ts:114-131 | whatever the state before, the state after is the initial one, so a second reset changes nothing |
| Dom.Without | hooks/useVaultEvents.ts:55-56 | removal keeps exactly the registrations other than the one removed and never lengthens the list; the order is kept by `WithoutConcat` |
| Dom.WithoutAbsent | hooks/useVaultEvents.ts:55-56 | removing a listener that is not registered changes nothing |
| Dom.WithoutConcat | hooks/useVaultEvents.ts:55-56 | removal distributes over concatenation, so the remaining registrations keep their order |
| Dom.UndoAppend | hooks/useVaultEvents.ts:51-57 | removing the listeners a mount appended gives back the registrations that were there before it |
| Dom.EventTarget.constructor | hooks/useVaultEvents.ts:22 | a new element has no listeners |
| Dom.EventTarget.AddEventListener | hooks/useVaultEvents.ts:51-52 | a listener is appended unless it is already registered |
| Dom.EventTarget.RemoveEventListener | hooks/useVaultEvents.ts:55-56 | the listener's registration is removed and no other |
| VaultEvents.NormalizeAxis | hooks/useVaultEvents.ts:33-38 | the normalised value `n` locates the pointer on the box edge: `start + (n + 1)·extent/2` is the pointer coordinate |
| VaultEvents.NormalizeLandmarks | hooks/useVaultEvents.ts:29-38 | the centre of the box maps to 0, the near edge to -1 and the far edge to +1 |
| VaultEvents.NormalizeStrictlyIncreasing | hooks/useVaultEvents.ts:37-38 | the normalisation is strictly increasing in the pointer coordinate |
| VaultEvents.NormalizeInsideBox | hooks/useVaultEvents.ts:33-38 | a pointer lands in [-1, 1] exactly when it lies within the box |
| VaultEvents.MoveStoresClampedPosition | hooks/useVaultEvents.ts:31-41 | after a move the stored mouse is in [-1, 1]² for any pointer, and is exactly the normalised pointer inside the box |
| VaultEvents.HandleMouseMove | hooks/useVaultEvents.ts:31-41 | the store's new state is setMouse of the normalised pointer, the box read at the event |
| VaultEvents.HandleMouseLeave | hooks/useVaultEvents.ts:47-49 | the stored mouse becomes exactly (0, 0) and nothing else changes |
| VaultEvents.ContainerRef.constructor | hooks/useVaultEvents.ts:18 | the ref starts empty |
| VaultEvents.Mount | hooks/useVaultEvents.ts:21-53 | without a `vault-hero` element nothing is registered and the ref is untouched; otherwise the ref holds the element and the move and leave listeners are appended to it |
| VaultEvents.Teardown | hooks/useVaultEvents.ts:54-57 | the cleanup removes the two listeners of that mount and no other registration |
| VaultScroll.ScrollProgress | hooks/useVaultScroll.ts:20-25 | the progress is in [0, 1], is 0 at or above the top, 1 from one viewport height on, and `scrollY / innerHeight` in between |
| VaultScroll.ScrollProgressMonotone | hooks/useVaultScroll.ts:25 | scrolling further down never decreases the progress |
| VaultScroll.ScrollExamples | hooks/useVaultScroll.test.ts:17-50 | with a 1000-pixel viewport, scrolls of 500, 1500 and -100 give 0.5, 1 and 0 |
| VaultScroll.StoredProgressIsComputed | hooks/useVaultScroll.ts:25-27 | the store's second clamp changes nothing: stored progress and offset are the computed progress |
| VaultScroll.HandleScroll | hooks/useVaultScroll.ts:17-28 | the store's new state is setScrollProgress of the computed progress; progress and offset equal it |
| VaultScroll.Mount | hooks/useVaultScroll.ts:16-34 | one scroll listener is appended and the handler runs once, so the store follows the scroll position before any scroll event |
| VaultScroll.Teardown | hooks/useVaultScroll.ts:35-37 | the scroll listener is removed and no other |
| Vault.Mesh.constructor | components/vault-hero/Vault.tsx:40-46 | a mesh starts at the position it is given |
| Vault.Frame | components/vault-hero/Vault.tsx:22-35 | with both refs attached each door's x eases a tenth of the way to its target and y, z are kept; with either ref missing nothing changes |
| Vault.DoorStep | components/vault-hero/Vault.tsx:24-33 | one frame lands between the door and its target and leaves nine tenths of the distance |
| Vault.DoorAfterFrames | components/vault-hero/Vault.tsx:22-34 | after `n` frames a door is `0.9^n` times as far from its target as it started |
| Vault.DoorsAtRestStay | components/vault-hero/Vault.tsx:20-46 | with the fixed offset 0 the targets are the initial positions -0.5 and 0.5, so doors that start there never move |
| Vault.FrameKeepsSymmetry | components/vault-hero/Vault.tsx:24-33 | doors placed symmetrically about x = 0 stay symmetric after a frame, for any offset |
| CameraRig.TargetsInRange | components/vault-hero/CameraRig.tsx:21-22 | for a mouse in [-1, 1]² the targets lie in [-0.5, 0.5] × [-0.3, 0.3] |
| CameraRig.Camera.constructor | components/vault-hero/CameraRig.tsx:14 | a camera starts at the position it is given |
| CameraRig.Frame | components/vault-hero/CameraRig.tsx:20-28 | x and y ease five percent of the way to the targets of the fixed mouse; z is never assigned |
| CameraRig.CameraStep | components/vault-hero/CameraRig.tsx:24-25 | one frame lands between the coordinate and its target and leaves 95 percent of the distance |
| CameraRig.CameraDecaysToOrigin | components/vault-hero/CameraRig.tsx:17-25 | with the fixed mouse the targets are 0: after `n` frames a coordinate is `0.95^n` times its start, and the origin is a fixed point |
| FittedGrid.OverlapBounds | components/vault-hero/FittedGrid.tsx:20-24 | the overlap in world units is non-negative, and at most the viewport height once the canvas is at least 64 pixels tall |
| FittedGrid.Layout | components/vault-hero/FittedGrid.tsx:15-51 | the height is the larger of 0.1 and `H - overlap`, the width is the larger of 100 and three viewport widths, and the y position is half the overlap |
| FittedGrid.GridSpansHeroSection | components/vault-hero/FittedGrid.tsx:34-56 | the grid is placed at x 0 and depth -25, and unless the height hits its floor, it spans from the hero section's bottom edge `-H/2 + overlap` to the canvas top `H/2` |
| FittedGrid.FlooredGrid | components/vault-hero/FittedGrid.tsx:29-56 | when `H - overlap` is below 0.1 the grid is 0.1 tall and still centred at half the overlap |
| Text.OccursThenIncludes | lib/coingecko.actions.ts:27 | `includes` finds any occurrence of the pattern |
| Text.IncludesThenOccurs | lib/coingecko.actions.ts:27 | `includes` holds only when the pattern occurs at some index |
| Text.IncludesIff | lib/coingecko.actions.ts:27 | `s.includes(p)` holds exactly when `p` occurs somewhere in `s` |
| Text.ReplaceFirst | scripts/validate-rules.mjs:83 | `replace` with a string pattern leaves a text without the pattern unchanged and replaces an occurrence at the start; the general case is `ReplaceFirstAt` |
| Text.ReplaceFirstAt | scripts/validate-rules.mjs:83 | `replace` with a string pattern replaces exactly the first occurrence: when `i` is the least index at which the pattern occurs, the result is `s[..i] + rep + s[i + |pat|..]` |
| Text.ReplaceFirstAppended | scripts/validate-rules.mjs:83 | for a non-empty pattern whose first character does not recur in it (as for `.tsx`) and that does not occur in `x`, replacing in `x + pattern` replaces the appended occurrence |
| Text.ToUpper | lib/mock-data.ts:141 | `toUpperCase` keeps the length and upper-cases each ASCII letter, keeping every other character |
| Text.TrimStart | lib/mock-data.ts:443-444 | the leading whitespace is removed and the result starts with a non-space |
| Text.TrimEnd | lib/mock-data.ts:443-444 | the trailing whitespace is removed and the result ends with a non-space |
| Text.TrimEmptyIff | lib/mock-data.ts:443-446 | a string trims to empty exactly when it is all whitespace |
| MockData.MockCoinsSize | lib/mock-data.ts:7-116 | the coin table holds exactly bitcoin, ethereum, solana, ripple, dogecoin and cardano |
| MockData.MockCoinsKeyedById | lib/mock-data.ts:7-116 | every table entry is filed under its own id |
| MockData.Capitalize | lib/mock-data.ts:140 | the first character is upper-cased and the rest kept |
| MockData.SymbolOf | lib/mock-data.ts:141 | the symbol is the first three characters (fewer for a short id), upper-cased |
| MockData.GetMockCoinData | lib/mock-data.ts:122-164 | a table coin gets its entry's id, name, symbol, rank, image and market data with the "popular cryptocurrency" text; any other id gets a generic record named after it with price 100 and rank 100; both get the id-based links, no tickers and no platform |
| MockData.GetMockCoinDataIsAboutTheId | lib/mock-data.ts:122-164 | whatever the id, the record's id is that id |
| MockData.UnknownCoinExamples | lib/mock-data.ts:137-164 | "pepe" gets name "Pepe", symbol "PEP" and rank 100; "xy" gets symbol "XY"; "" gets an empty name |
| MockData.BitcoinRecordDiffers | lib/mock-data.ts:174-201 | the dedicated bitcoin record shares the table's market data, image and homepage but not its description or explorer link |
| MockData.GetMockOHLCData | lib/mock-data.ts:169-171 | an absent base price means 96000 |
| MockData.GenerateMockOHLC | lib/mock-data.ts:206-225 | the loop returns exactly the series of 25 chained candles that the recursive definition describes |
| MockData.GenerateStep | lib/mock-data.ts:213-222 | one loop round moves the first pending candle onto the output |
| MockData.CandlesFromTimestamps | lib/mock-data.ts:213-214 | rounds `i` down to 0 give `i + 1` candles, the `k`-th stamped `i - k` hours before `now` |
| MockData.CandlesFromChained | lib/mock-data.ts:215-221 | the first candle opens at the starting price and every later one at the previous close |
| MockData.CandlesFromWicks | lib/mock-data.ts:218-219 | with non-negative volatility and draws, every high is at or above, and every low at or below, both open and close |
| MockData.MockOHLCTimestamps | lib/mock-data.ts:206-220 | 25 candles an hour apart, strictly increasing, the last at `now` |
| MockData.MockOHLCChained | lib/mock-data.ts:210-221 | the first open is the base price and each later open the previous close |
| MockData.MockOHLCWicks | lib/mock-data.ts:211-219 | for a non-negative base price and draws in [0, 1) the wicks enclose every candle's body |
| MockData.MockCategoriesShape | lib/mock-data.ts:318-429 | ten categories, each with three coin images |
| MockData.MockTrendingCoinsAgreeWithTable | lib/mock-data.ts:228-315 | six trending coins, each repeating a table coin's name, rank, image, price and change, with the symbol in capitals |
| MockData.IsMockModeIff | lib/mock-data.ts:438-447 | the demo mode is on exactly when `MOCK_MODE` is "true" or the base URL or the API key is unset or blank |
| CoinGecko.RunEnd | lib/coingecko.actions.ts:39 | a greedy `[^...]+` run stops at the first stop character or at the end |
| CoinGecko.RunEndExact | lib/coingecko.actions.ts:39 | a run that ends at a stop character or at the end is the greedy one |
| CoinGecko.Leftmost | lib/coingecko.actions.ts:39 | the match position reported is the leftmost one |
| CoinGecko.OhlcMatchAtIff | lib/coingecko.actions.ts:39 | `/coins/([^/]+)/ohlc` matches at `p` exactly when `/coins/`, a slash-free id and `/ohlc` follow each other there |
| CoinGecko.OhlcIdSound | lib/coingecko.actions.ts:39-41 | a captured OHLC id has no `/` and its `/coins/{id}/ohlc` path occurs in the endpoint |
| CoinGecko.OhlcIdComplete | lib/coingecko.actions.ts:39-40 | an endpoint containing such a path always matches |
| CoinGecko.CoinIdSound | lib/coingecko.actions.ts:47-49 | a captured coin id has neither `/` nor `?` and follows `/coins/` in the endpoint |
| CoinGecko.CoinIdComplete | lib/coingecko.actions.ts:47-48 | an endpoint where `/coins/` is followed by a character other than `/` and `?` always matches |
| CoinGecko.CategoriesBeforeCoinPatterns | lib/coingecko.actions.ts:34-51 | an endpoint mentioning `/coins/categories` never gets a coin record or a coin's series |
| CoinGecko.CoinPatternsBeforeTrending | lib/coingecko.actions.ts:47-55 | an endpoint with a coin path gets coin data even when it also mentions `/search/trending` |
| CoinGecko.RouteIds | lib/coingecko.actions.ts:39-55 | the OHLC id is slash-free and its path is in the endpoint; the detail id has neither `/` nor `?`; trending is reached only when no coin pattern matches |
| CoinGecko.GetMockData | lib/coingecko.actions.ts:23-57 | the payload is null exactly for an unrouted endpoint, and each route gets its own payload: the series generated at load, the bitcoin record, the categories, a coin's series seeded by its price, a coin's record, the trending list |
| CoinGecko.CoinOhlcSeededByCoinPrice | lib/coingecko.actions.ts:39-45 | a generic coin's series has 25 candles and opens at the table price of the coin, or at 100 for any other id |
| CoinGecko.NoSuffixNoOhlcId | lib/coingecko.actions.ts:39 | an endpoint without `/ohlc` never matches the OHLC pattern |
| CoinGecko.NoPrefixNoCoinId | lib/coingecko.actions.ts:39-48 | an endpoint without `/coins/` matches neither coin pattern |
| CoinGecko.BitcoinOhlcRouteExample | lib/coingecko.actions.ts:27-29 | `/coins/bitcoin/ohlc` gets the series generated at load |
| CoinGecko.BitcoinDetailRouteExample | lib/coingecko.actions.ts:30-32 | `/coins/bitcoin` gets the dedicated bitcoin record |
| CoinGecko.CategoriesRouteExample | lib/coingecko.actions.ts:34-37 | `/coins/categories` gets the categories list |
| CoinGecko.CategoriesLooksLikeACoin | lib/coingecko.actions.ts:47-49 | on its own, the coin pattern would read `/coins/categories` as the coin "categories" |
| CoinGecko.OnlyTrendingWithoutCoins | lib/coingecko.actions.ts:26-56 | an endpoint without `/coins/` gets the trending list if it mentions `/search/trending` and null otherwise |
| CoinGecko.NoBitcoinTests | lib/coingecko.actions.ts:27-37 | without `/coins/` none of the three fixed tests passes |
| CoinGecko.Message | lib/coingecko.actions.ts:74-104 | the "no mock data" text ends with the endpoint; the API error text starts with "API Error: " and ends with the detail |
| CoinGecko.NoMockDataMessageInjective | lib/coingecko.actions.ts:74 | different endpoints give different "no mock data" messages |
| CoinGecko.ErrorDetail | lib/coingecko.actions.ts:103-104 | the detail is a non-empty `error` field of a parsed body, else the status text |
| CoinGecko.Fetcher | lib/coingecko.actions.ts:63-117 | in demo mode: no request, and the demo payload or the "no mock data" error. Otherwise: exactly one request; an OK body is returned as it is; any failure gives the demo payload when the endpoint has a route and the request's error otherwise |
| CoinGecko.PoolsRequest | lib/coingecko.actions.ts:139-152 | the token's pool path when both network and contract address are non-empty, the pool search by id otherwise |
| CoinGecko.GetPools | lib/coingecko.actions.ts:122-157 | never fails: the first pool of an OK response when there is one, the all-empty pool in demo mode and in every other case |
| ValidateRules.MatchGroupsIff | scripts/validate-rules.mjs:15 | the left-to-right reading of the kebab expression accepts exactly the kebab shape |
| ValidateRules.CheckKebabCaseIff | scripts/validate-rules.mjs:13-16 | `checkKebabCase` accepts exactly non-empty `[a-z0-9]` groups joined by single hyphens |
| ValidateRules.KebabWord | scripts/validate-rules.mjs:13-16 | a non-empty run of `[a-z0-9]` is accepted |
| ValidateRules.KebabAccepts | scripts/validate-rules.mjs:13-16 | "vault-hero", "home" and "v2" are accepted |
| ValidateRules.KebabRejects | scripts/validate-rules.mjs:13-16 | the empty name, capitals, leading, trailing or doubled hyphens and underscores are rejected |
| ValidateRules.KebabJoin | scripts/validate-rules.mjs:13-16 | two accepted names joined by a hyphen are accepted |
| ValidateRules.PascalCamelRelation | scripts/validate-rules.mjs:18-24 | no name is both PascalCase and camelCase, and capitalising a camelCase name makes it PascalCase |
| ValidateRules.WalkVisitsEveryEntryOnce | scripts/validate-rules.mjs:26-39 | the walk makes as many callbacks as there are entries, counting every level |
| ValidateRules.WalkEntriesAppend | scripts/validate-rules.mjs:26-39 | walking two listings one after the other is walking their concatenation |
| ValidateRules.WalkEntrySlot | scripts/validate-rules.mjs:26-39 | entry `k` owns the slot of `EntrySize` visits that starts after the visits of the entries before it, and that slot is its own walk; slots of later entries start strictly later |
| ValidateRules.WalkReachesEveryEntry | scripts/validate-rules.mjs:26-39 | every entry reaches the callback with its path, name and kind, and so does everything visited inside a directory entry |
| ValidateRules.WalkEntriesPreOrder | scripts/validate-rules.mjs:26-39 | every visited path lies below the walked directory, and a directory is visited before anything inside it |
| ValidateRules.PreOrderConcat | scripts/validate-rules.mjs:29-38 | the visits of consecutive entries keep the pre-order |
| ValidateRules.DirectoryCheck | scripts/validate-rules.mjs:49-67 | a message is pushed exactly for a directory whose name is not kebab-case, does not start with `[`, `_` or `.`, and whose path does not contain `node_modules` |
| ValidateRules.ComponentCheck | scripts/validate-rules.mjs:72-89 | a message is pushed exactly for a `.tsx` file other than `index.tsx`, outside `components/ui` and `components\ui`, whose name without its first `.tsx` is not PascalCase |
| ValidateRules.HookStem | scripts/validate-rules.mjs:98 | the final `.ts` or `.tsx` is removed |
| ValidateRules.HookCheck | scripts/validate-rules.mjs:92-112 | a `.ts`/`.tsx` file other than `index.ts`, tests and specs gets at most one message: the `use` error when its stem lacks the prefix, else the camelCase error when the stem is not camelCase |
| ValidateRules.Collected | scripts/validate-rules.mjs:49-67 | a walk pushes at most one message per visit |
| ValidateRules.CollectedConcat | scripts/validate-rules.mjs:47-68 | the messages of consecutive walks are concatenated in order |
| ValidateRules.CollectedExactly | scripts/validate-rules.mjs:49-112 | a message is pushed exactly when some visited entry is reported with it |
| ValidateRules.Report | scripts/validate-rules.mjs:117-124 | the banner comes first, then either the all-clear line or the heading followed by every violation in order |
| ValidateRules.Validator.constructor | scripts/validate-rules.mjs:11 | the error list starts empty |
| ValidateRules.Validator.Pass | scripts/validate-rules.mjs:72-112 | one walk appends its messages, in visiting order, after those already there |
| ValidateRules.Validator.DirectoryPass | scripts/validate-rules.mjs:45-68 | the directory pass appends the messages of the four directories' walks in order |
| ValidateRules.Validator.Run | scripts/validate-rules.mjs:41-124 | the list only grows, by the directory, component and hook messages in that order; the output is the report of the list; the exit code is 0 whatever was found |
| ValidateRules.NoTsxInAlnum | scripts/validate-rules.mjs:83 | an alphanumeric name has no `.tsx` in it |
| ValidateRules.TsxName | scripts/validate-rules.mjs:80-83 | for a name without `.tsx`, appending `.tsx` gives a name whose stem is the original and which is `index.tsx` only for `index` |
| ValidateRules.PlainComponentName | scripts/validate-rules.mjs:72-89 | `Base.tsx` with an alphanumeric `Base` is reported exactly when `Base` does not start with a capital |
| ValidateRules.DottedComponentName | scripts/validate-rules.mjs:82-87 | `Base.ext.tsx` is always reported: the stem keeps the dot of the first extension |
| ValidateRules.DottedStemHasNoTsx | scripts/validate-rules.mjs:83 | `Base.ext` with alphanumeric parts and an extension not starting with `tsx` has no `.tsx` in it |
| ValidateRules.DottedComponentExample | scripts/validate-rules.mjs:82-87 | `HeroScene.client.tsx` is reported wherever it sits outside `components/ui` |
| ValidateRules.PlainComponentExample | scripts/validate-rules.mjs:82-87 | `Vault.tsx` is not reported |
| ValidateRules.UiPrefixSkipsSiblings | scripts/validate-rules.mjs:78 | a path that merely starts with `components/ui`, such as a sibling `components/uikit`, is skipped as well |
| ValidateRules.PlainHookName | scripts/validate-rules.mjs:92-112 | `stem.ts` or `stem.tsx` with an alphanumeric stem other than `index` gets the `use` error exactly when the stem lacks the prefix, and no error otherwise |
| ValidateRules.HookStemOf | scripts/validate-rules.mjs:95-98 | the stem of `stem + ext` is `stem` when the stem has no dot |
| ValidateRules.NoDotTest | scripts/validate-rules.mjs:101 | a dot-free stem with its extension never counts as a test or spec file |
| ValidateRules.HookPassExample | scripts/validate-rules.mjs:92-112 | `useVaultScroll.ts` passes |
| ValidateRules.HookUseExample | scripts/validate-rules.mjs:103-106 | `vaultScroll.ts` gets the `use` error |
| ValidateRules.HyphenatedHook | scripts/validate-rules.mjs:107-110 | `use-vault.ts` gets the camelCase error |

## Left out

- Rendering and library plumbing are not modelled: React hook lifecycles,
  zustand `create`, `devtools` and subscriber notification, the selector hooks
  (lib/stores/vault-store.ts:140-161), JSX, the Three.js scene graph and the
  grid's rotation and styling props. Their numeric inputs (the element's box,
  `scrollY`, `innerHeight`, the viewport at the grid's depth, the canvas size)
  are parameters.
- CameraRig.Frame: does not model `camera.lookAt(0, 0, 0)`, which changes only
  the rotation.
- The network is not modelled. `fetch`, `qs.stringifyUrl` with its empty and
  null skipping, the headers, Next.js `revalidate` caching and console logging
  are left out. A request is the endpoint with its query, and the one `fetch`
  outcome is a parameter.
- `process.env` is read through parameters. `isMockMode` takes the three
  variables as values. The switch that `fetcher` and `getPools` read once at
  load (lib/coingecko.actions.ts:18) is the `mockMode` parameter.
- `Math.random()` and `Date.now()` are parameters: a clock reading and the
  sequence of draws a series consumes, three per candle.
- The bitcoin series computed once at load (lib/mock-data.ts:204) takes its
  own clock reading and draws, separate from those of a call.
- MockData.GenerateMockOHLC, MockData.GetMockOHLCData: require at least 75
  draws. `Math.random()` never runs out.
- CoinGecko.GetMockData, CoinGecko.Fetcher, CoinGecko.GetPools: require 75
  draws for each series, for the same reason.
- Numbers are `real`. IEEE-754 rounding, NaN and Infinity are not modelled.
- VaultScroll.ScrollProgress: requires a positive viewport height. In
  JavaScript a zero height gives NaN or Infinity.
- VaultScroll.HandleScroll, VaultScroll.Mount: require a positive viewport
  height, for the same reason.
- VaultEvents.NormalizeAxis: requires a positive box extent. A zero-sized box
  gives NaN or Infinity.
- VaultEvents.HandleMouseMove, VaultEvents.MoveStoresClampedPosition: require
  a positive box width and height, for the same reason.
- VaultEvents.Mount, VaultScroll.Mount: require that the listeners they add are
  not yet registered. Each run of an effect creates new handler closures, so in
  the source they never are.
- Vault.Frame: requires the two door meshes to be distinct objects, as the two
  refs are.
- MockData.SymbolOf, MockData.Capitalize: strings are sequences of Unicode
  scalar values, not UTF-16 code units. `slice(0, 3)` and `charAt(0)` count
  code units, so for an id with a character outside the Basic Multilingual
  Plane among its first three, the source's symbol or capital letter differs
  (a lone surrogate, or fewer characters).
- CoinGecko.Body, CoinGecko.ErrorDetail: an error body is either absent (it
  does not parse) or an object. A body that parses to JSON `null` or another
  primitive is not modelled; for `null`, reading `errorBody.error` throws a
  `TypeError`, which the `catch` rethrows for an endpoint without a route
  instead of the `API Error`.
- `toUpperCase` is modelled for ASCII letters only. Other characters are kept
  as they are.
- `MOCK_COINS[coinId]` is a six-entry map. Inherited object keys such as
  `constructor` are not modelled.
- The script's file system is a parameter: a tree of entries per top-level
  directory, in listing order, with POSIX paths relative to the project root.
  `fs`, `path.resolve` and the Windows `\` separator are not modelled, apart
  from the `components\ui` test.
- The console output of the script is modelled as the returned list of lines.
  `console.log` and `console.error` are not distinguished.
- The presentational files are not part of this model:
  components/home/Categories.tsx, app/page.tsx, HeroScene.tsx,
  HeroScene.client.tsx, Lights.tsx, Loader.tsx, index.tsx and
  ScrollAnimationWrapper.tsx.
