# Wallet reputation pipeline — a Dafny model

This project models the core of a wallet-reputation service for the Base L2 chain. The service does three things:

- It scores a wallet from on-chain facts: native balance, transaction count and balances of six configured ERC-20 tokens. The facts give three sub-scores (wealth, vitality, community). A 0.3/0.4/0.3 weighted final score then gives a tier: COMMON, RARE, LEGENDARY or GODLY.
- It runs a fixed three-node workflow: analyst, then identity (a naming oracle proposes a name and a verdict), then save.
- It keeps one identity record per address in a store. The store has upsert, get and mark-as-minted operations. The dashboard serves a stored record from this cache instead of generating it again.

Modules, one per file:

- `Wrappers` (`wrappers.dfy`, shared helpers with no source file): `Option`, `Result`, and `KeyValue`, which tells a key the caller left out of a dict from one it supplied.
- `Text` (`text.dfy`, shared string helpers with no source file): ASCII lower-casing, decimal rendering of a count with its inverse, and `Join`.
- `Analysis` (`analysis.dfy`, models analysis.py): the step functions, the community-score loop, the holdings dict built token by token, and `analyze_wallet` with its error order.
- `Database` (`database.dfy`, models database.py): the class `IdentityStore`, which holds a `map<string, Identity>` and has `SaveIdentity`, `MarkAsMinted` and `GetIdentity`. The table after each operation is given by the spec functions `Upsert` and `MarkMinted`. Lemmas cover single operations and arbitrary sequences of the application's writes.
- `Graph` (`graph.dfy`, models graph.py): the class `GraphState`, the three node methods that update it in place, the linear topology, and `Invoke`.
- `App` (`app.dfy`, models app.py): `GetTierClass`, the "Generate Identity" flow (validate, normalise, cache check, generate, reload), payment confirmation, and the tokens-held count.

Modelling choices:

- Balances are whole wei. Each threshold in ether is compared as the same threshold in wei; for example, 10 ETH is `10 * 10^18` wei.
- Sub-scores are integers. The final score is an exact `real`, `0.3 w + 0.4 v + 0.3 c`.
- Every web3 call is a field of the `Provider` datatype: `is_connected`, `is_address`, `to_checksum_address`, `get_balance`, `get_transaction_count` and `balanceOf`. `is_connected` is a boolean and `is_address` a boolean predicate on the input. `to_checksum_address` is a total function from string to string, so it never raises in the model. On the wallet input it is called only after `is_address` accepted it (analysis.py:132, app.py:265). `get_token_balance` also calls it on each token contract address and on the wallet (analysis.py:53, analysis.py:56) with no `is_address` check; both calls sit inside that function's `try`, so a raise there reads as a balance of 0, and in the model a `Failed` answer from `balanceOf` covers that case. Only the three fetches can fail: each either fails or returns a natural number.
- The naming chain is a function `NamingRequest -> NamingOutcome`. An outcome is `Raised`, or `Answered` with an optional `name` and an optional `verdict`.
- Clock readings (`utcnow()`) are `now` parameters.

The model follows the code in these points:

- The fallback verdict is "A {tier lower-cased} tier wallet on Base with {n} transactions.".
- Upserting an existing row sets `created_at` to the current time. The table has no separate update timestamp.
- A failed balance or transaction-count fetch raises. It does not fill in zero.
- The cache check sits in the dashboard, in front of the workflow, not inside it.

## Model

| member | source | states |
|---|---|---|
| `Analysis.WealthScore` | analysis.py:64-73 | 100 iff balance >= 10 ETH; 80 iff 1 <= balance < 10; 50 iff 0.1 <= balance < 1; 20 iff below 0.1 ETH. |
| `Analysis.WealthMonotone` | analysis.py:64-73 | A larger balance never gives a lower wealth score. |
| `Analysis.VitalityScore` | analysis.py:76-87 | 100 iff >= 1000 tx; 85 iff 500..999; 60 iff 100..499; 40 iff 20..99; 10 iff < 20. |
| `Analysis.VitalityMonotone` | analysis.py:76-87 | More transactions never give a lower vitality score. |
| `Analysis.CountPositive` | analysis.py:96-98 | The number of entries with a positive balance is at most the number of entries. |
| `Analysis.CountPositiveAll` | analysis.py:96-98 | When every entry is positive, every entry counts. |
| `Analysis.CommunityScore` | analysis.py:90-100 | A multiple of 20 in [0, 100]; equals 20 × (positive entries) below the cap; is 100 exactly when at least 5 entries are positive. |
| `Analysis.CalculateCommunityScore` | analysis.py:90-100 | The accumulating loop returns `min(100, 20 × positive entries)`. |
| `Analysis.FinalScoreInRange` | analysis.py:155 | With each sub-score in [0, 100], the weighted final score is in [0, 100]. |
| `Analysis.CalculateTier` | analysis.py:103-112 | GODLY iff score >= 85; LEGENDARY iff 65 <= score < 85; RARE iff 40 <= score < 65; COMMON iff score < 40. The bands are disjoint and cover every score. |
| `Analysis.TierMonotone` | analysis.py:103-112 | The tier rank never decreases as the final score grows. |
| `Analysis.TokenBalance` | analysis.py:40-61 | A token lookup that raises reads as 0. |
| `Analysis.HoldingsMembership` | analysis.py:143-147 | `(symbol, wei)` is a holding iff wei > 0 and some configured token with that symbol reads exactly wei. |
| `Analysis.HoldingsPositive` | analysis.py:143-147 | Every holding is strictly positive, and there are at most as many holdings as configured tokens. |
| `Analysis.ContractsDistinct` | analysis.py:14-21 | The configured token symbols are pairwise distinct. |
| `Analysis.FailedLookupIsAbsent` | analysis.py:51-61 | A token whose lookup raises has no holdings entry. |
| `Analysis.AnalyzeWallet` | analysis.py:115-170 | The method (checks, fetches, holdings loop, scores) returns exactly `AnalysisOf(address, p)`. |
| `Analysis.ErrorOrder` | analysis.py:125-140 | Not connected fails before the address is examined; then an invalid address fails; then a failed balance or tx-count fetch fails. Success iff all four checks pass. |
| `Analysis.AnalysisFields` | analysis.py:150-170 | On success: the address is the caller's string; balance and tx count are the fetched values; each sub-score is its step function of those facts; community = min(100, 20 × holdings); final in [0, 100]; tier = CalculateTier(final); holdings positive. |
| `Analysis.TokenIsolation` | analysis.py:142-147 | Replacing every token-balance read leaves unchanged whether the analysis succeeds, and leaves any error unchanged. |
| `Analysis.ScenarioLegendary` | analysis.py:150-158 | 12.5 ETH, 1200 tx and one holding give 100/100/20, final 76, LEGENDARY. |
| `Analysis.ScenarioCommon` | analysis.py:150-158 | 0.05 ETH, 5 tx and no holdings give final 10, COMMON. |
| `Text.ToLower` | app.py:149 | Same length; each ASCII capital is lowered and every other character is kept; the result has no capitals. |
| `Text.ToLowerIdempotent` | app.py:149 | Lower-casing twice equals lower-casing once. |
| `Text.Decimal` | graph.py:114 | The rendering of a count is non-empty and all digits, with no leading zero except for 0 itself. |
| `Text.DecimalRoundTrip` | graph.py:114 | Reading the rendered digits back gives the count. |
| `Text.Join` | graph.py:102 | Joining no parts gives ""; joining parts gives a string that starts with the first part's first character. |
| `Text.JoinLength` | graph.py:102 | The joined text is as long as all parts together plus one separator between each two neighbours. |
| `Text.JoinPlacesPart` | graph.py:102 | Each part appears in the joined text at its offset, in order. |
| `Text.JoinSeparates` | graph.py:102 | Exactly one separator sits between each part and the next, and the next part starts right after it. |
| `Graph.GraphState.constructor` | app.py:280-286 | The initial state holds the address, no stats, and empty name, verdict and tier. |
| `Graph.Successor` | graph.py:159-162 | Each node has exactly one successor, one step further along. |
| `Graph.RouteFromEntry` | graph.py:149-164 | From the entry point the graph visits analyst, identity and save, once each, in that order, then END. |
| `Graph.Symbols` | graph.py:53 | The list of holdings keys, in holdings order. |
| `Graph.HoldingsTextNoneIffEmpty` | graph.py:102 | For analysis holdings, the text sent to the oracle is "None" iff nothing is held; otherwise it starts with the first held symbol. |
| `Graph.HoldingsTextLength` | graph.py:102 | The text sent to the oracle is exactly as long as the held symbols plus one ", " between each two neighbours. |
| `Graph.HoldingsTextListsSymbols` | graph.py:102 | The text sent to the oracle names every held symbol, each at its offset in holdings order. |
| `Graph.HoldingsTextSeparates` | graph.py:102 | In that text each held symbol but the last is followed by ", ", and the next symbol starts right after it. |
| `Graph.NamingDefaults` | graph.py:108-114 | A given key is used as is; a missing `name` gives "Unknown Identity"; a missing `verdict` gives "A wallet on Base."; a raised chain gives "Base {tier} Wallet". |
| `Graph.FallbackVerdictNamesCount` | graph.py:113-114 | The fallback verdict holds the lower-cased tier and the decimal tx count at fixed positions, and the digits read back as the count. |
| `Graph.AnalystNode` | graph.py:25-36 | On success sets `walletStats` to the analysis result and `tier` to its label. On failure raises and changes nothing. `address`, `name` and `verdict` are never changed. |
| `Graph.IdentityNode` | graph.py:39-116 | Writes only `name` and `verdict`: the oracle's answer for this request, with defaults or fallback. `address`, `walletStats` and `tier` are unchanged. Setup failures before the `try` are not modelled (see Left out). |
| `Graph.SaveNode` | graph.py:119-146 | Upserts the record built from the state: stats {balance, tx count, holdings}, scores {wealth, vitality, community, final}, copied name/tier/verdict, no mint key. |
| `Graph.Invoke` | graph.py:149-164 | An analysis error propagates and leaves the store and the state's stats, tier, name and verdict unchanged. Otherwise the store is the old table upserted with the generated record, and the final state holds the analysis stats and the record's tier, name and verdict. |
| `Graph.GeneratedRecord` | graph.py:124-144 | The saved record is filed under the address the workflow ran for, has no mint keys, and carries the analysis' tier label, facts and scores. |
| `Graph.NamingNeverFails` | graph.py:97-114 | The workflow produces a record iff the analysis succeeds, whatever the chain call inside the `try` returns or raises. |
| `Graph.RerunKeepsMint` | graph.py:124-144 | Re-running the workflow for a minted address keeps `minted`, the hash and the mint time, and updates tier, name and scores. |
| `Database.IdentityStore.constructor` | database.py:33-37 | A fresh table is empty. |
| `Database.IdentityStore.SaveIdentity` | database.py:52-88 | Returns true, and the table becomes `Upsert(old table, data, now)`. Keeps every row filed under its own address. |
| `Database.IdentityStore.MarkAsMinted` | database.py:110-117 | Returns true iff the address is stored, and the table becomes `MarkMinted(old table, address, hash, now)`. |
| `Database.IdentityStore.GetIdentity` | database.py:125-143 | None iff the address is not stored; otherwise the stored row. |
| `Database.UpsertNew` | database.py:71-85 | A new address gets the given fields. `minted` is false unless supplied; hash and mint time are None unless supplied and the supplied values otherwise; `created_at` is now. |
| `Database.UpsertExisting` | database.py:56-70 | An existing row gets the new name, tier, verdict, stats and scores, and `created_at` = now. Each mint field changes iff its key is supplied. |
| `Database.UpsertFrame` | database.py:52-88 | Rows for other addresses are unchanged. The key set gains only the saved address. Rows stay filed under their own address. |
| `Database.MarkMintedEffect` | database.py:110-117 | For an unknown address the table is unchanged. For a known one, exactly the flag, the hash and the time change, in that row only. |
| `Database.MarkThenResave` | database.py:63-69 | Marking then upserting without mint keys leaves `minted` = true, the same hash and the same mint time, and updates name, tier and scores. |
| `Database.KeysOnlyGrow` | database.py:52-117 | No sequence of saves and marks removes an address. |
| `Database.AppWritesKeepMintConsistent` | database.py:63-116 | Under saves without mint keys and marks, each row's flag, hash and mint time stay all set or all clear. |
| `Database.MintedStaysMinted` | database.py:63-116 | Under saves without mint keys and marks, a minted address stays minted. |
| `Database.SavesKeepMintFields` | database.py:63-69 | A run of saves without mint keys leaves all three mint fields of a row unchanged. |
| `App.GetTierClass` | app.py:147-157 | Compared case-insensitively: "godly", "legendary" and "rare" map to their own classes, and every other label maps to "tier-common", so the function is total. |
| `App.TierClassIgnoresCase` | app.py:147-157 | Lower-casing the label first does not change the class. |
| `App.TierClassOfTier` | app.py:147-157 | GODLY, LEGENDARY, RARE and COMMON map to tier-godly, tier-legendary, tier-rare and tier-common. |
| `App.TokensHeldOfGenerated` | app.py:399 | For a generated record the tokens-held count equals the number of holdings, and community = min(100, 20 × count). |
| `App.GenerateIdentity` | app.py:255-296 | Empty or invalid input stops with the store untouched. The checksummed address is the cache key. A hit shows the stored row (`cached`) and leaves the store unchanged. A miss runs the workflow: an error is shown with the store unchanged, or the upserted row is reloaded and shown. A shown record always belongs to the checksummed input address. |
| `App.RepeatLookupIsCached` | app.py:267-273 | A lookup repeated after one that showed a record is a cache hit with the same record and leaves the store as the first lookup left it. When generation succeeds, the second lookup is cached. |
| `App.ConfirmPayment` | app.py:352-363 | With a non-empty hash, marks the address minted and reports success. With an empty hash, only asks for one and leaves the store unchanged. |

## Left out

- Network calls are not modelled. `is_connected`, `is_address`, `to_checksum_address`, `get_balance`, `get_transaction_count` and `balanceOf` are uninterpreted fields of `Provider`. Their answers are inputs, and checksum and address rules are not modelled.
- The naming chain is abstract: the Gemini model, the prompt text and the JSON output parser are reduced to the outcome the call inside the `try` (graph.py:97-114) produces. A JSON value that is not a string (for example `null`) is not modelled, and neither is a non-object answer, which the source handles as a raised chain.
- SQLAlchemy engine, sessions, commit, rollback and SQLite are left out. A failing write, which the source re-raises after rollback, is not modelled, so `SaveIdentity` always returns true.
- Concurrent upserts of the same address are not modelled.
- Floating point is not modelled. Balances are exact wei and the final score is an exact real, so IEEE-754 rounding is absent. Neither division by 10^18 nor `0.3*w` rounding near a threshold can change a score or tier in the model.
- The uniform 18-decimal divisor is kept implicit: every token balance stays in its smallest unit, USDC included, and only its sign matters for scoring.
- `Text.ToLower` lowers ASCII letters only. Python's `str.lower` also maps non-ASCII letters.
- Rendering is not modelled: Streamlit widgets, CSS, the radar chart, QR codes, the share URL, balance formatting and the stub `check_payment_status`, which always returns no payment.
- Streamlit's rerun semantics are not modelled. In the source the "Confirm Payment" button (app.py:352) is nested under `if generate_btn:` (app.py:255). Clicking it reruns the script with `generate_btn` False, so as written `mark_as_minted` is never reached from the page. `ConfirmPayment` models the handler body that the button guards, not this reachability.
- `App.GenerateIdentity` catches only analysis errors, because those are the only errors the modelled workflow can raise.
- Graph.IdentityNode: cannot fail in the model. In the source the prompt, the Gemini client and the chain are built before the `try` (graph.py:58, graph.py:92, graph.py:95); a failure there (for example a missing `GOOGLE_API_KEY`) leaves `identity_node`, aborts `graph.invoke` and shows "Error generating identity" with nothing saved (app.py:293-295). That failure is not modelled; the fallback name and verdict cover only failures inside the `try` at graph.py:97-114.
- Graph.NamingNeverFails: holds for every outcome of the call inside the `try` at graph.py:97-114, not for a failure while building the prompt, client or chain before it, which aborts the workflow in the source.
- `Graph.IdentityNode` requires that the analyst has stored the stats, because the source reads keys of that dict and fails on the empty initial one; the workflow only runs it after the analyst.
- The CLI in `main.py` is not part of this model: it imports names that the other modules do not define.
- `prompts.py` is not part of this model: it holds templates the workflow does not use.
