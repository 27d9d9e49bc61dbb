/** The identity workflow: a fixed linear graph analyst -> identity -> save
    -> END over a shared state that each node updates in place.

    The naming oracle (an LLM behind a JSON output parser) is a function from
    the request it is sent to the outcome it produces: it raised, or it
    returned a JSON object that may lack the `name` or `verdict` key. */
module Graph {
  import opened Wrappers
  import opened Analysis
  import Text
  import Database

  /** The structured context sent to the naming oracle. */
  datatype NamingRequest = NamingRequest(
    tier: string,
    ethBalanceWei: nat,
    txCount: nat,
    holdingsList: string,
    wealthScore: int,
    vitalityScore: int,
    communityScore: int)

  /** What the naming chain produced. */
  datatype NamingOutcome =
    | Raised
    | Answered(name: Option<string>, verdict: Option<string>)

  type Oracle = NamingRequest -> NamingOutcome

  const UnknownName: string := "Unknown Identity"
  const DefaultVerdict: string := "A wallet on Base."

  /** The workflow state (`GraphState`). `walletStats` is None while the state
      still holds the empty dict it starts with. */
  class GraphState {
    var address: string
    var walletStats: Option<WalletStats>
    var name: string
    var verdict: string
    var tier: string

    /** The initial state the application builds: the address and empty fields. */
    constructor (address: string)
      ensures this.address == address
      ensures walletStats == None && name == "" && verdict == "" && tier == ""
    {
      this.address := address;
      walletStats := None;
      name := "";
      verdict := "";
      tier := "";
    }
  }

  // ------------------------------------------------------------- topology

  /** The graph's nodes; `End` is the terminal marker. */
  datatype Step = AnalystStep | IdentityStep | SaveStep | End {
    function Position(): nat {
      match this
      case AnalystStep => 0
      case IdentityStep => 1
      case SaveStep => 2
      case End => 3
    }
  }

  const EntryPoint: Step := AnalystStep

  /** The single outgoing edge of each node: there are no conditional edges. */
  function Successor(s: Step): (t: Step)
    requires s != End
    ensures t.Position() == s.Position() + 1
  {
    match s
    case AnalystStep => IdentityStep
    case IdentityStep => SaveStep
    case SaveStep => End
  }

  /** The nodes visited from `s` on, following the edges until END. */
  function Route(s: Step): seq<Step>
    decreases 3 - s.Position()
  {
    if s == End then [] else [s] + Route(Successor(s))
  }

  /** From the entry point the graph runs analyst, identity and save, once
      each and in that order, and then ends. */
  lemma RouteFromEntry()
    ensures Route(EntryPoint) == [AnalystStep, IdentityStep, SaveStep]
  {
  }

  // ---------------------------------------------------------- identity node

  /** The symbols of the holdings, in order. */
  function Symbols(holdings: seq<Holding>): (symbols: seq<string>)
    ensures |symbols| == |holdings|
    ensures forall k :: 0 <= k < |holdings| ==> symbols[k] == holdings[k].symbol
  {
    if holdings == [] then [] else [holdings[0].symbol] + Symbols(holdings[1..])
  }

  const Separator: string := ", "

  /** The "Tokens Held" text: the symbols joined by ", ", or "None". */
  function HoldingsText(holdings: seq<Holding>): string {
    if holdings == [] then "None" else Text.Join(Symbols(holdings), Separator)
  }

  /** For holdings drawn from the configured tokens, the text reads "None"
      exactly when nothing is held, and otherwise starts with the first
      held symbol. */
  lemma HoldingsTextNoneIffEmpty(p: Provider, wallet: string)
    ensures var holdings := HoldingsOf(p, wallet, CONTRACTS);
            && (HoldingsText(holdings) == "None" <==> holdings == [])
            && (holdings != [] ==>
                  |holdings[0].symbol| > 0 && |HoldingsText(holdings)| > 0
                  && HoldingsText(holdings)[0] == holdings[0].symbol[0])
  {
    var holdings := HoldingsOf(p, wallet, CONTRACTS);
    if holdings != [] {
      var h := holdings[0];
      assert h in holdings;
      HoldingsMembership(p, wallet, CONTRACTS, h.symbol, h.balanceWei);
      var j :| 0 <= j < |CONTRACTS| && CONTRACTS[j].symbol == h.symbol;
      assert h.symbol[0] != 'N';
      assert HoldingsText(holdings)[0] == h.symbol[0];
    }
  }

  /** The text holds nothing but the symbols and the separators: its length
      is the symbols' lengths plus one separator between each two neighbours. */
  lemma HoldingsTextLength(holdings: seq<Holding>)
    requires holdings != []
    ensures |HoldingsText(holdings)| == Text.SumLengths(Symbols(holdings)) + (|holdings| - 1) * |Separator|
  {
    Text.JoinLength(Symbols(holdings), Separator);
  }

  /** The text names every held symbol in order: the `k`-th symbol sits at
      its offset in the text. */
  lemma HoldingsTextListsSymbols(holdings: seq<Holding>, k: nat)
    requires k < |holdings|
    ensures var o := Text.Offset(Symbols(holdings), Separator, k);
            && o + |holdings[k].symbol| <= |HoldingsText(holdings)|
            && HoldingsText(holdings)[o..o + |holdings[k].symbol|] == holdings[k].symbol
  {
    var symbols := Symbols(holdings);
    assert HoldingsText(holdings) == Text.Join(symbols, Separator);
    assert symbols[k] == holdings[k].symbol;
    Text.JoinPlacesPart(symbols, Separator, k);
  }

  /** Each held symbol but the last is followed by the separator ", ", and
      the next symbol starts right after it. */
  lemma HoldingsTextSeparates(holdings: seq<Holding>, k: nat)
    requires k + 1 < |holdings|
    ensures var e := Text.Offset(Symbols(holdings), Separator, k) + |holdings[k].symbol|;
            && e + |Separator| <= |HoldingsText(holdings)|
            && HoldingsText(holdings)[e..e + |Separator|] == Separator
            && Text.Offset(Symbols(holdings), Separator, k + 1) == e + |Separator|
  {
    var symbols := Symbols(holdings);
    assert HoldingsText(holdings) == Text.Join(symbols, Separator);
    assert symbols[k] == holdings[k].symbol;
    Text.JoinSeparates(symbols, Separator, k);
  }

  /** The request the identity node sends for these stats and tier label. */
  function RequestFor(stats: WalletStats, tier: string): NamingRequest {
    NamingRequest(tier, stats.ethBalanceWei, stats.txCount, HoldingsText(stats.holdings),
                  stats.wealthScore, stats.vitalityScore, stats.communityScore)
  }

  /** The fallback name when the naming chain raises. */
  function FallbackName(tier: string): string {
    "Base " + tier + " Wallet"
  }

  const VerdictLead: string := "A "
  const VerdictMiddle: string := " tier wallet on Base with "
  const VerdictTail: string := " transactions."

  /** The fallback verdict when the naming chain raises. */
  function FallbackVerdict(tier: string, txCount: nat): string {
    VerdictLead + Text.ToLower(tier) + VerdictMiddle + Text.Decimal(txCount) + VerdictTail
  }

  /** The name the identity node settles on. */
  function ChosenName(outcome: NamingOutcome, tier: string): string {
    match outcome
    case Raised => FallbackName(tier)
    case Answered(name, _) => name.GetOr(UnknownName)
  }

  /** The verdict the identity node settles on. */
  function ChosenVerdict(outcome: NamingOutcome, tier: string, txCount: nat): string {
    match outcome
    case Raised => FallbackVerdict(tier, txCount)
    case Answered(_, verdict) => verdict.GetOr(DefaultVerdict)
  }

  /** The naming defaults: an answer's own keys are used as given, a missing
      key falls back to its fixed default, and a raised chain falls back to
      the templates built from the tier and the transaction count. */
  lemma NamingDefaults(outcome: NamingOutcome, tier: string, txCount: nat)
    ensures outcome.Answered? && outcome.name.Some? ==> ChosenName(outcome, tier) == outcome.name.value
    ensures outcome.Answered? && outcome.name.None? ==> ChosenName(outcome, tier) == "Unknown Identity"
    ensures outcome.Answered? && outcome.verdict.Some? ==> ChosenVerdict(outcome, tier, txCount) == outcome.verdict.value
    ensures outcome.Answered? && outcome.verdict.None? ==> ChosenVerdict(outcome, tier, txCount) == "A wallet on Base."
    ensures outcome.Raised? ==> ChosenName(outcome, tier) == "Base " + tier + " Wallet"
  {
  }

  /** The fallback verdict names the transaction count: the digits sit right
      after the lower-cased tier and the fixed middle text, and read back as
      the count. */
  lemma FallbackVerdictNamesCount(tier: string, txCount: nat)
    ensures var v := FallbackVerdict(tier, txCount);
            var start := |VerdictLead| + |tier| + |VerdictMiddle|;
            var digits := Text.Decimal(txCount);
            && start + |digits| <= |v|
            && v[start..start + |digits|] == digits
            && Text.DecimalValue(v[start..start + |digits|]) == txCount
            && v[|VerdictLead|..|VerdictLead| + |tier|] == Text.ToLower(tier)
  {
    var lowered := Text.ToLower(tier);
    var digits := Text.Decimal(txCount);
    var head := VerdictLead + lowered + VerdictMiddle;
    var v := FallbackVerdict(tier, txCount);
    assert v == head + digits + VerdictTail;
    assert v[|head|..|head| + |digits|] == digits;
    assert v[|VerdictLead|..|VerdictLead| + |tier|] == head[|VerdictLead|..|VerdictLead| + |lowered|] == lowered;
    Text.DecimalRoundTrip(txCount);
  }

  // ----------------------------------------------------------------- nodes

  /** `analyst_node`: runs the analysis on the state's address; on success
      stores the stats and the tier label, on failure raises and leaves the
      state as it was. The address is never changed. */
  method AnalystNode(state: GraphState, p: Provider) returns (r: Result<WalletStats, AnalysisError>)
    modifies state
    ensures r == AnalysisOf(old(state.address), p)
    ensures state.address == old(state.address)
    ensures state.name == old(state.name) && state.verdict == old(state.verdict)
    ensures r.Success? ==> state.walletStats == Some(r.value) && state.tier == r.value.tier.Name()
    ensures r.Failure? ==> state.walletStats == old(state.walletStats) && state.tier == old(state.tier)
  {
    r := AnalyzeWallet(state.address, p);
    if r.Success? {
      state.walletStats := Some(r.value);
      state.tier := r.value.tier.Name();
    }
  }

  /** `identity_node`: asks the oracle for a name and verdict and writes only
      those two fields, using the defaults and the fallback. */
  method IdentityNode(state: GraphState, oracle: Oracle)
    requires state.walletStats.Some?
    modifies state
    ensures var outcome := oracle(RequestFor(old(state.walletStats.value), old(state.tier)));
            && state.name == ChosenName(outcome, old(state.tier))
            && state.verdict == ChosenVerdict(outcome, old(state.tier), old(state.walletStats.value.txCount))
    ensures state.address == old(state.address) && state.walletStats == old(state.walletStats)
    ensures state.tier == old(state.tier)
  {
    var stats := state.walletStats.value;
    var tier := state.tier;
    var outcome := oracle(RequestFor(stats, tier));
    state.name := ChosenName(outcome, tier);
    state.verdict := ChosenVerdict(outcome, tier, stats.txCount);
  }

  /** The dict `save_node` builds: the state's naming fields, the facts and the
      scores, and no mint key at all. */
  function RecordData(address: string, name: string, tier: string, verdict: string, stats: WalletStats): Database.IdentityData {
    Database.IdentityData(
      address, name, tier, verdict,
      Database.Stats(stats.ethBalanceWei, stats.txCount, stats.holdings),
      Database.Scores(stats.wealthScore, stats.vitalityScore, stats.communityScore, stats.finalScore),
      Absent, Absent, Absent)
  }

  /** `save_node`: upserts the record built from the state; the state itself
      is left as it is. */
  method SaveNode(state: GraphState, store: Database.IdentityStore, now: Database.Time)
    requires state.walletStats.Some? && store.Valid()
    modifies store
    ensures store.Valid()
    ensures store.records == Database.Upsert(old(store.records),
              RecordData(state.address, state.name, state.tier, state.verdict, state.walletStats.value), now)
  {
    var data := RecordData(state.address, state.name, state.tier, state.verdict, state.walletStats.value);
    var _ := store.SaveIdentity(data, now);
  }

  // -------------------------------------------------------------- pipeline

  /** The record the whole workflow saves for `address`, or the analysis
      error that stops it before anything is saved. */
  function Generated(address: string, p: Provider, oracle: Oracle): Result<Database.IdentityData, AnalysisError> {
    match AnalysisOf(address, p)
    case Failure(e) => Failure(e)
    case Success(stats) =>
      var tier := stats.tier.Name();
      var outcome := oracle(RequestFor(stats, tier));
      Success(RecordData(address, ChosenName(outcome, tier), tier, ChosenVerdict(outcome, tier, stats.txCount), stats))
  }

  /** `graph.invoke(state)`: runs the nodes of `Route(EntryPoint)` in that
      order (analyst, identity, save; see `RouteFromEntry`). An analysis
      error propagates before anything is named or saved. */
  method Invoke(state: GraphState, p: Provider, oracle: Oracle, store: Database.IdentityStore, now: Database.Time)
    returns (r: Result<(), AnalysisError>)
    requires store.Valid()
    modifies state, store
    ensures store.Valid()
    ensures state.address == old(state.address)
    ensures Generated(old(state.address), p, oracle).Failure? ==>
              && r == Failure(Generated(old(state.address), p, oracle).error)
              && store.records == old(store.records)
    ensures Generated(old(state.address), p, oracle).Success? ==>
              && r.Success?
              && store.records == Database.Upsert(old(store.records), Generated(old(state.address), p, oracle).value, now)
    ensures Generated(old(state.address), p, oracle).Success? ==>
              var data := Generated(old(state.address), p, oracle).value;
              && state.walletStats == Some(AnalysisOf(old(state.address), p).value)
              && state.tier == data.tier && state.name == data.name && state.verdict == data.verdict
    ensures Generated(old(state.address), p, oracle).Failure? ==>
              && state.walletStats == old(state.walletStats) && state.tier == old(state.tier)
              && state.name == old(state.name) && state.verdict == old(state.verdict)
  {
    var analysed := AnalystNode(state, p);
    if analysed.Failure? {
      return Failure(analysed.error);
    }
    IdentityNode(state, oracle);
    SaveNode(state, store, now);
    r := Success(());
  }

  /** What the workflow saves: the record sits under the very address it was
      run for, carries no mint key, and holds the analysis' tier label,
      facts and scores. */
  lemma GeneratedRecord(address: string, p: Provider, oracle: Oracle)
    requires Generated(address, p, oracle).Success?
    ensures var data := Generated(address, p, oracle).value;
            var stats := AnalysisOf(address, p).value;
            && AnalysisOf(address, p).Success?
            && data.address == address
            && Database.NoMintKeys(data)
            && data.tier == stats.tier.Name()
            && data.stats == Database.Stats(stats.ethBalanceWei, stats.txCount, stats.holdings)
            && data.scores == Database.Scores(stats.wealthScore, stats.vitalityScore, stats.communityScore, stats.finalScore)
  {
  }

  /** The oracle never makes the workflow fail: whatever it does, the workflow
      saves a record exactly when the analysis succeeds. */
  lemma NamingNeverFails(address: string, p: Provider, oracle: Oracle)
    ensures Generated(address, p, oracle).Success? <==> AnalysisOf(address, p).Success?
  {
  }

  /** Re-running the workflow for an address already marked minted keeps its
      mint status and hash while the analysis fields take the new values. */
  lemma RerunKeepsMint(records: map<string, Database.Identity>, address: string, p: Provider, oracle: Oracle, now: Database.Time)
    requires address in records && records[address].minted
    requires Generated(address, p, oracle).Success?
    ensures var data := Generated(address, p, oracle).value;
            var row := Database.Upsert(records, data, now)[address];
            && row.minted
            && row.mintTxHash == records[address].mintTxHash
            && row.mintedAt == records[address].mintedAt
            && row.tier == data.tier && row.name == data.name && row.scores == data.scores
  {
  }
}
