/** The scoring engine ("Justice Algorithm"): raw on-chain facts of a wallet
    become three sub-scores, a weighted final score and a tier.

    Balances are whole wei, exactly as the chain reports them; the source
    divides them by 10^18 before comparing, so every threshold in ether is
    compared here as the same threshold in wei. The final score is an exact
    real number 0.3 w + 0.4 v + 0.3 c. */
module Analysis {
  import opened Wrappers

  /** Wei per ether (and per whole token: every token is divided by 10^18). */
  const WeiPerEth: nat := 1_000_000_000_000_000_000

  /** A configured ERC-20 token: its display symbol and contract address. */
  datatype Token = Token(symbol: string, contract: string)

  /** The token contracts the analysis checks, in their configured order. */
  const CONTRACTS: seq<Token> := [
    Token("BRETT", "0x532f27101965dd16442E59d40670FaF5eBB142E4"),
    Token("TOSHI", "0xAC1Bd2486aAf3B5C0fc3Fd868558b082a531B2B4"),
    Token("DEGEN", "0x4ed4E862860beD51a9570b96d89aF5E1B0Efefed"),
    Token("AERO", "0x940181a94A35A4569E4529A3CDfB74e38FD98631"),
    Token("USDC", "0x833589fCD6eDb6E08f4c7C32D4f71b54bdA02913"),
    Token("BASE_PAINT", "0xba5e05cb26b78eda3a2f8e3b3814726305dcac83")
  ]

  /** One read against the chain provider: it raised, or it returned a
      non-negative integer (wei, or a transaction count). */
  datatype Fetch = Failed | Fetched(value: nat)

  /** What the analysis can observe of the chain provider. Each field stands
      for one web3 call; their answers are inputs of the model. */
  datatype Provider = Provider(
    connected: bool,                        // w3.is_connected()
    isAddress: string -> bool,              // w3.is_address(s)
    toChecksumAddress: string -> string,    // w3.to_checksum_address(s)
    getBalance: string -> Fetch,            // w3.eth.get_balance(addr), in wei
    getTransactionCount: string -> Fetch,   // w3.eth.get_transaction_count(addr)
    balanceOf: (string, string) -> Fetch)   // balanceOf on (token contract, owner), in wei

  /** An entry of the holdings dict: token symbol and its balance in wei. */
  datatype Holding = Holding(symbol: string, balanceWei: nat)

  datatype Tier = Common | Rare | Legendary | Godly {
    /** The label the source stores and displays. */
    function Name(): string {
      match this
      case Common => "COMMON"
      case Rare => "RARE"
      case Legendary => "LEGENDARY"
      case Godly => "GODLY"
    }

    /** Position in the order COMMON < RARE < LEGENDARY < GODLY. */
    function Rank(): nat {
      match this
      case Common => 0
      case Rare => 1
      case Legendary => 2
      case Godly => 3
    }
  }

  /** The analysis result (`WalletStats`). */
  datatype WalletStats = WalletStats(
    address: string,
    ethBalanceWei: nat,
    txCount: nat,
    holdings: seq<Holding>,
    wealthScore: int,
    vitalityScore: int,
    communityScore: int,
    finalScore: real,
    tier: Tier)

  /** The exceptions `analyze_wallet` raises. `NotConnected` and `FetchFailed`
      are both a Python `ConnectionError`, with different messages;
      `InvalidAddress` is a `ValueError` naming the address. */
  datatype AnalysisError = NotConnected | InvalidAddress(address: string) | FetchFailed

  // ---------------------------------------------------------------- scores

  /** Wealth score from the native balance: 100 from 10 ETH, 80 from 1 ETH,
      50 from 0.1 ETH, 20 below. */
  function WealthScore(balanceWei: nat): (score: int)
    ensures score == 100 <==> balanceWei >= 10 * WeiPerEth
    ensures score == 80 <==> WeiPerEth <= balanceWei < 10 * WeiPerEth
    ensures score == 50 <==> WeiPerEth / 10 <= balanceWei < WeiPerEth
    ensures score == 20 <==> balanceWei < WeiPerEth / 10
  {
    if balanceWei >= 10 * WeiPerEth then 100
    else if balanceWei >= WeiPerEth then 80
    else if balanceWei >= WeiPerEth / 10 then 50
    else 20
  }

  /** More ether never lowers the wealth score. */
  lemma WealthMonotone(a: nat, b: nat)
    requires a <= b
    ensures WealthScore(a) <= WealthScore(b)
  {
  }

  /** Vitality score from the transaction count: 100 from 1000, 85 from 500,
      60 from 100, 40 from 20, 10 below. */
  function VitalityScore(txCount: nat): (score: int)
    ensures score == 100 <==> txCount >= 1000
    ensures score == 85 <==> 500 <= txCount < 1000
    ensures score == 60 <==> 100 <= txCount < 500
    ensures score == 40 <==> 20 <= txCount < 100
    ensures score == 10 <==> txCount < 20
  {
    if txCount >= 1000 then 100
    else if txCount >= 500 then 85
    else if txCount >= 100 then 60
    else if txCount >= 20 then 40
    else 10
  }

  /** More transactions never lower the vitality score. */
  lemma VitalityMonotone(a: nat, b: nat)
    requires a <= b
    ensures VitalityScore(a) <= VitalityScore(b)
  {
  }

  /** Number of holdings entries with a strictly positive balance. */
  function CountPositive(holdings: seq<Holding>): (n: nat)
    ensures n <= |holdings|
  {
    if holdings == [] then 0
    else
      CountPositive(holdings[..|holdings| - 1])
      + (if holdings[|holdings| - 1].balanceWei > 0 then 1 else 0)
  }

  /** When every entry is positive (as in analysis results), all of them count. */
  lemma {:induction false} CountPositiveAll(holdings: seq<Holding>)
    requires forall k :: 0 <= k < |holdings| ==> holdings[k].balanceWei > 0
    ensures CountPositive(holdings) == |holdings|
  {
    if holdings != [] {
      CountPositiveAll(holdings[..|holdings| - 1]);
    }
  }

  /** Community score: 20 points per positive holding, capped at 100. */
  function CommunityScore(holdings: seq<Holding>): (score: int)
    ensures 0 <= score <= 100 && score % 20 == 0
    ensures score < 100 ==> score == 20 * CountPositive(holdings)
    ensures score == 100 <==> CountPositive(holdings) >= 5
  {
    var raw := 20 * CountPositive(holdings);
    if raw < 100 then raw else 100
  }

  /** `calculate_community_score`: accumulates 20 per positive entry, then
      caps the sum at 100. */
  method CalculateCommunityScore(holdings: seq<Holding>) returns (score: int)
    ensures score == CommunityScore(holdings)
  {
    var sum := 0;
    var i := 0;
    while i < |holdings|
      invariant 0 <= i <= |holdings|
      invariant sum == 20 * CountPositive(holdings[..i])
    {
      if holdings[i].balanceWei > 0 {
        sum := sum + 20;
      }
      assert holdings[..i + 1][..i] == holdings[..i];
      i := i + 1;
    }
    assert holdings[..i] == holdings;
    score := if sum < 100 then sum else 100;
  }

  /** The weighted final score: vitality weighs 0.4, wealth and community 0.3. */
  function FinalScore(wealth: int, vitality: int, community: int): real {
    0.3 * wealth as real + 0.4 * vitality as real + 0.3 * community as real
  }

  /** With every sub-score in [0, 100], so is the final score. */
  lemma FinalScoreInRange(wealth: int, vitality: int, community: int)
    requires 0 <= wealth <= 100 && 0 <= vitality <= 100 && 0 <= community <= 100
    ensures 0.0 <= FinalScore(wealth, vitality, community) <= 100.0
  {
  }

  /** Tier bands on the final score, each closed below: [85, ..) GODLY,
      [65, 85) LEGENDARY, [40, 65) RARE, below 40 COMMON. */
  function CalculateTier(finalScore: real): (t: Tier)
    ensures t == Godly <==> finalScore >= 85.0
    ensures t == Legendary <==> 65.0 <= finalScore < 85.0
    ensures t == Rare <==> 40.0 <= finalScore < 65.0
    ensures t == Common <==> finalScore < 40.0
  {
    if finalScore >= 85.0 then Godly
    else if finalScore >= 65.0 then Legendary
    else if finalScore >= 40.0 then Rare
    else Common
  }

  /** A higher final score never gives a lower tier. */
  lemma TierMonotone(a: real, b: real)
    requires a <= b
    ensures CalculateTier(a).Rank() <= CalculateTier(b).Rank()
  {
  }

  // ---------------------------------------------------------- token reads

  /** `get_token_balance`: the wallet's balance of one token in wei, or 0
      when any part of the lookup raises. */
  function TokenBalance(p: Provider, wallet: string, token: Token): (wei: nat)
    ensures p.balanceOf(p.toChecksumAddress(token.contract), p.toChecksumAddress(wallet)).Failed? ==> wei == 0
  {
    match p.balanceOf(p.toChecksumAddress(token.contract), p.toChecksumAddress(wallet))
    case Failed => 0
    case Fetched(v) => v
  }

  /** The holdings dict built over `tokens` in order: an entry for each token
      whose balance is strictly positive. */
  function HoldingsOf(p: Provider, wallet: string, tokens: seq<Token>): seq<Holding>
  {
    if tokens == [] then []
    else
      var rest := HoldingsOf(p, wallet, tokens[..|tokens| - 1]);
      var last := tokens[|tokens| - 1];
      var wei := TokenBalance(p, wallet, last);
      if wei > 0 then rest + [Holding(last.symbol, wei)] else rest
  }

  /** A pair is in the holdings exactly when some configured token with that
      symbol reads that balance, and the balance is positive. */
  lemma {:induction false} HoldingsMembership(p: Provider, wallet: string, tokens: seq<Token>, symbol: string, wei: nat)
    ensures Holding(symbol, wei) in HoldingsOf(p, wallet, tokens)
            <==> wei > 0 && exists j :: 0 <= j < |tokens| && tokens[j].symbol == symbol && TokenBalance(p, wallet, tokens[j]) == wei
  {
    if tokens != [] {
      var init := tokens[..|tokens| - 1];
      HoldingsMembership(p, wallet, init, symbol, wei);
      var last := tokens[|tokens| - 1];
      if Holding(symbol, wei) in HoldingsOf(p, wallet, tokens) {
        if Holding(symbol, wei) in HoldingsOf(p, wallet, init) {
          var j :| 0 <= j < |init| && init[j].symbol == symbol && TokenBalance(p, wallet, init[j]) == wei;
          assert tokens[j] == init[j];
        } else {
          assert tokens[|tokens| - 1] == last;
        }
      }
      if wei > 0 && exists j :: 0 <= j < |tokens| && tokens[j].symbol == symbol && TokenBalance(p, wallet, tokens[j]) == wei {
        var j :| 0 <= j < |tokens| && tokens[j].symbol == symbol && TokenBalance(p, wallet, tokens[j]) == wei;
        if j < |init| {
          assert init[j] == tokens[j];
        }
      }
    }
  }

  /** Every holdings entry has a strictly positive balance. */
  lemma {:induction false} HoldingsPositive(p: Provider, wallet: string, tokens: seq<Token>)
    ensures forall k :: 0 <= k < |HoldingsOf(p, wallet, tokens)| ==> HoldingsOf(p, wallet, tokens)[k].balanceWei > 0
    ensures |HoldingsOf(p, wallet, tokens)| <= |tokens|
  {
    if tokens != [] {
      HoldingsPositive(p, wallet, tokens[..|tokens| - 1]);
    }
  }

  predicate DistinctSymbols(tokens: seq<Token>) {
    forall i, j :: 0 <= i < j < |tokens| ==> tokens[i].symbol != tokens[j].symbol
  }

  lemma ContractsDistinct()
    ensures DistinctSymbols(CONTRACTS)
  {
  }

  /** Token isolation: a token whose lookup raises has no entry at all. */
  lemma FailedLookupIsAbsent(p: Provider, wallet: string, tokens: seq<Token>, j: nat, wei: nat)
    requires DistinctSymbols(tokens) && j < |tokens|
    requires p.balanceOf(p.toChecksumAddress(tokens[j].contract), p.toChecksumAddress(wallet)).Failed?
    ensures Holding(tokens[j].symbol, wei) !in HoldingsOf(p, wallet, tokens)
  {
    HoldingsMembership(p, wallet, tokens, tokens[j].symbol, wei);
  }

  // --------------------------------------------------------------- analysis

  /** The scores computed from a wallet's fetched facts. */
  function Score(address: string, balanceWei: nat, txCount: nat, holdings: seq<Holding>): WalletStats {
    var wealth := WealthScore(balanceWei);
    var vitality := VitalityScore(txCount);
    var community := CommunityScore(holdings);
    var final := FinalScore(wealth, vitality, community);
    WalletStats(address, balanceWei, txCount, holdings, wealth, vitality, community, final, CalculateTier(final))
  }

  /** What `analyze_wallet(address)` returns or raises against provider `p`. */
  function AnalysisOf(address: string, p: Provider): Result<WalletStats, AnalysisError> {
    if !p.connected then Failure(NotConnected)
    else if !p.isAddress(address) then Failure(InvalidAddress(address))
    else
      var checksumAddr := p.toChecksumAddress(address);
      match p.getBalance(checksumAddr)
      case Failed => Failure(FetchFailed)
      case Fetched(balanceWei) =>
        match p.getTransactionCount(checksumAddr)
        case Failed => Failure(FetchFailed)
        case Fetched(txCount) => Success(Score(address, balanceWei, txCount, HoldingsOf(p, checksumAddr, CONTRACTS)))
  }

  /** `analyze_wallet`: checks, fetches, then builds the holdings dict token by
      token and scores the facts. */
  method AnalyzeWallet(address: string, p: Provider) returns (r: Result<WalletStats, AnalysisError>)
    ensures r == AnalysisOf(address, p)
  {
    if !p.connected {
      return Failure(NotConnected);
    }
    if !p.isAddress(address) {
      return Failure(InvalidAddress(address));
    }
    var checksumAddr := p.toChecksumAddress(address);
    var balance := p.getBalance(checksumAddr);
    if balance.Failed? {
      return Failure(FetchFailed);
    }
    var txCount := p.getTransactionCount(checksumAddr);
    if txCount.Failed? {
      return Failure(FetchFailed);
    }
    var holdings: seq<Holding> := [];
    var i := 0;
    while i < |CONTRACTS|
      invariant 0 <= i <= |CONTRACTS|
      invariant holdings == HoldingsOf(p, checksumAddr, CONTRACTS[..i])
    {
      var wei := TokenBalance(p, checksumAddr, CONTRACTS[i]);
      if wei > 0 {
        holdings := holdings + [Holding(CONTRACTS[i].symbol, wei)];
      }
      assert CONTRACTS[..i + 1][..i] == CONTRACTS[..i];
      i := i + 1;
    }
    assert CONTRACTS[..i] == CONTRACTS;
    var wealth := WealthScore(balance.value);
    var vitality := VitalityScore(txCount.value);
    var community := CalculateCommunityScore(holdings);
    var final := FinalScore(wealth, vitality, community);
    var tier := CalculateTier(final);
    r := Success(WalletStats(address, balance.value, txCount.value, holdings, wealth, vitality, community, final, tier));
  }

  /** The error order: connectivity first, then the address, then the two
      fetches; the analysis succeeds exactly when all of them pass. */
  lemma ErrorOrder(address: string, p: Provider)
    ensures !p.connected ==> AnalysisOf(address, p) == Failure(NotConnected)
    ensures p.connected && !p.isAddress(address) ==> AnalysisOf(address, p) == Failure(InvalidAddress(address))
    ensures p.connected && p.isAddress(address)
            && (p.getBalance(p.toChecksumAddress(address)).Failed? || p.getTransactionCount(p.toChecksumAddress(address)).Failed?)
            ==> AnalysisOf(address, p) == Failure(FetchFailed)
    ensures AnalysisOf(address, p).Success?
            <==> p.connected && p.isAddress(address)
                 && p.getBalance(p.toChecksumAddress(address)).Fetched?
                 && p.getTransactionCount(p.toChecksumAddress(address)).Fetched?
  {
  }

  /** A successful analysis reports the caller's address string (not the
      checksummed one), the fetched facts, each sub-score as its step function
      of those facts, a final score in [0, 100] and the tier of that score;
      its holdings are positive and at most one per configured token. */
  lemma AnalysisFields(address: string, p: Provider)
    requires AnalysisOf(address, p).Success?
    ensures var s := AnalysisOf(address, p).value;
            var checksumAddr := p.toChecksumAddress(address);
            && s.address == address
            && p.getBalance(checksumAddr) == Fetched(s.ethBalanceWei)
            && p.getTransactionCount(checksumAddr) == Fetched(s.txCount)
            && s.holdings == HoldingsOf(p, checksumAddr, CONTRACTS)
            && s.wealthScore == WealthScore(s.ethBalanceWei)
            && s.vitalityScore == VitalityScore(s.txCount)
            && s.communityScore == CommunityScore(s.holdings)
            && s.communityScore == (if 20 * |s.holdings| < 100 then 20 * |s.holdings| else 100)
            && 0.0 <= s.finalScore <= 100.0
            && s.tier == CalculateTier(s.finalScore)
            && (forall k :: 0 <= k < |s.holdings| ==> s.holdings[k].balanceWei > 0)
            && |s.holdings| <= |CONTRACTS|
  {
    var s := AnalysisOf(address, p).value;
    HoldingsPositive(p, p.toChecksumAddress(address), CONTRACTS);
    CountPositiveAll(s.holdings);
    FinalScoreInRange(s.wealthScore, s.vitalityScore, s.communityScore);
  }

  /** Token lookups never decide whether the analysis succeeds: swapping the
      token-balance reads for any others keeps the same outcome kind and the
      same error. */
  lemma TokenIsolation(address: string, p: Provider, balanceOf: (string, string) -> Fetch)
    ensures var q := p.(balanceOf := balanceOf);
            && AnalysisOf(address, p).Success? == AnalysisOf(address, q).Success?
            && (AnalysisOf(address, p).Failure? ==> AnalysisOf(address, p) == AnalysisOf(address, q))
  {
  }

  /** Scenario: 12.5 ETH, 1200 transactions and one token held score
      100/100/20, a final 76 and LEGENDARY. */
  lemma ScenarioLegendary(address: string, p: Provider)
    requires p.connected && p.isAddress(address)
    requires p.getBalance(p.toChecksumAddress(address)) == Fetched(12_500_000_000_000_000_000)
    requires p.getTransactionCount(p.toChecksumAddress(address)) == Fetched(1200)
    requires |HoldingsOf(p, p.toChecksumAddress(address), CONTRACTS)| == 1
    ensures AnalysisOf(address, p).Success?
    ensures AnalysisOf(address, p).value.wealthScore == 100
    ensures AnalysisOf(address, p).value.vitalityScore == 100
    ensures AnalysisOf(address, p).value.communityScore == 20
    ensures AnalysisOf(address, p).value.finalScore == 76.0
    ensures AnalysisOf(address, p).value.tier == Legendary
  {
    AnalysisFields(address, p);
  }

  /** Scenario: 0.05 ETH, 5 transactions and no holdings score 20/10/0, a
      final 10 and COMMON. */
  lemma ScenarioCommon(address: string, p: Provider)
    requires p.connected && p.isAddress(address)
    requires p.getBalance(p.toChecksumAddress(address)) == Fetched(50_000_000_000_000_000)
    requires p.getTransactionCount(p.toChecksumAddress(address)) == Fetched(5)
    requires HoldingsOf(p, p.toChecksumAddress(address), CONTRACTS) == []
    ensures AnalysisOf(address, p).Success?
    ensures AnalysisOf(address, p).value.finalScore == 10.0
    ensures AnalysisOf(address, p).value.tier == Common
  {
  }
}
