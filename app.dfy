/** The parts of the dashboard that carry logic: the tier's CSS class, the
    validate -> normalise -> cache check -> generate -> reload flow behind the
    "Generate Identity" button, the payment confirmation, and the displayed
    count of tokens held. Rendering itself is not modelled. */
module App {
  import opened Wrappers
  import opened Analysis
  import Text
  import Database
  import Graph

  // ------------------------------------------------------------ tier style

  /** `get_tier_class`: the CSS class for a tier label, compared without
      regard to case; every label other than the three named ones, COMMON
      and unknown labels alike, gets "tier-common". */
  function GetTierClass(tier: string): (cls: string)
    ensures cls == "tier-godly" <==> Text.ToLower(tier) == "godly"
    ensures cls == "tier-legendary" <==> Text.ToLower(tier) == "legendary"
    ensures cls == "tier-rare" <==> Text.ToLower(tier) == "rare"
    ensures cls == "tier-common" <==> Text.ToLower(tier) !in {"godly", "legendary", "rare"}
  {
    var tierLower := Text.ToLower(tier);
    if tierLower == "godly" then "tier-godly"
    else if tierLower == "legendary" then "tier-legendary"
    else if tierLower == "rare" then "tier-rare"
    else "tier-common"
  }

  /** The class depends on the label only up to case. */
  lemma TierClassIgnoresCase(tier: string)
    ensures GetTierClass(Text.ToLower(tier)) == GetTierClass(tier)
  {
    Text.ToLowerIdempotent(tier);
  }

  /** Each tier label the analysis produces gets its own class. */
  lemma TierClassOfTier(t: Tier)
    ensures t == Godly ==> GetTierClass(t.Name()) == "tier-godly"
    ensures t == Legendary ==> GetTierClass(t.Name()) == "tier-legendary"
    ensures t == Rare ==> GetTierClass(t.Name()) == "tier-rare"
    ensures t == Common ==> GetTierClass(t.Name()) == "tier-common"
  {
  }

  // ------------------------------------------------------------ tokens held

  /** The "Tokens Held" metric: the holdings entries with a positive balance. */
  function TokensHeld(stats: Database.Stats): nat {
    CountPositive(stats.holdings)
  }

  /** For a record the workflow saves, every holding counts as held, and the
      community score is 20 per held token, capped at 100. */
  lemma TokensHeldOfGenerated(address: string, p: Provider, oracle: Graph.Oracle)
    requires Graph.Generated(address, p, oracle).Success?
    ensures var data := Graph.Generated(address, p, oracle).value;
            var n := TokensHeld(data.stats);
            && n == |data.stats.holdings|
            && data.scores.communityScore == (if 20 * n < 100 then 20 * n else 100)
  {
    Graph.GeneratedRecord(address, p, oracle);
    AnalysisFields(address, p);
    var stats := AnalysisOf(address, p).value;
    CountPositiveAll(stats.holdings);
  }

  // ------------------------------------------------------ generate identity

  /** What the page ends up showing after "Generate Identity". */
  datatype Screen =
    | MissingAddress                         // "Please enter a wallet address"
    | InvalidFormat                          // "Invalid wallet address format"
    | GenerationError(error: AnalysisError)  // "Error generating identity: ..."
    | Shown(identity: Database.Identity, cached: bool)
    | NothingShown                           // the reloaded record was None

  /** The button handler: reject an empty or malformed address before touching
      the store, normalise it, serve a stored record from the cache without
      running the workflow, and otherwise run the workflow from an initial
      state and show the record reloaded from the store. */
  method GenerateIdentity(input: string, p: Provider, oracle: Graph.Oracle, store: Database.IdentityStore, now: Database.Time)
    returns (screen: Screen)
    requires store.Valid()
    modifies store
    ensures store.Valid()
    ensures screen.Shown? ==> input != "" && screen.identity.address == p.toChecksumAddress(input)
    ensures input == "" ==> screen == MissingAddress && store.records == old(store.records)
    ensures input != "" && !p.isAddress(input) ==> screen == InvalidFormat && store.records == old(store.records)
    ensures input != "" && p.isAddress(input) ==>
              var address := p.toChecksumAddress(input);
              if address in old(store.records) then
                screen == Shown(old(store.records)[address], true) && store.records == old(store.records)
              else
                match Graph.Generated(address, p, oracle)
                case Failure(e) => screen == GenerationError(e) && store.records == old(store.records)
                case Success(data) =>
                  && store.records == Database.Upsert(old(store.records), data, now)
                  && address in store.records
                  && screen == Shown(store.records[address], false)
  {
    if input == "" {
      return MissingAddress;
    }
    if !p.isAddress(input) {
      return InvalidFormat;
    }
    var address := p.toChecksumAddress(input);
    var existing := store.GetIdentity(address);
    var identityData: Option<Database.Identity>;
    var cached: bool;
    if existing.Some? {
      identityData := existing;
      cached := true;
    } else {
      var initialState := new Graph.GraphState(address);
      var run := Graph.Invoke(initialState, p, oracle, store, now);
      if run.Failure? {
        return GenerationError(run.error);
      }
      Graph.GeneratedRecord(address, p, oracle);
      identityData := store.GetIdentity(address);
      cached := false;
    }
    if identityData.Some? {
      screen := Shown(identityData.value, cached);
    } else {
      screen := NothingShown;
    }
  }

  /** At most one generation per address: right after a lookup that showed a
      record, the same lookup is served from the cache, shows the same record
      and leaves the store as it was (`between` is the table after the first
      lookup). */
  method RepeatLookupIsCached(input: string, p: Provider, oracle: Graph.Oracle, store: Database.IdentityStore, t1: Database.Time, t2: Database.Time)
    returns (first: Screen, second: Screen, ghost between: map<string, Database.Identity>)
    requires store.Valid()
    modifies store
    ensures store.Valid()
    ensures first.Shown? ==> second == Shown(first.identity, true) && store.records == between
    ensures input != "" && p.isAddress(input) && Graph.Generated(p.toChecksumAddress(input), p, oracle).Success?
            ==> first.Shown? && second.Shown? && second.cached
  {
    first := GenerateIdentity(input, p, oracle, store, t1);
    between := store.records;
    second := GenerateIdentity(input, p, oracle, store, t2);
  }

  // ------------------------------------------------------- confirm payment

  /** What "Confirm Payment" shows. */
  datatype Confirmation =
    | MintConfirmed   // "Identity officially minted!"
    | HashMissing     // "Please enter the transaction hash"

  /** The "Confirm Payment" handler: with a transaction hash it marks the
      address as minted (and reports success whatever the store answers);
      without one it only asks for the hash. */
  method ConfirmPayment(store: Database.IdentityStore, address: string, txHash: string, now: Database.Time)
    returns (confirmation: Confirmation)
    requires store.Valid()
    modifies store
    ensures store.Valid()
    ensures txHash == "" ==> confirmation == HashMissing && store.records == old(store.records)
    ensures txHash != "" ==>
              confirmation == MintConfirmed
              && store.records == Database.MarkMinted(old(store.records), address, txHash, now)
  {
    if txHash != "" {
      var _ := store.MarkAsMinted(address, txHash, now);
      confirmation := MintConfirmed;
    } else {
      confirmation := HashMissing;
    }
  }
}
