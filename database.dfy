/** The identity store: one record per wallet address, upserted after each
    analysis, read back for the cache, and marked as minted after payment.

    The table is a map from address to record; a record is a value, because
    the rows the source hands back are detached from the session once it is
    closed. Timestamps come from an abstract clock passed in as `now`. */
module Database {
  import opened Wrappers
  import Analysis

  /** A reading of the clock (`datetime.utcnow()`). */
  type Time = nat

  /** The `stats` JSON column: the wallet's fetched facts. */
  datatype Stats = Stats(ethBalanceWei: nat, txCount: nat, holdings: seq<Analysis.Holding>)

  /** The `scores` JSON column. */
  datatype Scores = Scores(wealthScore: int, vitalityScore: int, communityScore: int, finalScore: real)

  /** A row of the `identities` table. */
  datatype Identity = Identity(
    address: string,
    name: string,
    tier: string,
    verdict: string,
    stats: Stats,
    scores: Scores,
    minted: bool,
    mintTxHash: Option<string>,
    mintedAt: Option<Time>,
    createdAt: Time)

  /** The dict handed to `save_identity`: the six required keys, and the three
      mint keys, each of which the caller may leave out. */
  datatype IdentityData = IdentityData(
    address: string,
    name: string,
    tier: string,
    verdict: string,
    stats: Stats,
    scores: Scores,
    minted: KeyValue<bool>,
    mintTxHash: KeyValue<Option<string>>,
    mintedAt: KeyValue<Option<Time>>)

  predicate NoMintKeys(data: IdentityData) {
    data.minted.Absent? && data.mintTxHash.Absent? && data.mintedAt.Absent?
  }

  /** Every row is filed under its own primary key. */
  predicate KeyedByAddress(records: map<string, Identity>) {
    forall a :: a in records ==> records[a].address == a
  }

  function Lookup(records: map<string, Identity>, address: string): Option<Identity> {
    if address in records then Some(records[address]) else None
  }

  /** The row `save_identity` leaves for `data.address`, given the row found
      there (if any): a new row takes the given fields and the mint defaults
      (not minted, no hash, no time); an existing row takes the analysis fields,
      keeps each mint field whose key was left out, and gets `now` as its
      creation time. */
  function Upserted(existing: Option<Identity>, data: IdentityData, now: Time): Identity {
    match existing
    case None =>
      Identity(data.address, data.name, data.tier, data.verdict, data.stats, data.scores,
               data.minted.Or(false), data.mintTxHash.Or(None), data.mintedAt.Or(None), now)
    case Some(row) =>
      Identity(row.address, data.name, data.tier, data.verdict, data.stats, data.scores,
               data.minted.Or(row.minted), data.mintTxHash.Or(row.mintTxHash), data.mintedAt.Or(row.mintedAt), now)
  }

  /** The table after `save_identity(data)`. */
  function Upsert(records: map<string, Identity>, data: IdentityData, now: Time): map<string, Identity> {
    records[data.address := Upserted(Lookup(records, data.address), data, now)]
  }

  /** The table after `mark_as_minted(address, txHash)`. */
  function MarkMinted(records: map<string, Identity>, address: string, txHash: string, now: Time): map<string, Identity> {
    if address in records
    then records[address := records[address].(minted := true, mintTxHash := Some(txHash), mintedAt := Some(now))]
    else records
  }

  class IdentityStore {
    var records: map<string, Identity>

    ghost predicate Valid()
      reads this
    {
      KeyedByAddress(records)
    }

    /** An empty table. */
    constructor ()
      ensures Valid() && records == map[]
    {
      records := map[];
    }

    /** `save_identity`: updates the row in place field by field, or inserts a
        new one; always reports success. */
    method SaveIdentity(data: IdentityData, now: Time) returns (ok: bool)
      requires Valid()
      modifies this
      ensures Valid()
      ensures ok
      ensures records == Upsert(old(records), data, now)
    {
      if data.address in records {
        var existing := records[data.address];
        existing := existing.(name := data.name);
        existing := existing.(tier := data.tier);
        existing := existing.(verdict := data.verdict);
        existing := existing.(stats := data.stats);
        existing := existing.(scores := data.scores);
        if data.minted.Present? {
          existing := existing.(minted := data.minted.value);
        }
        if data.mintTxHash.Present? {
          existing := existing.(mintTxHash := data.mintTxHash.value);
        }
        if data.mintedAt.Present? {
          existing := existing.(mintedAt := data.mintedAt.value);
        }
        existing := existing.(createdAt := now);
        records := records[data.address := existing];
      } else {
        var identity := Identity(
          data.address, data.name, data.tier, data.verdict, data.stats, data.scores,
          if data.minted.Present? then data.minted.value else false,
          if data.mintTxHash.Present? then data.mintTxHash.value else None,
          if data.mintedAt.Present? then data.mintedAt.value else None,
          now);
        records := records[data.address := identity];
      }
      ok := true;
    }

    /** `mark_as_minted`: false and no change for an unknown address; otherwise
        sets the three mint fields of that row and reports true. */
    method MarkAsMinted(address: string, txHash: string, now: Time) returns (ok: bool)
      requires Valid()
      modifies this
      ensures Valid()
      ensures ok <==> address in old(records)
      ensures records == MarkMinted(old(records), address, txHash, now)
    {
      if address in records {
        var identity := records[address];
        identity := identity.(minted := true);
        identity := identity.(mintTxHash := Some(txHash));
        identity := identity.(mintedAt := Some(now));
        records := records[address := identity];
        return true;
      }
      return false;
    }

    /** `get_identity`: the stored row, or None for an unknown address. */
    method GetIdentity(address: string) returns (identity: Option<Identity>)
      ensures identity.None? <==> address !in records
      ensures identity.Some? ==> identity.value == records[address]
    {
      if address in records {
        identity := Some(records[address]);
      } else {
        identity := None;
      }
    }
  }

  // ------------------------------------------------------------ properties

  /** Inserting a new address files a row with the given fields, the mint
      defaults where keys are left out, and `now` as creation time. */
  lemma UpsertNew(records: map<string, Identity>, data: IdentityData, now: Time)
    requires data.address !in records
    ensures var row := Upsert(records, data, now)[data.address];
            && row.address == data.address && row.name == data.name && row.tier == data.tier
            && row.verdict == data.verdict && row.stats == data.stats && row.scores == data.scores
            && row.minted == (data.minted.Present? && data.minted.value)
            && (data.mintTxHash.Absent? ==> row.mintTxHash.None?)
            && (data.mintTxHash.Present? ==> row.mintTxHash == data.mintTxHash.value)
            && (data.mintedAt.Absent? ==> row.mintedAt.None?)
            && (data.mintedAt.Present? ==> row.mintedAt == data.mintedAt.value)
            && row.createdAt == now
  {
  }

  /** Upserting an existing address overwrites name, tier, verdict, stats and
      scores, restamps the creation time, and changes a mint field only when
      its key is supplied. */
  lemma UpsertExisting(records: map<string, Identity>, data: IdentityData, now: Time)
    requires data.address in records
    ensures var before := records[data.address];
            var row := Upsert(records, data, now)[data.address];
            && row.name == data.name && row.tier == data.tier && row.verdict == data.verdict
            && row.stats == data.stats && row.scores == data.scores && row.createdAt == now
            && row.address == before.address
            && (data.minted.Absent? ==> row.minted == before.minted)
            && (data.mintTxHash.Absent? ==> row.mintTxHash == before.mintTxHash)
            && (data.mintedAt.Absent? ==> row.mintedAt == before.mintedAt)
            && (data.minted.Present? ==> row.minted == data.minted.value)
            && (data.mintTxHash.Present? ==> row.mintTxHash == data.mintTxHash.value)
            && (data.mintedAt.Present? ==> row.mintedAt == data.mintedAt.value)
  {
  }

  /** Upsert touches only its own address, and the table keeps its keying. */
  lemma UpsertFrame(records: map<string, Identity>, data: IdentityData, now: Time)
    requires KeyedByAddress(records)
    ensures KeyedByAddress(Upsert(records, data, now))
    ensures Upsert(records, data, now).Keys == records.Keys + {data.address}
    ensures forall a :: a in records && a != data.address ==> Upsert(records, data, now)[a] == records[a]
  {
  }

  /** Marking an unknown address changes nothing; marking a known one sets the
      flag, the hash and the time and nothing else, in that row only. */
  lemma MarkMintedEffect(records: map<string, Identity>, address: string, txHash: string, now: Time)
    ensures address !in records ==> MarkMinted(records, address, txHash, now) == records
    ensures address in records ==>
              var row := MarkMinted(records, address, txHash, now)[address];
              && row.minted && row.mintTxHash == Some(txHash) && row.mintedAt == Some(now)
              && row == records[address].(minted := true, mintTxHash := Some(txHash), mintedAt := Some(now))
    ensures MarkMinted(records, address, txHash, now).Keys == records.Keys
    ensures forall a :: a in records && a != address ==> MarkMinted(records, address, txHash, now)[a] == records[a]
  {
  }

  /** Mint status survives re-analysis: after marking an address minted, an
      upsert without mint keys updates the analysis fields and keeps the flag,
      the hash and the mint time. */
  lemma MarkThenResave(records: map<string, Identity>, data: IdentityData, txHash: string, t1: Time, t2: Time)
    requires data.address in records && NoMintKeys(data)
    ensures var row := Upsert(MarkMinted(records, data.address, txHash, t1), data, t2)[data.address];
            && row.minted && row.mintTxHash == Some(txHash) && row.mintedAt == Some(t1)
            && row.name == data.name && row.tier == data.tier && row.scores == data.scores
  {
  }

  // ------------------------------------------- sequences of store operations

  /** A write the application performs against the store. */
  datatype StoreOp =
    | Save(data: IdentityData, at: Time)
    | Mark(address: string, txHash: string, at: Time)

  function Apply(records: map<string, Identity>, op: StoreOp): map<string, Identity> {
    match op
    case Save(data, at) => Upsert(records, data, at)
    case Mark(address, txHash, at) => MarkMinted(records, address, txHash, at)
  }

  function ApplyAll(records: map<string, Identity>, ops: seq<StoreOp>): map<string, Identity>
    decreases |ops|
  {
    if ops == [] then records else ApplyAll(Apply(records, ops[0]), ops[1..])
  }

  /** The writes the application issues: saves of analysis results, which never
      carry mint keys, and mark-as-minted calls. */
  predicate AppWrite(op: StoreOp) {
    op.Mark? || NoMintKeys(op.data)
  }

  /** A row's three mint fields agree: all set or all clear. */
  predicate MintConsistent(row: Identity) {
    row.minted == row.mintTxHash.Some? && row.minted == row.mintedAt.Some?
  }

  predicate AllMintConsistent(records: map<string, Identity>) {
    forall a :: a in records ==> MintConsistent(records[a])
  }

  /** No write removes an address. */
  lemma {:induction false} KeysOnlyGrow(records: map<string, Identity>, ops: seq<StoreOp>)
    ensures records.Keys <= ApplyAll(records, ops).Keys
    decreases |ops|
  {
    if ops != [] {
      KeysOnlyGrow(Apply(records, ops[0]), ops[1..]);
    }
  }

  /** Under the application's writes, a row's mint fields stay all set or all
      clear. */
  lemma {:induction false} AppWritesKeepMintConsistent(records: map<string, Identity>, ops: seq<StoreOp>)
    requires AllMintConsistent(records)
    requires forall k :: 0 <= k < |ops| ==> AppWrite(ops[k])
    ensures AllMintConsistent(ApplyAll(records, ops))
    decreases |ops|
  {
    if ops != [] {
      var next := Apply(records, ops[0]);
      assert AppWrite(ops[0]);
      forall a | a in next ensures MintConsistent(next[a]) {
        if a in records {
          assert MintConsistent(records[a]);
        }
      }
      AppWritesKeepMintConsistent(next, ops[1..]);
    }
  }

  /** Under the application's writes, a minted address stays minted, whatever
      is re-analysed and saved in between. */
  lemma {:induction false} MintedStaysMinted(records: map<string, Identity>, ops: seq<StoreOp>, address: string)
    requires address in records && records[address].minted
    requires forall k :: 0 <= k < |ops| ==> AppWrite(ops[k])
    ensures address in ApplyAll(records, ops) && ApplyAll(records, ops)[address].minted
    decreases |ops|
  {
    if ops != [] {
      assert AppWrite(ops[0]);
      MintedStaysMinted(Apply(records, ops[0]), ops[1..], address);
    }
  }

  /** Saves without mint keys alone never change any mint field. */
  lemma {:induction false} SavesKeepMintFields(records: map<string, Identity>, ops: seq<StoreOp>, address: string)
    requires address in records
    requires forall k :: 0 <= k < |ops| ==> ops[k].Save? && NoMintKeys(ops[k].data)
    ensures address in ApplyAll(records, ops)
    ensures var row := ApplyAll(records, ops)[address];
            row.minted == records[address].minted
            && row.mintTxHash == records[address].mintTxHash
            && row.mintedAt == records[address].mintedAt
    decreases |ops|
  {
    if ops != [] {
      assert ops[0].Save? && NoMintKeys(ops[0].data);
      SavesKeepMintFields(Apply(records, ops[0]), ops[1..], address);
    }
  }
}
