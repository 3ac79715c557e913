/**
 * The Balancer V2 pool-factory dispatcher: recognise one of eight factory
 * addresses, decode its `Create` call and `PoolCreated` log, find the pool's
 * registration in the vault's logs of the same transaction, and build the
 * `ProtocolComponent` for the new pool.
 */
module PoolFactories {
  import opened Wrappers
  import opened Octets
  import opened Chain
  import opened BalancerAbi
  import opened Tycho
  import Hex
  import SignedBytes

  /** The Balancer V2 vault (`modules::VAULT_ADDRESS`). */
  const VAULT_ADDRESS: Address :=
    [0xBA, 0x12, 0x22, 0x22, 0x22, 0x22, 0x8D, 0x8B, 0xA4, 0x45,
     0x95, 0x8A, 0x75, 0xA0, 0x70, 0x4D, 0x56, 0x6B, 0xF2, 0xC8]

  const WEIGHTED_POOL_FACTORY_V1: Address :=
    [0x7D, 0xFD, 0xEF, 0x5F, 0x35, 0x50, 0x96, 0x60, 0x34, 0x19,
     0x23, 0x9C, 0xE7, 0x43, 0xBF, 0xAF, 0x11, 0x20, 0x31, 0x2B]
  const WEIGHTED_POOL_FACTORY_V2: Address :=
    [0x8D, 0xF6, 0xEF, 0xEC, 0x55, 0x47, 0xE3, 0x1B, 0x0E, 0xB7,
     0xD1, 0x29, 0x1B, 0x51, 0x1F, 0xF8, 0xA2, 0xBF, 0x98, 0x7C]
  const WEIGHTED_POOL_FACTORY_V3: Address :=
    [0xF1, 0x66, 0x5E, 0x19, 0xBC, 0x10, 0x5B, 0xE4, 0xED, 0xD3,
     0x73, 0x9F, 0x88, 0x31, 0x5C, 0xC6, 0x99, 0xCC, 0x5B, 0x65]
  const WEIGHTED_POOL_FACTORY_V4: Address :=
    [0xC7, 0xE5, 0xED, 0x10, 0x54, 0xA2, 0x4E, 0xF3, 0x1D, 0x82,
     0x7E, 0x6F, 0x86, 0xCA, 0xA5, 0x8B, 0x3B, 0xC1, 0x68, 0xD7]
  const COMPOSABLE_STABLE_POOL_FACTORY: Address :=
    [0xA8, 0x92, 0x04, 0x55, 0x93, 0x4D, 0xA4, 0xD8, 0x53, 0xFA,
     0xAC, 0x1F, 0x94, 0xFE, 0x7B, 0xEF, 0x72, 0x94, 0x3E, 0xF1]
  const ERC4626_LINEAR_POOL_FACTORY: Address :=
    [0x7A, 0xDB, 0xDA, 0xBA, 0xA8, 0x0F, 0x65, 0x45, 0x68, 0x42,
     0x18, 0x87, 0xC1, 0x2F, 0x09, 0xE0, 0xC7, 0xBD, 0x96, 0x29]
  const YEARN_LINEAR_POOL_FACTORY: Address :=
    [0x19, 0xDF, 0xEF, 0x0A, 0x82, 0x8E, 0xEC, 0x0C, 0x85, 0xFB,
     0xB3, 0x35, 0xAA, 0x65, 0x43, 0x74, 0x17, 0x39, 0x0B, 0x85]
  /** Deprecated, kept for the 80BAL-20WETH pool. */
  const WEIGHTED_POOL_2_TOKENS_FACTORY: Address :=
    [0xCF, 0x0A, 0x32, 0xBB, 0xEF, 0x8F, 0x06, 0x49, 0x69, 0xF2,
     0x1F, 0x7E, 0x02, 0x32, 0x8F, 0xB5, 0x77, 0x38, 0x20, 0x18]

  /** Known but deliberately unsupported: the Gearbox linear factory is disabled on chain. */
  const GEARBOX_LINEAR_POOL_FACTORY: Address :=
    [0x39, 0xA7, 0x9E, 0xB4, 0x49, 0xFC, 0x05, 0xC9, 0x2C, 0x39,
     0xAA, 0x6F, 0x0E, 0x9B, 0xFA, 0xC0, 0x3B, 0xE8, 0xDE, 0x5B]
  /** Known but deliberately unsupported: the managed pool factory's `Create` is unusual. */
  const MANAGED_POOL_FACTORY: Address :=
    [0xBF, 0x90, 0x4F, 0x9F, 0x34, 0x07, 0x45, 0xB4, 0xF0, 0xC4,
     0x70, 0x2C, 0x7B, 0x6A, 0xB1, 0xE8, 0x08, 0xEA, 0x6B, 0x93]

  const PROTOCOL_TYPE: string := "balancer_v2_pool"

  // The `pool_type` string of each arm.
  const WEIGHTED_V1_NAME: AsciiString := "WeightedPoolFactoryV1"
  const WEIGHTED_V2_NAME: AsciiString := "WeightedPoolFactoryV2"
  const WEIGHTED_V3_NAME: AsciiString := "WeightedPoolFactoryV3"
  const WEIGHTED_V4_NAME: AsciiString := "WeightedPoolFactoryV4"
  const COMPOSABLE_STABLE_NAME: AsciiString := "ComposableStablePoolFactory"
  const ERC4626_LINEAR_NAME: AsciiString := "ERC4626LinearPoolFactory"
  const YEARN_LINEAR_NAME: AsciiString := "YearnLinearPoolFactory"
  const WEIGHTED_2_TOKENS_NAME: AsciiString := "WeightedPool2TokensFactory"

  /** The two `.unwrap()` calls that can panic. */
  datatype Panic =
    | PoolNotRegistered(pool: Bytes)
    | TokensNotRegistered(poolId: Bytes)

  // ---------------------------------------------------------------------
  // The factory table
  // ---------------------------------------------------------------------

  /**
   * The `hex!` literal of each arm; none is a disabled factory's or the
   * vault's (distinctness between arms is `FactoryTableInverse`).
   */
  function FactoryAddress(f: Factory): (a: Address)
    ensures a != GEARBOX_LINEAR_POOL_FACTORY && a != MANAGED_POOL_FACTORY && a != VAULT_ADDRESS
  {
    match f
    case WeightedV1 => WEIGHTED_POOL_FACTORY_V1
    case WeightedV2 => WEIGHTED_POOL_FACTORY_V2
    case WeightedV3 => WEIGHTED_POOL_FACTORY_V3
    case WeightedV4 => WEIGHTED_POOL_FACTORY_V4
    case ComposableStable => COMPOSABLE_STABLE_POOL_FACTORY
    case Erc4626Linear => ERC4626_LINEAR_POOL_FACTORY
    case YearnLinear => YEARN_LINEAR_POOL_FACTORY
    case Weighted2Tokens => WEIGHTED_POOL_2_TOKENS_FACTORY
  }

  /** The arm of the `match` an address selects; `None` is the `_` arm. */
  function FactoryAt(a: Bytes): (r: Option<Factory>)
    ensures r.Some? ==> a == FactoryAddress(r.value)
  {
    if a == WEIGHTED_POOL_FACTORY_V1 then Some(WeightedV1)
    else if a == WEIGHTED_POOL_FACTORY_V2 then Some(WeightedV2)
    else if a == WEIGHTED_POOL_FACTORY_V3 then Some(WeightedV3)
    else if a == WEIGHTED_POOL_FACTORY_V4 then Some(WeightedV4)
    else if a == COMPOSABLE_STABLE_POOL_FACTORY then Some(ComposableStable)
    else if a == ERC4626_LINEAR_POOL_FACTORY then Some(Erc4626Linear)
    else if a == YEARN_LINEAR_POOL_FACTORY then Some(YearnLinear)
    else if a == WEIGHTED_POOL_2_TOKENS_FACTORY then Some(Weighted2Tokens)
    else None
  }

  /** The `Create` schema of each factory's ABI module. */
  predicate Fits(f: Factory, c: CreateCall) {
    match f
    case WeightedV1 | Weighted2Tokens => c.WeightedV1Create?
    case WeightedV2 | WeightedV3 | WeightedV4 => c.WeightedCreate?
    case ComposableStable => c.ComposableStableCreate?
    case Erc4626Linear | YearnLinear => c.LinearCreate?
  }

  /** `abi::<factory>::functions::Create::match_and_decode(call)`. */
  function DecodeCreate(dec: Decoders, f: Factory, call: Call): (r: Option<CreateCall>)
    ensures r.Some? ==> Fits(f, r.value)
  {
    match f
    case WeightedV1 => dec.weightedV1Create(call)
    case WeightedV2 => dec.weightedV2Create(call)
    case WeightedV3 => dec.weightedV3Create(call)
    case WeightedV4 => dec.weightedV4Create(call)
    case ComposableStable => dec.composableStableCreate(call)
    case Erc4626Linear => dec.erc4626LinearCreate(call)
    case YearnLinear => dec.yearnLinearCreate(call)
    case Weighted2Tokens => dec.weighted2TokensCreate(call)
  }

  /** The `pool_type` attribute of each factory. */
  function PoolTypeName(f: Factory): (name: string)
    ensures IsAscii(name)
  {
    match f
    case WeightedV1 => WEIGHTED_V1_NAME
    case WeightedV2 => WEIGHTED_V2_NAME
    case WeightedV3 => WEIGHTED_V3_NAME
    case WeightedV4 => WEIGHTED_V4_NAME
    case ComposableStable => COMPOSABLE_STABLE_NAME
    case Erc4626Linear => ERC4626_LINEAR_NAME
    case YearnLinear => YEARN_LINEAR_NAME
    case Weighted2Tokens => WEIGHTED_2_TOKENS_NAME
  }

  /** A component's `pool_type` identifies the factory that created it. */
  lemma PoolTypeNameInjective(f: Factory, g: Factory)
    ensures PoolTypeName(f) == PoolTypeName(g) <==> f == g
  {
  }

  /**
   * Factories whose call does not carry the vault's final token list: their
   * tokens come from the vault's `TokensRegistered` event.
   */
  predicate ReadsTokensRegistered(f: Factory) {
    f.ComposableStable? || f.Erc4626Linear? || f.YearnLinear?
  }

  // ---------------------------------------------------------------------
  // The vault scans (`get_pool_registered`, `get_token_registered`)
  // ---------------------------------------------------------------------

  /** A log the scans keep: emitted by the vault, decoded by `decode`, and accepted by `wanted`. */
  predicate Selects<E>(entry: LogWithCall, decode: Log -> Option<E>, wanted: E -> bool) {
    entry.log.address == VAULT_ADDRESS && decode(entry.log).Some? && wanted(decode(entry.log).value)
  }

  /** Index `i` holds the first log the scan keeps. */
  ghost predicate FirstSelected<E>(logs: seq<LogWithCall>, i: int, decode: Log -> Option<E>, wanted: E -> bool) {
    0 <= i < |logs| && Selects(logs[i], decode, wanted) &&
    forall j :: 0 <= j < i ==> !Selects(logs[j], decode, wanted)
  }

  /**
   * `logs.filter(from vault).filter_map(decode).find(wanted)`: the decoded
   * event of the first kept log, or `None` when no log is kept.
   */
  function FirstVaultEvent<E(==)>(logs: seq<LogWithCall>, decode: Log -> Option<E>, wanted: E -> bool)
    : (r: Option<E>)
    ensures r.None? <==> forall i :: 0 <= i < |logs| ==> !Selects(logs[i], decode, wanted)
    ensures r.Some? ==>
      exists i :: FirstSelected(logs, i, decode, wanted) && decode(logs[i].log) == r
  {
    if logs == [] then None
    else if Selects(logs[0], decode, wanted) then
      assert FirstSelected(logs, 0, decode, wanted);
      decode(logs[0].log)
    else
      var r := FirstVaultEvent(logs[1..], decode, wanted);
      assert forall i :: 1 <= i < |logs| ==> logs[i] == logs[1..][i - 1];
      assert r.Some? ==> exists i :: FirstSelected(logs, i, decode, wanted) && decode(logs[i].log) == r by {
        if r.Some? {
          var k :| FirstSelected(logs[1..], k, decode, wanted) && decode(logs[1..][k].log) == r;
          assert FirstSelected(logs, k + 1, decode, wanted);
        }
      }
      r
  }

  function PoolIs(pool: Bytes): PoolRegistered -> bool {
    (e: PoolRegistered) => e.poolAddress == pool
  }

  function PoolIdIs(poolId: Bytes): TokensRegistered -> bool {
    (e: TokensRegistered) => e.poolId == poolId
  }

  /** Index `i` of the transaction is the first vault `PoolRegistered` naming `pool`. */
  ghost predicate FirstPoolRegisteredAt(dec: Decoders, tx: TransactionTrace, pool: Bytes, i: int) {
    FirstSelected(tx.logsWithCalls, i, dec.poolRegistered, PoolIs(pool))
  }

  /** Index `i` of the transaction is the first vault `TokensRegistered` for `poolId`. */
  ghost predicate FirstTokensRegisteredAt(dec: Decoders, tx: TransactionTrace, poolId: Bytes, i: int) {
    FirstSelected(tx.logsWithCalls, i, dec.tokensRegistered, PoolIdIs(poolId))
  }

  /** Some vault log of the transaction registers `pool`. */
  ghost predicate PoolIsRegistered(dec: Decoders, tx: TransactionTrace, pool: Bytes) {
    exists i :: 0 <= i < |tx.logsWithCalls| && Selects(tx.logsWithCalls[i], dec.poolRegistered, PoolIs(pool))
  }

  /** `get_pool_registered`; the unwrap panic is `Err`. */
  function GetPoolRegistered(dec: Decoders, tx: TransactionTrace, pool: Bytes)
    : (r: Result<PoolRegistered, Panic>)
    ensures r.Err? <==> !PoolIsRegistered(dec, tx, pool)
    ensures r.Err? ==> r.error == PoolNotRegistered(pool)
    ensures r.Ok? ==> r.value.poolAddress == pool
    ensures r.Ok? ==>
      exists i :: FirstPoolRegisteredAt(dec, tx, pool, i) &&
                  dec.poolRegistered(tx.logsWithCalls[i].log) == Some(r.value)
  {
    match FirstVaultEvent(tx.logsWithCalls, dec.poolRegistered, PoolIs(pool))
    case None => Err(PoolNotRegistered(pool))
    case Some(e) => Ok(e)
  }

  /** Some vault log of the transaction registers tokens for `poolId`. */
  ghost predicate TokensAreRegistered(dec: Decoders, tx: TransactionTrace, poolId: Bytes) {
    exists i :: 0 <= i < |tx.logsWithCalls| && Selects(tx.logsWithCalls[i], dec.tokensRegistered, PoolIdIs(poolId))
  }

  /** `get_token_registered`; the unwrap panic is `Err`. */
  function GetTokenRegistered(dec: Decoders, tx: TransactionTrace, poolId: Bytes)
    : (r: Result<TokensRegistered, Panic>)
    ensures r.Err? <==> !TokensAreRegistered(dec, tx, poolId)
    ensures r.Err? ==> r.error == TokensNotRegistered(poolId)
    ensures r.Ok? ==> r.value.poolId == poolId
    ensures r.Ok? ==>
      exists i :: FirstTokensRegisteredAt(dec, tx, poolId, i) &&
                  dec.tokensRegistered(tx.logsWithCalls[i].log) == Some(r.value)
  {
    match FirstVaultEvent(tx.logsWithCalls, dec.tokensRegistered, PoolIdIs(poolId))
    case None => Err(TokensNotRegistered(poolId))
    case Some(e) => Ok(e)
  }

  // ---------------------------------------------------------------------
  // Building the component
  // ---------------------------------------------------------------------

  /** `format!("0x{}", hex::encode(pool_id))`. */
  function ComponentId(poolId: Bytes): (id: string)
    ensures |id| == 2 + 2 * |poolId| && id[..2] == "0x"
    ensures forall i :: 2 <= i < |id| ==> Hex.IsLowerHexDigit(id[i])
    ensures Hex.Decode(id[2..]) == Some(poolId)
  {
    Hex.DecodeEncode(poolId);
    assert ("0x" + Hex.Encode(poolId))[2..] == Hex.Encode(poolId);
    "0x" + Hex.Encode(poolId)
  }

  /**
   * The component's tokens: the call's list for the weighted factories; for
   * the others the list of the first vault `TokensRegistered` for `poolId`,
   * and a panic when there is none.
   */
  function ComponentTokens(dec: Decoders, tx: TransactionTrace, f: Factory, create: CreateCall, poolId: Bytes)
    : (r: Result<seq<Address>, Panic>)
    requires Fits(f, create)
    ensures !ReadsTokensRegistered(f) ==> !create.LinearCreate? && r == Ok(create.tokens)
    ensures ReadsTokensRegistered(f) ==> (r.Err? <==> !TokensAreRegistered(dec, tx, poolId))
    ensures ReadsTokensRegistered(f) && r.Ok? ==>
      exists i :: FirstTokensRegisteredAt(dec, tx, poolId, i) &&
                  r.value == dec.tokensRegistered(tx.logsWithCalls[i].log).value.tokens
  {
    if ReadsTokensRegistered(f) then
      var registered :- GetTokenRegistered(dec, tx, poolId);
      Ok(registered.tokens)
    else
      Ok(create.tokens)
  }

  /** No element occurs twice. */
  ghost predicate Distinct<T>(s: seq<T>) {
    forall i, j :: 0 <= i < j < |s| ==> s[i] != s[j]
  }

  /** The names of a list of attributes, in order. */
  function NamesOf(attrs: seq<Attribute>): seq<string> {
    seq(|attrs|, i requires 0 <= i < |attrs| => attrs[i].0)
  }

  /** The names of each arm's attributes, in order. */
  function AttributeNames(f: Factory): (names: seq<string>)
    ensures Distinct(names)
  {
    match f
    case WeightedV1 => ["pool_type", "normalized_weights", "fee", "manual_updates"]
    case WeightedV2 | WeightedV3 | WeightedV4 =>
      ["pool_type", "normalized_weights", "rate_providers", "fee", "manual_updates"]
    case ComposableStable => ["pool_type", "bpt", "fee", "rate_providers", "manual_updates"]
    case Erc4626Linear | YearnLinear =>
      ["pool_type", "upper_target", "manual_updates", "bpt", "main_token", "wrapped_token", "fee"]
    case Weighted2Tokens => ["pool_type", "weights", "fee", "manual_updates"]
  }

  /**
   * Each arm's `with_attributes` list, in the source's order: its names are
   * exactly `AttributeNames(f)`, one attribute per name.
   */
  function Attributes(ser: Serializers, f: Factory, create: CreateCall, pool: Address): (attrs: seq<Attribute>)
    requires Fits(f, create)
    ensures NamesOf(attrs) == AttributeNames(f)
  {
    var poolType: Attribute := ("pool_type", AsciiBytes(PoolTypeName(f)));
    var fee: Attribute := ("fee", SignedBytes.ToSignedBytesBe(create.swapFeePercentage));
    var manualUpdates: Attribute := ("manual_updates", [1]);
    match f
    case WeightedV1 =>
      [poolType, ("normalized_weights", ser.bigIntList(create.weights)), fee, manualUpdates]
    case WeightedV2 | WeightedV3 | WeightedV4 =>
      [poolType,
       ("normalized_weights", ser.bigIntList(create.normalizedWeights)),
       ("rate_providers", ser.addressList(create.rateProviders)),
       fee, manualUpdates]
    case ComposableStable =>
      [poolType, ("bpt", pool), fee, ("rate_providers", ser.addressList(create.rateProviders)), manualUpdates]
    case Erc4626Linear | YearnLinear =>
      [poolType,
       ("upper_target", SignedBytes.ToSignedBytesBe(create.upperTarget)),
       manualUpdates,
       ("bpt", pool),
       ("main_token", create.mainToken),
       ("wrapped_token", create.wrappedToken),
       fee]
    case Weighted2Tokens =>
      [poolType, ("weights", ser.bigIntList(create.weights)), fee, manualUpdates]
  }

  /**
   * What every produced component satisfies: its contracts are a pool and
   * the vault, its id is the hex pool id of the first vault registration of
   * that pool in the transaction, and it is a manually updated VM pool.
   */
  ghost predicate IsRegisteredComponent(dec: Decoders, tx: TransactionTrace, c: ProtocolComponent) {
    |c.contracts| == 2 && |c.contracts[0]| == 20 && c.contracts[1] == VAULT_ADDRESS &&
    (exists i :: FirstPoolRegisteredAt(dec, tx, c.contracts[0], i) &&
       c.id == ComponentId(dec.poolRegistered(tx.logsWithCalls[i].log).value.poolId)) &&
    |c.id| == 66 &&
    ("manual_updates", [1]) in c.attributes &&
    c.protocolType == PROTOCOL_TYPE && c.implementationType == Vm
  }

  /**
   * `address_map`. `Ok(None)`: not a supported factory, or the call or log
   * is not that factory's `Create`/`PoolCreated`. `Err`: a recognised
   * creation whose vault registration is missing from the transaction.
   */
  function AddressMap(dec: Decoders, ser: Serializers, poolFactoryAddress: Bytes,
                      log: Log, call: Call, tx: TransactionTrace)
    : (r: Result<Option<ProtocolComponent>, Panic>)
    ensures FactoryAt(poolFactoryAddress).None? ==> r == Ok(None)
    ensures r.Ok? && r.value.Some? ==> IsRegisteredComponent(dec, tx, r.value.value)
  {
    match FactoryAt(poolFactoryAddress)
    case None => Ok(None)
    case Some(f) =>
      match (DecodeCreate(dec, f, call), dec.poolCreated(f, log))
      case (Some(create), Some(created)) =>
        var registered :- GetPoolRegistered(dec, tx, created.pool);
        var tokens :- ComponentTokens(dec, tx, f, create, registered.poolId);
        Ok(Some(ProtocolComponent(
          ComponentId(registered.poolId),
          [created.pool, VAULT_ADDRESS],
          tokens,
          Attributes(ser, f, create, created.pool),
          PROTOCOL_TYPE,
          Vm)))
      case _ => Ok(None)
  }
}
