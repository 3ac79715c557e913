/** What `address_map` promises, stated over every decoder and serializer. */
module PoolFactoryProperties {
  import opened Wrappers
  import opened Octets
  import opened Chain
  import opened BalancerAbi
  import opened Tycho
  import opened PoolFactories
  import Hex
  import SignedBytes

  /** The pool id carried by log `i`, when it decodes as `PoolRegistered`. */
  ghost function RegisteredIdAt(dec: Decoders, tx: TransactionTrace, i: int): Bytes
    requires 0 <= i < |tx.logsWithCalls| && dec.poolRegistered(tx.logsWithCalls[i].log).Some?
  {
    dec.poolRegistered(tx.logsWithCalls[i].log).value.poolId
  }

  // ---------------------------------------------------------------------
  // Dispatch
  // ---------------------------------------------------------------------

  /** Each factory address selects its own arm and no other. */
  lemma FactoryTableInverse(f: Factory, a: Bytes)
    ensures FactoryAt(FactoryAddress(f)) == Some(f)
    ensures FactoryAt(a) == Some(f) <==> a == FactoryAddress(f)
  {
  }

  /** An address outside the table is "not recognised", whatever the call, log and transaction. */
  lemma UnknownFactoryIsNone(dec: Decoders, ser: Serializers, a: Bytes, log: Log, call: Call, tx: TransactionTrace)
    requires forall f: Factory :: a != FactoryAddress(f)
    ensures AddressMap(dec, ser, a, log, call, tx) == Ok(None)
  {
  }

  /** The commented-out Gearbox linear and managed pool factories are not part of the table. */
  lemma UnsupportedFactoriesAreNone(dec: Decoders, ser: Serializers, log: Log, call: Call, tx: TransactionTrace)
    ensures AddressMap(dec, ser, GEARBOX_LINEAR_POOL_FACTORY, log, call, tx) == Ok(None)
    ensures AddressMap(dec, ser, MANAGED_POOL_FACTORY, log, call, tx) == Ok(None)
  {
  }

  /**
   * A recognised factory whose call or log does not decode yields "not
   * recognised" for every transaction: the vault is never searched, so no
   * panic is possible.
   */
  lemma DecodeFailureIsNone(dec: Decoders, ser: Serializers, f: Factory, log: Log, call: Call, tx: TransactionTrace)
    requires DecodeCreate(dec, f, call).None? || dec.poolCreated(f, log).None?
    ensures AddressMap(dec, ser, FactoryAddress(f), log, call, tx) == Ok(None)
  {
    FactoryTableInverse(f, FactoryAddress(f));
  }

  /**
   * Once both decodes succeed the result is never "not recognised": it is a
   * component, or a panic exactly when the pool's registration (or, for the
   * composable and linear factories, its token registration) is missing.
   */
  lemma PanicsExactlyWhenUnregistered(dec: Decoders, ser: Serializers, f: Factory, log: Log, call: Call,
                                      tx: TransactionTrace, created: PoolCreated)
    requires DecodeCreate(dec, f, call).Some? && dec.poolCreated(f, log) == Some(created)
    ensures AddressMap(dec, ser, FactoryAddress(f), log, call, tx) != Ok(None)
    ensures !PoolIsRegistered(dec, tx, created.pool) ==>
      AddressMap(dec, ser, FactoryAddress(f), log, call, tx) == Err(PoolNotRegistered(created.pool))
    ensures forall i :: FirstPoolRegisteredAt(dec, tx, created.pool, i) ==>
      var id := RegisteredIdAt(dec, tx, i);
      (AddressMap(dec, ser, FactoryAddress(f), log, call, tx).Err? <==>
         ReadsTokensRegistered(f) && !TokensAreRegistered(dec, tx, id))
  {
    FactoryTableInverse(f, FactoryAddress(f));
    var create := DecodeCreate(dec, f, call).value;
    var r := AddressMap(dec, ser, FactoryAddress(f), log, call, tx);
    var registered := GetPoolRegistered(dec, tx, created.pool);
    if registered.Ok? {
      var id := registered.value.poolId;
      var tokens := ComponentTokens(dec, tx, f, create, id);
      assert r == if tokens.Err? then Err(tokens.error) else Ok(Some(ProtocolComponent(
        ComponentId(id), [created.pool, VAULT_ADDRESS], tokens.value,
        Attributes(ser, f, create, created.pool), PROTOCOL_TYPE, Vm)));
      forall i | FirstPoolRegisteredAt(dec, tx, created.pool, i)
        ensures r.Err? <==> ReadsTokensRegistered(f) && !TokensAreRegistered(dec, tx, RegisteredIdAt(dec, tx, i))
      {
        ScanReturnsFirstSelected(tx.logsWithCalls, dec.poolRegistered, PoolIs(created.pool), i);
      }
    }
  }

  /** The scan returns the event of the first kept log. */
  lemma ScanReturnsFirstSelected<E>(logs: seq<LogWithCall>, decode: Log -> Option<E>, wanted: E -> bool, i: int)
    requires FirstSelected(logs, i, decode, wanted)
    ensures FirstVaultEvent(logs, decode, wanted) == decode(logs[i].log)
  {
  }

  // ---------------------------------------------------------------------
  // The vault scans
  // ---------------------------------------------------------------------

  /** A log not emitted by the vault, wherever it is inserted, does not change what a scan finds. */
  lemma {:induction false} NonVaultLogIgnored<E>(logs: seq<LogWithCall>, decode: Log -> Option<E>,
                                                  wanted: E -> bool, k: int, entry: LogWithCall)
    requires 0 <= k <= |logs| && entry.log.address != VAULT_ADDRESS
    ensures FirstVaultEvent(logs[..k] + [entry] + logs[k..], decode, wanted) == FirstVaultEvent(logs, decode, wanted)
  {
    var longer := logs[..k] + [entry] + logs[k..];
    assert forall j :: 0 <= j < k ==> longer[j] == logs[j];
    assert forall j :: k <= j < |logs| ==> longer[j + 1] == logs[j];
    assert !Selects(longer[k], decode, wanted);
    var r := FirstVaultEvent(logs, decode, wanted);
    if r.Some? {
      var i :| FirstSelected(logs, i, decode, wanted) && decode(logs[i].log) == r;
      var i' := if i < k then i else i + 1;
      assert FirstSelected(longer, i', decode, wanted) by {
        forall j | 0 <= j < i' ensures !Selects(longer[j], decode, wanted) {
          if j < k {
          } else if j > k {
            assert !Selects(logs[j - 1], decode, wanted);
          }
        }
      }
      ScanReturnsFirstSelected(longer, decode, wanted, i');
    } else {
      forall j | 0 <= j < |longer| ensures !Selects(longer[j], decode, wanted) {
        if j < k {
          assert !Selects(logs[j], decode, wanted);
        } else if j > k {
          assert !Selects(logs[j - 1], decode, wanted);
        }
      }
    }
  }

  // ---------------------------------------------------------------------
  // The produced component
  // ---------------------------------------------------------------------

  /**
   * How a produced component is assembled from the two decodes: its
   * contracts are exactly the new pool and the vault, in that order.
   */
  lemma ComponentShape(dec: Decoders, ser: Serializers, f: Factory, log: Log, call: Call,
                       tx: TransactionTrace, c: ProtocolComponent)
    requires AddressMap(dec, ser, FactoryAddress(f), log, call, tx) == Ok(Some(c))
    ensures DecodeCreate(dec, f, call).Some? && dec.poolCreated(f, log).Some?
    ensures c.contracts == [dec.poolCreated(f, log).value.pool, VAULT_ADDRESS]
    ensures c.attributes == Attributes(ser, f, DecodeCreate(dec, f, call).value, dec.poolCreated(f, log).value.pool)
    ensures c.protocolType == PROTOCOL_TYPE && c.implementationType == Vm
  {
    FactoryTableInverse(f, FactoryAddress(f));
  }

  /**
   * The id is "0x" and the hex of the pool id of the first vault
   * `PoolRegistered` naming the new pool; it is never the pool address.
   */
  lemma IdIsRegisteredPoolId(dec: Decoders, ser: Serializers, f: Factory, log: Log, call: Call,
                             tx: TransactionTrace, c: ProtocolComponent)
    requires AddressMap(dec, ser, FactoryAddress(f), log, call, tx) == Ok(Some(c))
    ensures dec.poolCreated(f, log).Some?
    ensures exists i :: FirstPoolRegisteredAt(dec, tx, dec.poolCreated(f, log).value.pool, i) &&
                        c.id == "0x" + Hex.Encode(RegisteredIdAt(dec, tx, i))
    ensures |c.id| == 66 && Hex.Decode(c.id[2..]).Some?
    ensures c.id != "0x" + Hex.Encode(dec.poolCreated(f, log).value.pool)
    ensures c.id != Hex.Encode(dec.poolCreated(f, log).value.pool)
  {
    ComponentShape(dec, ser, f, log, call, tx, c);
    var i :| FirstPoolRegisteredAt(dec, tx, c.contracts[0], i) &&
             c.id == ComponentId(RegisteredIdAt(dec, tx, i));
  }

  /** Weighted v1-v4 and the two-token factory list the call's tokens, in call order. */
  lemma TokensFromCall(dec: Decoders, ser: Serializers, f: Factory, log: Log, call: Call,
                       tx: TransactionTrace, c: ProtocolComponent)
    requires AddressMap(dec, ser, FactoryAddress(f), log, call, tx) == Ok(Some(c))
    requires !ReadsTokensRegistered(f)
    ensures DecodeCreate(dec, f, call).Some? && !DecodeCreate(dec, f, call).value.LinearCreate?
    ensures c.tokens == DecodeCreate(dec, f, call).value.tokens
  {
    FactoryTableInverse(f, FactoryAddress(f));
  }

  /**
   * Composable-stable and both linear factories list the tokens of the first
   * vault `TokensRegistered` for the registered pool id, whatever the call says.
   */
  lemma TokensFromVault(dec: Decoders, ser: Serializers, f: Factory, log: Log, call: Call,
                        tx: TransactionTrace, c: ProtocolComponent)
    requires AddressMap(dec, ser, FactoryAddress(f), log, call, tx) == Ok(Some(c))
    requires ReadsTokensRegistered(f)
    ensures dec.poolCreated(f, log).Some?
    ensures exists i, j ::
      FirstPoolRegisteredAt(dec, tx, dec.poolCreated(f, log).value.pool, i) &&
      FirstTokensRegisteredAt(dec, tx, RegisteredIdAt(dec, tx, i), j) &&
      c.tokens == dec.tokensRegistered(tx.logsWithCalls[j].log).value.tokens
  {
    FactoryTableInverse(f, FactoryAddress(f));
    var create := DecodeCreate(dec, f, call).value;
    var pool := dec.poolCreated(f, log).value.pool;
    var registered := GetPoolRegistered(dec, tx, pool).value;
    var i :| FirstPoolRegisteredAt(dec, tx, pool, i) && dec.poolRegistered(tx.logsWithCalls[i].log) == Some(registered);
    var tokens := GetTokenRegistered(dec, tx, registered.poolId).value;
    var j :| FirstTokensRegisteredAt(dec, tx, registered.poolId, j) &&
             dec.tokensRegistered(tx.logsWithCalls[j].log) == Some(tokens);
    assert ComponentTokens(dec, tx, f, create, registered.poolId) == Ok(tokens.tokens);
    assert c.tokens == tokens.tokens;
    assert RegisteredIdAt(dec, tx, i) == registered.poolId;
  }

  /**
   * Every component carries its factory's `pool_type`, the swap fee as
   * signed big-endian bytes and `manual_updates = [1]`, under distinct
   * names, and is a `balancer_v2_pool` of the VM implementation type.
   */
  lemma CommonAttributes(dec: Decoders, ser: Serializers, f: Factory, log: Log, call: Call,
                         tx: TransactionTrace, c: ProtocolComponent)
    requires AddressMap(dec, ser, FactoryAddress(f), log, call, tx) == Ok(Some(c))
    ensures DecodeCreate(dec, f, call).Some?
    ensures ("pool_type", AsciiBytes(PoolTypeName(f))) in c.attributes
    ensures ("fee", SignedBytes.ToSignedBytesBe(DecodeCreate(dec, f, call).value.swapFeePercentage)) in c.attributes
    ensures ("manual_updates", [1]) in c.attributes
    ensures NamesOf(c.attributes) == AttributeNames(f) && Distinct(NamesOf(c.attributes))
    ensures c.protocolType == "balancer_v2_pool" && c.implementationType == Vm
  {
    ComponentShape(dec, ser, f, log, call, tx, c);
    var create, pool := DecodeCreate(dec, f, call).value, dec.poolCreated(f, log).value.pool;
    AttributeTable(ser, f, create, pool);
    AttributeNamesDistinct(ser, f, create, pool);
    assert c.attributes == Attributes(ser, f, create, pool);
  }

  /** The weight and rate-provider lists passed to the JSON serializers. */
  lemma WeightAttributes(dec: Decoders, ser: Serializers, f: Factory, log: Log, call: Call,
                         tx: TransactionTrace, c: ProtocolComponent)
    requires AddressMap(dec, ser, FactoryAddress(f), log, call, tx) == Ok(Some(c))
    ensures DecodeCreate(dec, f, call).Some?
    ensures var create := DecodeCreate(dec, f, call).value;
      && (f == WeightedV1 ==> ("normalized_weights", ser.bigIntList(create.weights)) in c.attributes)
      && (f == Weighted2Tokens ==> ("weights", ser.bigIntList(create.weights)) in c.attributes)
      && (f in {WeightedV2, WeightedV3, WeightedV4} ==>
            ("normalized_weights", ser.bigIntList(create.normalizedWeights)) in c.attributes &&
            ("rate_providers", ser.addressList(create.rateProviders)) in c.attributes)
      && (f == ComposableStable ==> ("rate_providers", ser.addressList(create.rateProviders)) in c.attributes)
  {
    ComponentShape(dec, ser, f, log, call, tx, c);
    var create, pool := DecodeCreate(dec, f, call).value, dec.poolCreated(f, log).value.pool;
    AttributeTable(ser, f, create, pool);
    assert c.attributes == Attributes(ser, f, create, pool);
  }

  /**
   * Composable-stable and linear pools name the pool itself as `bpt`; linear
   * pools copy `main_token`, `wrapped_token` and `upper_target` from the call.
   */
  lemma PoolTokenAttributes(dec: Decoders, ser: Serializers, f: Factory, log: Log, call: Call,
                            tx: TransactionTrace, c: ProtocolComponent)
    requires AddressMap(dec, ser, FactoryAddress(f), log, call, tx) == Ok(Some(c))
    requires ReadsTokensRegistered(f)
    ensures DecodeCreate(dec, f, call).Some? && dec.poolCreated(f, log).Some?
    ensures ("bpt", dec.poolCreated(f, log).value.pool) in c.attributes
    ensures var create := DecodeCreate(dec, f, call).value;
      f != ComposableStable ==>
        && ("main_token", create.mainToken) in c.attributes
        && ("wrapped_token", create.wrappedToken) in c.attributes
        && ("upper_target", SignedBytes.ToSignedBytesBe(create.upperTarget)) in c.attributes
  {
    ComponentShape(dec, ser, f, log, call, tx, c);
    var create, pool := DecodeCreate(dec, f, call).value, dec.poolCreated(f, log).value.pool;
    AttributeTable(ser, f, create, pool);
    assert c.attributes == Attributes(ser, f, create, pool);
  }

  // ---------------------------------------------------------------------
  // Two worked transactions
  // ---------------------------------------------------------------------

  /**
   * A weighted v1 creation of pool `p` over `[t1, t2]`, registered by the
   * vault's only log under `poolId`: the component is built from the call's
   * tokens and the registered id.
   */
  lemma WeightedV1Scenario(dec: Decoders, ser: Serializers, log: Log, call: Call, vaultLog: Log, vaultCall: Call,
                           t1: Address, t2: Address, weights: seq<int>, fee: int, p: Address, poolId: Bytes32)
    requires dec.weightedV1Create(call) == Some(WeightedV1Create([t1, t2], weights, fee))
    requires dec.poolCreated(WeightedV1, log) == Some(PoolCreated(p))
    requires vaultLog.address == VAULT_ADDRESS && dec.poolRegistered(vaultLog) == Some(PoolRegistered(poolId, p, 0))
    ensures AddressMap(dec, ser, WEIGHTED_POOL_FACTORY_V1, log, call,
                       TransactionTrace([LogWithCall(vaultLog, vaultCall)])) ==
      Ok(Some(ProtocolComponent(
        "0x" + Hex.Encode(poolId),
        [p, VAULT_ADDRESS],
        [t1, t2],
        [("pool_type", AsciiBytes("WeightedPoolFactoryV1")),
         ("normalized_weights", ser.bigIntList(weights)),
         ("fee", SignedBytes.ToSignedBytesBe(fee)),
         ("manual_updates", [1])],
        "balancer_v2_pool",
        Vm)))
  {
    var tx := TransactionTrace([LogWithCall(vaultLog, vaultCall)]);
    assert FirstSelected(tx.logsWithCalls, 0, dec.poolRegistered, PoolIs(p));
    ScanReturnsFirstSelected(tx.logsWithCalls, dec.poolRegistered, PoolIs(p), 0);
  }

  /**
   * A composable-stable creation whose call lists `callTokens` while the
   * vault registers `vaultTokens`: the component lists `vaultTokens`.
   */
  lemma ComposableStableScenario(dec: Decoders, ser: Serializers, log: Log, call: Call,
                                 registration: LogWithCall, tokenRegistration: LogWithCall,
                                 callTokens: seq<Address>, vaultTokens: seq<Address>, p: Address, poolId: Bytes32)
    requires dec.composableStableCreate(call).Some? && dec.composableStableCreate(call).value.tokens == callTokens
    requires dec.poolCreated(ComposableStable, log) == Some(PoolCreated(p))
    requires registration.log.address == VAULT_ADDRESS && tokenRegistration.log.address == VAULT_ADDRESS
    requires dec.poolRegistered(registration.log) == Some(PoolRegistered(poolId, p, 0))
    requires dec.tokensRegistered(registration.log).None?
    requires dec.tokensRegistered(tokenRegistration.log) == Some(TokensRegistered(poolId, vaultTokens, []))
    ensures AddressMap(dec, ser, COMPOSABLE_STABLE_POOL_FACTORY, log, call,
                       TransactionTrace([registration, tokenRegistration])).Ok?
    ensures var r := AddressMap(dec, ser, COMPOSABLE_STABLE_POOL_FACTORY, log, call,
                                TransactionTrace([registration, tokenRegistration]));
      r.value.Some? && r.value.value.tokens == vaultTokens && r.value.value.id == "0x" + Hex.Encode(poolId)
  {
    var logs := [registration, tokenRegistration];
    assert FirstSelected(logs, 0, dec.poolRegistered, PoolIs(p));
    ScanReturnsFirstSelected(logs, dec.poolRegistered, PoolIs(p), 0);
    assert FirstSelected(logs, 1, dec.tokensRegistered, PoolIdIs(poolId));
    ScanReturnsFirstSelected(logs, dec.tokensRegistered, PoolIdIs(poolId), 1);
  }

  /** The attributes every arm lists: its `pool_type`, the swap fee and `manual_updates = [1]`. */
  ghost predicate HasCommonAttributes(attrs: seq<Attribute>, f: Factory, create: CreateCall) {
    && ("pool_type", AsciiBytes(PoolTypeName(f))) in attrs
    && ("fee", SignedBytes.ToSignedBytesBe(create.swapFeePercentage)) in attrs
    && ("manual_updates", [1]) in attrs
  }

  /** The attribute lists of the eight arms, read off one by one. */
  lemma AttributeTable(ser: Serializers, f: Factory, create: CreateCall, pool: Address)
    requires Fits(f, create)
    ensures var attrs := Attributes(ser, f, create, pool);
      && HasCommonAttributes(attrs, f, create)
      && (f == WeightedV1 ==> ("normalized_weights", ser.bigIntList(create.weights)) in attrs)
      && (f == Weighted2Tokens ==> ("weights", ser.bigIntList(create.weights)) in attrs)
      && (f in {WeightedV2, WeightedV3, WeightedV4} ==>
            ("normalized_weights", ser.bigIntList(create.normalizedWeights)) in attrs &&
            ("rate_providers", ser.addressList(create.rateProviders)) in attrs)
      && (f == ComposableStable ==> ("rate_providers", ser.addressList(create.rateProviders)) in attrs)
      && (ReadsTokensRegistered(f) ==> ("bpt", pool) in attrs)
      && (f in {Erc4626Linear, YearnLinear} ==>
            ("main_token", create.mainToken) in attrs &&
            ("wrapped_token", create.wrappedToken) in attrs &&
            ("upper_target", SignedBytes.ToSignedBytesBe(create.upperTarget)) in attrs)
  {
    match f
    case WeightedV1 | Weighted2Tokens => TwoListArmAttributes(ser, f, create, pool);
    case WeightedV2 | WeightedV3 | WeightedV4 => WeightedArmAttributes(ser, f, create, pool);
    case ComposableStable => ComposableStableArmAttributes(ser, create, pool);
    case Erc4626Linear | YearnLinear => LinearArmAttributes(ser, f, create, pool);
  }

  lemma TwoListArmAttributes(ser: Serializers, f: Factory, create: CreateCall, pool: Address)
    requires f == WeightedV1 || f == Weighted2Tokens
    requires Fits(f, create)
    ensures var attrs := Attributes(ser, f, create, pool);
      && HasCommonAttributes(attrs, f, create)
      && (if f == WeightedV1 then "normalized_weights" else "weights", ser.bigIntList(create.weights)) in attrs
  {
    var attrs := Attributes(ser, f, create, pool);
    assert attrs[0].1 == AsciiBytes(PoolTypeName(f));
    assert attrs[1].1 == ser.bigIntList(create.weights);
  }

  lemma WeightedArmAttributes(ser: Serializers, f: Factory, create: CreateCall, pool: Address)
    requires f == WeightedV2 || f == WeightedV3 || f == WeightedV4
    requires Fits(f, create)
    ensures var attrs := Attributes(ser, f, create, pool);
      && HasCommonAttributes(attrs, f, create)
      && ("normalized_weights", ser.bigIntList(create.normalizedWeights)) in attrs
      && ("rate_providers", ser.addressList(create.rateProviders)) in attrs
  {
    var attrs := Attributes(ser, f, create, pool);
    assert attrs[0].1 == AsciiBytes(PoolTypeName(f));
  }

  lemma ComposableStableArmAttributes(ser: Serializers, create: CreateCall, pool: Address)
    requires Fits(ComposableStable, create)
    ensures var attrs := Attributes(ser, ComposableStable, create, pool);
      && HasCommonAttributes(attrs, ComposableStable, create)
      && ("bpt", pool) in attrs
      && ("rate_providers", ser.addressList(create.rateProviders)) in attrs
  {
  }

  lemma LinearArmAttributes(ser: Serializers, f: Factory, create: CreateCall, pool: Address)
    requires f == Erc4626Linear || f == YearnLinear
    requires Fits(f, create)
    ensures var attrs := Attributes(ser, f, create, pool);
      && HasCommonAttributes(attrs, f, create)
      && ("bpt", pool) in attrs
      && ("main_token", create.mainToken) in attrs
      && ("wrapped_token", create.wrappedToken) in attrs
      && ("upper_target", SignedBytes.ToSignedBytesBe(create.upperTarget)) in attrs
  {
    var attrs := Attributes(ser, f, create, pool);
    assert attrs[0].1 == AsciiBytes(PoolTypeName(f));
  }

  /**
   * Each arm's attribute list holds exactly the names of `AttributeNames`,
   * in that order, so no two attributes share a name and nothing else is there.
   */
  lemma AttributeNamesDistinct(ser: Serializers, f: Factory, create: CreateCall, pool: Address)
    requires Fits(f, create)
    ensures var attrs := Attributes(ser, f, create, pool);
      && NamesOf(attrs) == AttributeNames(f)
      && Distinct(NamesOf(attrs))
  {
  }
}
