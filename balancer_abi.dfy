/**
 * The decoded shapes of the Balancer V2 ABIs the dispatcher uses: the
 * factories' `Create` calls and `PoolCreated` events, and the vault's
 * `PoolRegistered` and `TokensRegistered` events. The decoders themselves
 * are generated code and are supplied as a `Decoders` record; everything
 * proved about the dispatcher holds for every choice of them.
 */
module BalancerAbi {
  import opened Wrappers
  import opened Chain

  /** The eight supported factories, one generated ABI module each. */
  datatype Factory =
    | WeightedV1
    | WeightedV2
    | WeightedV3
    | WeightedV4
    | ComposableStable
    | Erc4626Linear
    | YearnLinear
    | Weighted2Tokens

  /**
   * The fields of a decoded `Create` call that the dispatcher reads.
   * Uint256 arguments decode to `BigInt`, modelled as `int`.
   */
  datatype CreateCall =
      /** weighted_pool_factory_v1 and weighted_pool_tokens_factory */
    | WeightedV1Create(tokens: seq<Address>, weights: seq<int>, swapFeePercentage: int)
      /** weighted_pool_factory_v2, v3 and v4 */
    | WeightedCreate(tokens: seq<Address>, normalizedWeights: seq<int>,
                     rateProviders: seq<Address>, swapFeePercentage: int)
      /** composable_stable_pool_factory */
    | ComposableStableCreate(tokens: seq<Address>, rateProviders: seq<Address>, swapFeePercentage: int)
      /** erc_linear_pool_factory and yearn_linear_pool_factory */
    | LinearCreate(mainToken: Address, wrappedToken: Address, upperTarget: int, swapFeePercentage: int)

  type WeightedV1Args = c: CreateCall | c.WeightedV1Create? witness WeightedV1Create([], [], 0)
  type WeightedArgs = c: CreateCall | c.WeightedCreate? witness WeightedCreate([], [], [], 0)
  type ComposableStableArgs = c: CreateCall | c.ComposableStableCreate?
    witness ComposableStableCreate([], [], 0)
  type LinearArgs = c: CreateCall | c.LinearCreate?
    witness LinearCreate(seq(20, _ => 0), seq(20, _ => 0), 0, 0)

  /** A factory's `PoolCreated(pool)` event. */
  datatype PoolCreated = PoolCreated(pool: Address)

  /** The vault's `PoolRegistered(poolId, poolAddress, specialization)` event. */
  datatype PoolRegistered = PoolRegistered(poolId: Bytes32, poolAddress: Address, specialization: int)

  /** The vault's `TokensRegistered(poolId, tokens, assetManagers)` event. */
  datatype TokensRegistered = TokensRegistered(poolId: Bytes32, tokens: seq<Address>, assetManagers: seq<Address>)

  /**
   * The generated `match_and_decode` functions: `None` when the call or log
   * does not have the schema's selector or shape.
   */
  datatype Decoders = Decoders(
    weightedV1Create: Call -> Option<WeightedV1Args>,
    weightedV2Create: Call -> Option<WeightedArgs>,
    weightedV3Create: Call -> Option<WeightedArgs>,
    weightedV4Create: Call -> Option<WeightedArgs>,
    composableStableCreate: Call -> Option<ComposableStableArgs>,
    erc4626LinearCreate: Call -> Option<LinearArgs>,
    yearnLinearCreate: Call -> Option<LinearArgs>,
    weighted2TokensCreate: Call -> Option<WeightedV1Args>,
    poolCreated: (Factory, Log) -> Option<PoolCreated>,
    poolRegistered: Log -> Option<PoolRegistered>,
    tokensRegistered: Log -> Option<TokensRegistered>)
}
