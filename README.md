# Balancer V2 pool-factory dispatcher

This project models `address_map` from the Balancer V2 substreams module. It is the function that turns a Balancer V2
pool creation into a Tycho `ProtocolComponent`. It also models the two vault scans it relies on,
`get_pool_registered` and `get_token_registered`.

Given a factory address, a log, a call and the whole transaction trace, `address_map` works in four steps:

- It matches the address against eight hard-coded factories: weighted v1 to v4, composable-stable, ERC4626 linear,
  Yearn linear and the deprecated two-token weighted factory.
- It decodes that factory's `Create` call and `PoolCreated` log. If either fails to decode, the result is `None`.
- It finds the vault's `PoolRegistered` event for the new pool. For composable-stable and linear pools it also finds
  the vault's `TokensRegistered` event for that pool id. A missing event panics (`.unwrap()`).
- It builds the component:
  - the id is `"0x"` followed by the hex of the pool id;
  - the contracts are the pool and the vault;
  - the tokens come from the call or from the vault event;
  - the attributes depend on the factory;
  - the component is tagged `balancer_v2_pool`, implementation type VM.

Everything in the source is a pure expression, so the model is written as Dafny functions with lemmas about them:

- `wrappers.dfy`: `Option`, and `Result`, whose `Err` stands for a panic.
- `octets.dfy`: bytes as integers 0..255, and UTF-8/ASCII bytes of strings (`str::as_bytes`).
- `hex.dfy`: `hex::encode`, lower-case base16 (the alphabet of section 8 of RFC 4648), with its decoder and a
  round-trip proof.
- `signed_bytes.dfy`: `BigInt::to_signed_bytes_be`, the shortest big-endian two's-complement encoding, with its
  decoder, a round-trip proof and a proof that it is minimal.
- `chain.dfy`: addresses, logs, calls and the transaction as a sequence of `(log, call)` pairs.
- `balancer_abi.dfy`: the decoded `Create`, `PoolCreated`, `PoolRegistered` and `TokensRegistered` shapes, and the
  `Decoders` record that stands for the generated `match_and_decode` functions.
- `tycho.dfy`: `ProtocolComponent` and the JSON list serializers, given as a `Serializers` record.
- `pool_factories.dfy`: the factory table, the vault scans and `AddressMap`.
- `pool_factory_properties.dfy`: what `AddressMap` promises.

The decoders and the serializers are foreign code. They are parameters, so every property below holds for every
choice of them.

The source repeats one pipeline in eight copied arms. The model writes that pipeline once (`AddressMap`) and
reads the parts that differ between arms from a per-factory table:

- `DecodeCreate`: which `Create` decoder the factory uses;
- `PoolTypeName`: its `pool_type` string;
- `ReadsTokensRegistered`: where its tokens come from;
- `Attributes`: its attribute list, in the source's order.

`WeightedV1Scenario` spells out one complete arm's output.

The result type `Result<Option<ProtocolComponent>, Panic>` keeps three outcomes apart:

- `Ok(None)`: not recognised;
- `Ok(Some(c))`: a component;
- `Err(_)`: the `.unwrap()` panic.

## Model

All source paths are in `substreams/ethereum-balancer-v2/src/`.

| member | source | states |
|---|---|---|
| PoolFactories.FactoryAt | substreams/ethereum-balancer-v2/src/pool_factories.rs:54-353 | an address selects factory `f` only if it is exactly `f`'s hard-coded address |
| PoolFactoryProperties.FactoryTableInverse | substreams/ethereum-balancer-v2/src/pool_factories.rs:54-353 | each of the eight addresses selects its own arm, and an address selects `f` if and only if it is `f`'s address |
| PoolFactoryProperties.UnknownFactoryIsNone | substreams/ethereum-balancer-v2/src/pool_factories.rs:353 | an address outside the table gives `None` whatever the call, log and transaction |
| PoolFactoryProperties.UnsupportedFactoriesAreNone | substreams/ethereum-balancer-v2/src/pool_factories.rs:240-287 | the disabled Gearbox linear and Managed pool factories give `None` |
| PoolFactories.DecodeCreate | substreams/ethereum-balancer-v2/src/pool_factories.rs:56-57 | each factory decodes its call with its own `Create` schema (weighted v1, weighted v2-v4, composable-stable, linear) |
| PoolFactoryProperties.DecodeFailureIsNone | substreams/ethereum-balancer-v2/src/pool_factories.rs:176-181 | if the `Create` call or the `PoolCreated` log fails to decode, the result is `None` for every transaction, so the vault is never searched and no panic happens |
| PoolFactories.FirstVaultEvent | substreams/ethereum-balancer-v2/src/pool_factories.rs:17-21 | the scan finds nothing exactly when no vault log decodes to a wanted event; otherwise it returns the event of the first such log |
| PoolFactoryProperties.NonVaultLogIgnored | substreams/ethereum-balancer-v2/src/pool_factories.rs:18 | inserting a log not emitted by the vault, anywhere, does not change what a scan finds |
| PoolFactories.GetPoolRegistered | substreams/ethereum-balancer-v2/src/pool_factories.rs:13-23 | panics (`Err`) exactly when no vault log decodes to a `PoolRegistered` for the pool; otherwise returns the first one, and its `pool_address` is the pool |
| PoolFactories.GetTokenRegistered | substreams/ethereum-balancer-v2/src/pool_factories.rs:25-35 | panics exactly when no vault log decodes to a `TokensRegistered` for the pool id; otherwise returns the first one, and its `pool_id` is the requested id |
| PoolFactoryProperties.PanicsExactlyWhenUnregistered | substreams/ethereum-balancer-v2/src/pool_factories.rs:176-181 | once both decodes succeed the result is never `None`. It panics with `PoolNotRegistered` when the vault has no registration for the pool. Given the registration, it panics exactly when the factory needs a `TokensRegistered` and the vault has none for the pool id |
| PoolFactories.AddressMap | substreams/ethereum-balancer-v2/src/pool_factories.rs:48-355 | an unknown address gives `Ok(None)`. A produced component has contracts `[pool, vault]` and a 66-character id equal to the hex pool id of the first vault registration of that pool. It carries `manual_updates = [1]` and is a VM `balancer_v2_pool` |
| PoolFactoryProperties.ComponentShape | substreams/ethereum-balancer-v2/src/pool_factories.rs:55-352 | contracts are exactly `[pool_created.pool, VAULT_ADDRESS]`, in that order; the attributes are the arm's list; the component is a VM `balancer_v2_pool` |
| PoolFactoryProperties.IdIsRegisteredPoolId | substreams/ethereum-balancer-v2/src/pool_factories.rs:55-352 | the id is `"0x"` plus the hex of the pool id of the first vault `PoolRegistered` naming the pool. It has 66 characters, decodes back, and never equals the hex of the pool address, with or without `0x` |
| PoolFactories.ComponentId | substreams/ethereum-balancer-v2/src/pool_factories.rs:64 | the id starts with `0x` and is followed by two lower-case hex digits per byte, which decode back to the pool id; so it is exactly `hex::encode`'s output |
| PoolFactoryProperties.TokensFromCall | substreams/ethereum-balancer-v2/src/pool_factories.rs:55-352 | weighted v1-v4 and two-token components list the call's tokens verbatim |
| PoolFactoryProperties.TokensFromVault | substreams/ethereum-balancer-v2/src/pool_factories.rs:175-321 | composable-stable and linear components list the tokens of the first vault `TokensRegistered` whose pool id is the registered pool id |
| PoolFactoryProperties.CommonAttributes | substreams/ethereum-balancer-v2/src/pool_factories.rs:55-352 | every component has the factory's `pool_type`, `fee` equal to the signed big-endian bytes of `swap_fee_percentage`, and `manual_updates = [1]`. No two attributes share a name, and the component is a VM `balancer_v2_pool` |
| PoolFactoryProperties.WeightAttributes | substreams/ethereum-balancer-v2/src/pool_factories.rs:68-349 | weighted arms serialize the call's weights under `normalized_weights`, or under `weights` for the two-token factory. Weighted v2-v4 and composable-stable serialize the call's rate providers under `rate_providers` |
| PoolFactoryProperties.PoolTokenAttributes | substreams/ethereum-balancer-v2/src/pool_factories.rs:189-321 | composable-stable and linear components have `bpt` equal to the pool address. Linear components copy `main_token` and `wrapped_token` from the call, and `upper_target` as signed bytes |
| PoolFactories.Attributes | substreams/ethereum-balancer-v2/src/pool_factories.rs:68-349 | each arm's attribute list has exactly one entry per name of `AttributeNames`, with the names in the same order, so it holds nothing else |
| PoolFactories.AttributeNames | substreams/ethereum-balancer-v2/src/pool_factories.rs:68-349 | the attribute names of each arm, in the source's order, are pairwise distinct |
| PoolFactoryProperties.AttributeTable | substreams/ethereum-balancer-v2/src/pool_factories.rs:68-349 | per factory, the value each attribute name carries. Together with `Attributes`, which fixes the list of names, this gives the whole list |
| PoolFactoryProperties.AttributeNamesDistinct | substreams/ethereum-balancer-v2/src/pool_factories.rs:68-349 | the list has as many entries as the arm has names, entry `i` is named `AttributeNames(f)[i]`, and no name repeats |
| PoolFactories.ComponentTokens | substreams/ethereum-balancer-v2/src/pool_factories.rs:55-352 | weighted v1-v4 and two-token arms take the call's tokens. Composable-stable and linear arms panic exactly when no vault log decodes to a `TokensRegistered` for the pool id; otherwise they take the first such log's tokens |
| PoolFactories.PoolTypeName | substreams/ethereum-balancer-v2/src/pool_factories.rs:69-340 | each arm's `pool_type` string is ASCII, so its bytes are one per character |
| PoolFactories.PoolTypeNameInjective | substreams/ethereum-balancer-v2/src/pool_factories.rs:69-340 | two factories share a `pool_type` exactly when they are the same factory |
| PoolFactories.FactoryAddress | substreams/ethereum-balancer-v2/src/pool_factories.rs:55-326 | no arm's address is the disabled Gearbox linear factory, the Managed pool factory or the vault |
| PoolFactoryProperties.WeightedV1Scenario | substreams/ethereum-balancer-v2/src/pool_factories.rs:55-81 | a weighted v1 creation with tokens `[t1, t2]` and one vault registration yields exactly the component the arm builds |
| PoolFactoryProperties.ComposableStableScenario | substreams/ethereum-balancer-v2/src/pool_factories.rs:175-203 | a composable-stable creation whose call tokens differ from the vault's lists the vault's tokens |
| Hex.Encode | substreams/ethereum-balancer-v2/src/pool_factories.rs:64 | `hex::encode` gives two lower-case hex digits per byte |
| Hex.DecodeEncode | substreams/ethereum-balancer-v2/src/pool_factories.rs:64 | decoding the encoding gives back the bytes |
| Hex.EncodeInjective | substreams/ethereum-balancer-v2/src/pool_factories.rs:64 | distinct pool ids give distinct ids |
| SignedBytes.ToSignedBytesBe | substreams/ethereum-balancer-v2/src/pool_factories.rs:73-75 | the encoding is non-empty, its top bit is the sign, and it has no redundant leading byte |
| SignedBytes.RoundTrip | substreams/ethereum-balancer-v2/src/pool_factories.rs:73-75 | reading the bytes back as two's complement gives the original integer |
| SignedBytes.Injective | substreams/ethereum-balancer-v2/src/pool_factories.rs:73-75 | distinct fees give distinct `fee` attributes |
| Octets.AsciiBytesIsUtf8 | substreams/ethereum-balancer-v2/src/pool_factories.rs:69 | for the ASCII `pool_type` names, one byte per character is exactly `as_bytes` |

## Left out

- The generated ABI decoders (`abi::*::functions::Create`, `abi::*::events::PoolCreated`, and the vault's
  `PoolRegistered` and `TokensRegistered`) are generated code. They are the `Decoders` parameter. Each `Create`
  record keeps only the fields the dispatcher reads, plus `tokens` where the call has them.
- `json_serialize_bigint_list` and `json_serialize_address_list` are foreign helpers. They are the `Serializers`
  parameter. The model states only which list each one is given.
- `TransactionTrace::logs_with_calls` walks the call tree to collect logs. That walk is not modelled: the
  transaction is already the sequence of `(log, call)` pairs in emission order.
- The builder internals of `ProtocolComponent` (`new`, `with_contracts`, `with_tokens`, `with_attributes`,
  `as_swap_type`) are taken to set just the fields of the record. The other fields of the protobuf message are not
  modelled, such as the change type, the financial type and the creation transaction.
- `modules.rs` is not part of this model. `VAULT_ADDRESS` is the Balancer V2 vault,
  `0xBA12222222228d8Ba445958a75a0704d566BF2C8`.
- The commented-out Gearbox and Managed arms are dead code. Only their absence from the table is modelled
  (`UnsupportedFactoriesAreNone`).
- Pool ids are `Bytes32` and addresses are 20 bytes. The factory address parameter is any byte string, like the
  source's `&[u8]`.
- Each arm decodes the call before the log. Both decodes are pure, so only their combined outcome is modelled.
- The source does not check that the pool differs from the vault. The model states contracts `[pool, vault]`,
  without claiming the two are distinct.
- When several vault logs match, the first one wins, as the source's `find` does. The model does not check that
  the match is unique.
- Concurrent invocation by the surrounding pipeline is not modelled. It does not affect this pure function.
