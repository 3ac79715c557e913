/** The output record of the Tycho indexing pipeline and its foreign helpers. */
module Tycho {
  import opened Octets

  datatype ImplementationType = Vm | Custom

  /** A named static attribute and its raw value. */
  type Attribute = (string, Bytes)

  /**
   * `ProtocolComponent` as the builder chain leaves it: `new` sets the id,
   * `with_contracts`, `with_tokens` and `with_attributes` set their fields,
   * `as_swap_type` sets the protocol type name and implementation type.
   */
  datatype ProtocolComponent = ProtocolComponent(
    id: string,
    contracts: seq<Bytes>,
    tokens: seq<Bytes>,
    attributes: seq<Attribute>,
    protocolType: string,
    implementationType: ImplementationType)

  /** `json_serialize_bigint_list` and `json_serialize_address_list`. */
  datatype Serializers = Serializers(
    bigIntList: seq<int> -> Bytes,
    addressList: seq<Bytes> -> Bytes)
}
