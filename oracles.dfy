/**
 * The collaborators the middleware calls but does not implement: the inner chain client,
 * the HTTP client, the ABI codec, and the ethers helpers that build calls and names.
 * Each is an uninterpreted total function; only what the code relies on is assumed, and
 * that only where a lemma needs it.
 */
module Oracles {
  import opened Types

  /** The ABI codec, for the shapes the middleware encodes and decodes. */
  datatype Abi = Abi(
    /** `abi::encode(&[Token::Bytes(a), Token::Bytes(b)])` */
    encodeBytesPair: (Bytes, Bytes) -> Bytes,
    /** `abi::decode` of `(address, string[], bytes, bytes4, bytes)` */
    decodeLookup: Bytes -> Option<OffchainLookup>,
    /** `abi::decode` as `address`, `uint256`, `bytes` and `string` (`decode_bytes`) */
    decodeAddress: Bytes -> Option<Address>,
    decodeUint256: Bytes -> Option<nat>,
    decodeBytes: Bytes -> Option<Bytes>,
    decodeString: Bytes -> Option<string>)

  /** The ethers ENS helpers. */
  datatype Builders = Builders(
    /** `get_resolver(registry, name)`: the registry's `resolver(namehash(name))` call */
    getResolver: (Address, string) -> Tx,
    /** `resolve(resolver, selector, name, parameters)` */
    resolve: (Address, Selector, string, Option<Bytes>) -> Tx,
    /** `dns_encode(name)`, `None` where it returns an error */
    dnsEncode: string -> Option<Bytes>,
    /** `reverse_address(address)`: the `<hex>.addr.reverse` name */
    reverseAddress: Address -> string)

  /** Everything one middleware instance talks to, and its configuration. */
  datatype Env = Env(
    /** `inner().call(tx, block)` */
    chain: (Tx, Option<BlockId>) -> ChainResult,
    /** one gateway request, sent and its JSON body parsed */
    http: HttpRequest -> HttpResult,
    /** `Bytes::to_string()` of a successful call's output */
    display: Bytes -> string,
    abi: Abi,
    builders: Builders,
    /** the configured registry (`CCIPReadMiddleware::ens`) */
    ens: Option<Address>)

  /** The registry address `get_resolver` uses: the configured one, else `ENS_ADDRESS`. */
  function RegistryAddress(env: Env): Address
  {
    env.ens.GetOr(EnsAddress)
  }
}
