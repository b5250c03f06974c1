/** Values exchanged between the middleware, the chain client and the gateways. */
module Types {

  datatype Option<+T> = None | Some(value: T) {
    function GetOr(default: T): T {
      match this
      case Some(v) => v
      case None => default
    }
  }

  newtype byte = b: int | 0 <= b < 256

  type Bytes = seq<byte>

  /** A 20-byte account address (ethers `H160`). */
  type Address = s: Bytes | |s| == 20 witness seq(20, _ => 0)

  /** A 4-byte function selector. */
  type Selector = s: Bytes | |s| == 4 witness [0, 0, 0, 0]

  const Zero: Address := seq(20, _ => 0)

  /** Default ENS registry, 0x00000000000C2E074eC69A0dFb2997BA6C7d2e1e (ethers `ENS_ADDRESS`). */
  const EnsAddress: Address := [0x00, 0x00, 0x00, 0x00, 0x00, 0x0C, 0x2E, 0x07, 0x4e, 0xC6,
                                0x9A, 0x0d, 0xFb, 0x29, 0x97, 0xBA, 0x6C, 0x7d, 0x2e, 0x1e]

  /** Upper bound on the redirect attempt counter. */
  const MaxRedirectAttempt: nat := 10

  /** `supportsInterface(bytes4)` */
  const SupportsInterfaceSelector: Selector := [0x01, 0xff, 0xc9, 0xa7]
  /** `resolve(bytes,bytes)` */
  const ResolveSelector: Selector := [0x90, 0x61, 0xb9, 0x23]
  /** `addr(bytes32)` (ethers `ADDR_SELECTOR`) */
  const AddrSelector: Selector := [0x3b, 0x3b, 0x57, 0xde]
  /** `name(bytes32)` (ethers `NAME_SELECTOR`) */
  const NameSelector: Selector := [0x69, 0x1f, 0x34, 0x31]

  /** The hex text a revert payload starts with when it is an `OffchainLookup`. */
  const OffchainLookupPrefix: string := "556f1830"

  /** The destination of a transaction: an ENS name or an address. */
  datatype Target = Name(name: string) | Addr(address: Address)

  /** A typed transaction; only the fields the middleware reads or rewrites are kept. */
  datatype Tx = Tx(to: Option<Target>, data: Option<Bytes>, from: Option<Address>, value: Option<nat>)

  datatype BlockNumber = Latest | Finalized | Safe | Earliest | Pending | Number(n: nat)

  datatype BlockId = AtNumber(number: BlockNumber) | AtHash(hash: Bytes)

  /** The `data` member of a JSON-RPC error: null, or any other JSON value given by its text form. */
  datatype Json = JNull | JText(rendered: string)

  datatype JsonRpcError = JsonRpcError(code: int, message: string, data: Option<Json>)

  /** An error of the inner client: its display text, and the JSON-RPC error response if it is one. */
  datatype ProviderError = ProviderError(display: string, response: Option<JsonRpcError>)

  datatype ChainResult = Returned(output: Bytes) | ProviderFailed(error: ProviderError)

  /** A revert payload of the `OffchainLookup(address,string[],bytes,bytes4,bytes)` error. */
  datatype OffchainLookup = OffchainLookup(
    sender: Address,
    urls: seq<string>,
    callData: Bytes,
    callbackSelector: Selector,
    extraData: Bytes)

  /** The JSON body `{"data": …, "sender": …}` of a gateway POST. */
  datatype PostBody = PostBody(data: string, sender: Address)

  datatype HttpRequest = Get(url: string) | Post(url: string, body: PostBody)

  /** The JSON body of a gateway response (`CCIPReturnType`). */
  datatype GatewayResponse = GatewayResponse(message: Option<string>, data: Option<string>)

  /** A `reqwest` failure, sending the request or reading its JSON body. */
  datatype HttpError = HttpError(display: string)

  datatype HttpResult = Response(body: GatewayResponse) | TransportError(error: HttpError)
}
