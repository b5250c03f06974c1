/** The middleware's errors, its aborts, and the observable record of a run. */
module Errors {
  import opened Types

  /** One failed gateway URL (`CCIPRequestError`). */
  datatype RequestError =
    | GatewayError(message: string)
    | NoMessage
    | Message(text: string)
    | DecodeDataHex(reason: string)

  /** The per-URL failures of one dispatch, in the order the URLs were tried. */
  datatype GatewayErrors = GatewayErrors(inner: seq<RequestError>)

  /** `CCIPMiddlewareError`. */
  datatype CcipError =
    | RpcError(rpc: JsonRpcError)
    | ReqwestError(http: HttpError)
    | GatewayError(gateway: GatewayErrors)
    | MaxRedirectionError
    | TodoError(text: string)
    | MiddlewareError(provider: ProviderError)

  /** The places where the source panics instead of returning an error. */
  datatype Panic =
    | MissingTarget          // `transaction.to().unwrap()`
    | RevertNotHex           // `hex::decode(result).unwrap()` in the shape test
    | LookupUndecodable      // `abi::decode(...).unwrap()` of the revert payload
    | GatewayDataTooShort    // `returned_data[2..]` on fewer than two characters
    | DecodeBytesFailed      // `decode_bytes` could not decode the bytes as asked
    | DnsEncodeFailed        // `dns_encode(name).unwrap()`
    | MissingTxData          // `tx.data().unwrap()`

  /** How one operation ends: a value, an error returned to the caller, or a panic. */
  datatype Outcome<+T> = Ok(value: T) | Err(error: CcipError) | Abort(panic: Panic) {
    /** The same failure at another value type (Rust's `?`). */
    function Propagate<U>(): Outcome<U>
      requires !Ok?
    {
      if Err? then Err(error) else Abort(panic)
    }
  }

  /** Which statement of the source issued a chain call. */
  datatype CallSite =
    | Redirect(attempt: nat)   // `_call`, at the given attempt
    | Registry(name: string)   // `get_resolver`, looking up the resolver of `name`
    | Resolver                 // the final call of `query_resolver_parameters`

  /** An interaction with the outside world. */
  datatype Event =
    | ChainCall(site: CallSite, tx: Tx, block: Option<BlockId>)
    | GatewayCall(request: HttpRequest)

  /** The outcome of an operation together with every interaction it made, in order. */
  datatype Run<+T> = Run(outcome: Outcome<T>, trace: seq<Event>)

  /** The sites of the chain calls of a trace, in order. */
  function ChainSites(trace: seq<Event>): (sites: seq<CallSite>)
    ensures |sites| <= |trace|
  {
    if trace == [] then []
    else (if trace[0].ChainCall? then [trace[0].site] else []) + ChainSites(trace[1..])
  }

  lemma {:induction false} ChainSitesAppend(a: seq<Event>, b: seq<Event>)
    ensures ChainSites(a + b) == ChainSites(a) + ChainSites(b)
  {
    if a == [] {
      assert a + b == b;
    } else {
      var head := if a[0].ChainCall? then [a[0].site] else [];
      assert (a + b)[0] == a[0];
      assert (a + b)[1..] == a[1..] + b;
      assert ChainSites(a + b) == head + ChainSites(a[1..] + b);
      ChainSitesAppend(a[1..], b);
      assert ChainSites(a) == head + ChainSites(a[1..]);
    }
  }
}
