/**
 * `query_resolver_parameters`: discovers the name's resolver, asks whether it supports
 * wildcard resolution, wraps the record query accordingly, calls the resolver and decodes
 * the answer.
 */
module ResolverQuery {
  import opened Types
  import opened Errors
  import opened Oracles
  import opened Resolution
  import Hex
  import Wildcard
  import Discovery

  /** The hex of the `resolve(bytes,bytes)` selector, as the source writes it. */
  const ResolveSelectorHex: string := "9061b923"

  lemma ResolveSelectorParses()
    ensures Hex.Decode(ResolveSelectorHex) == Hex.Decoded(ResolveSelector)
  {
    assert Hex.Encode(ResolveSelector) == ResolveSelectorHex;
    Hex.DecodeEncode(ResolveSelector);
  }

  /** Method form of `query_resolver_parameters`, statement by statement. */
  method QueryResolverParameters<T>(env: Env, decode: Bytes -> Option<T>, ensName: string,
                                    selector: Selector, parameters: Option<Bytes>)
    returns (outcome: Outcome<T>, ghost trace: seq<Event>)
    ensures outcome == Query(env, ensName, selector, parameters, decode).outcome
    ensures trace == Query(env, ensName, selector, parameters, decode).trace
  {
    var found;
    found, trace := Discovery.GetResolver(env, ensName);
    if !found.Ok? {
      return found.Propagate(), trace;
    }
    var resolverAddress := found.value;
    var tx := env.builders.resolve(resolverAddress, selector, ensName, parameters);
    var parseBytes := false;
    var supported := Resolution.SupportsWildcard(env, resolverAddress);
    trace := trace + supported.trace;
    if !supported.outcome.Ok? {
      return supported.outcome.Propagate(), trace;
    }
    if supported.outcome.value {
      parseBytes := true;
      if env.builders.dnsEncode(ensName).None? {
        return Abort(DnsEncodeFailed), trace;
      }
      var dnsEncoded := env.builders.dnsEncode(ensName).value;
      if tx.data.None? {
        return Abort(MissingTxData), trace;
      }
      var encodedData := env.abi.encodeBytesPair(dnsEncoded, tx.data.value);
      ResolveSelectorParses();
      var resolveSelector := Hex.Decode(ResolveSelectorHex).bytes;
      tx := tx.(data := Some(resolveSelector + encodedData));
    }
    var data;
    data := CallResolver(env, tx, parseBytes);
    trace := trace + [ChainCall(Resolver, tx, None)];
    if !data.Ok? {
      return data.Propagate(), trace;
    }
    match decode(data.value) {
      case None =>
        return Abort(DecodeBytesFailed), trace;
      case Some(value) =>
        return Ok(value), trace;
    }
  }

  /** The resolver call at the end of `query_resolver_parameters`, with its error mapping. */
  method CallResolver(env: Env, tx: Tx, parseBytes: bool) returns (data: Outcome<Bytes>)
    ensures data == ResolverAnswer(env, tx, parseBytes)
  {
    match env.chain(tx, None) {
      case ProviderFailed(e) =>
        return Err(TodoError("Error calling resolver: " + e.display));
      case Returned(raw) =>
        data := Ok(raw);
    }
    if parseBytes {
      match env.abi.decodeBytes(data.value) {
        case None =>
          return Abort(DecodeBytesFailed);
        case Some(inner) =>
          data := Ok(inner);
      }
    }
  }

  // ----- Properties -----

  /** A failed discovery is the query's failure; nothing more is called. */
  lemma DiscoveryFailure<T>(env: Env, name: string, selector: Selector, parameters: Option<Bytes>,
                            decode: Bytes -> Option<T>)
    requires !Discover(env, name, name).outcome.Ok?
    ensures Query(env, name, selector, parameters, decode)
         == Run(Discover(env, name, name).outcome.Propagate(), Discover(env, name, name).trace)
  {
  }

  /**
   * After discovery, the resolver is always probed for wildcard support, even when
   * discovery found the zero address: the next call is the probe to that resolver.
   */
  lemma ProbeAlwaysSent<T>(env: Env, name: string, selector: Selector, parameters: Option<Bytes>,
                           decode: Bytes -> Option<T>)
    requires Discover(env, name, name).outcome.Ok?
    ensures var found := Discover(env, name, name);
      var trace := Query(env, name, selector, parameters, decode).trace;
      && found.trace < trace
      && trace[|found.trace|] == ChainCall(Redirect(0), ProbeTx(found.outcome.value), None)
  {
    var found := Discover(env, name, name);
    var probe := Resolution.SupportsWildcard(env, found.outcome.value);
    Wildcard.ProbeCalls(env, found.outcome.value);
    var trace := Query(env, name, selector, parameters, decode).trace;
    assert (found.trace + probe.trace)[|found.trace|] == probe.trace[0];
    assert found.trace + probe.trace <= trace;
  }

  /**
   * A resolver without wildcard support is sent the record query unchanged; its answer is
   * decoded directly, and a failed call is reported with the provider's message.
   */
  lemma PlainQuery<T>(env: Env, name: string, selector: Selector, parameters: Option<Bytes>,
                      decode: Bytes -> Option<T>, r: Address)
    requires Discover(env, name, name).outcome == Ok(r)
    requires Resolution.SupportsWildcard(env, r).outcome == Ok(false)
    ensures var tx := env.builders.resolve(r, selector, name, parameters);
      var q := Query(env, name, selector, parameters, decode);
      && q.trace == Discover(env, name, name).trace + Resolution.SupportsWildcard(env, r).trace
                    + [ChainCall(Resolver, tx, None)]
      && (env.chain(tx, None).ProviderFailed? ==>
            q.outcome == Err(TodoError("Error calling resolver: " + env.chain(tx, None).error.display)))
      && (env.chain(tx, None).Returned? ==>
            (q.outcome.Ok? <==> decode(env.chain(tx, None).output).Some?)
            && (q.outcome.Ok? ==> q.outcome.value == decode(env.chain(tx, None).output).value))
  {
  }

  /**
   * A wildcard resolver is sent `resolve(dns_encode(name), original call data)` instead,
   * and its answer is unwrapped as `bytes` before it is decoded.
   */
  lemma WildcardQuery<T>(env: Env, name: string, selector: Selector, parameters: Option<Bytes>,
                         decode: Bytes -> Option<T>, r: Address, dns: Bytes, original: Bytes)
    requires Discover(env, name, name).outcome == Ok(r)
    requires Resolution.SupportsWildcard(env, r).outcome == Ok(true)
    requires env.builders.dnsEncode(name) == Some(dns)
    requires env.builders.resolve(r, selector, name, parameters).data == Some(original)
    ensures var plain := env.builders.resolve(r, selector, name, parameters);
      var tx := plain.(data := Some(ResolveSelector + env.abi.encodeBytesPair(dns, original)));
      var q := Query(env, name, selector, parameters, decode);
      && q.trace == Discover(env, name, name).trace + Resolution.SupportsWildcard(env, r).trace
                    + [ChainCall(Resolver, tx, None)]
      && (env.chain(tx, None).Returned? ==>
            var inner := env.abi.decodeBytes(env.chain(tx, None).output);
            && (inner.None? ==> q.outcome == Abort(DecodeBytesFailed))
            && (inner.Some? ==> (q.outcome.Ok? <==> decode(inner.value).Some?))
            && (inner.Some? && q.outcome.Ok? ==> q.outcome.value == decode(inner.value).value))
  {
  }

  /** A wildcard resolver for a name that cannot be DNS-encoded is a panic, before any resolver call. */
  lemma WildcardUnencodable<T>(env: Env, name: string, selector: Selector, parameters: Option<Bytes>,
                               decode: Bytes -> Option<T>, r: Address)
    requires Discover(env, name, name).outcome == Ok(r)
    requires Resolution.SupportsWildcard(env, r).outcome == Ok(true)
    requires env.builders.dnsEncode(name).None?
    ensures Query(env, name, selector, parameters, decode)
         == Run(Abort(DnsEncodeFailed), Discover(env, name, name).trace + Resolution.SupportsWildcard(env, r).trace)
  {
  }
}
