/**
 * The middleware's calls that reach each other, as one family of definitions:
 * `_call` resolves a named destination (`resolve_name` → `query_resolver_parameters`),
 * which discovers the resolver (`get_resolver`), which probes ancestors
 * (`supports_wildcard`), which calls back into `_call`.
 *
 * Termination: a named destination is resolved through queries whose probes only ever
 * call addresses, the redirect counter bounds the loop at one address, and discovery
 * walks ever shorter names.
 */
module Resolution {
  import opened Types
  import opened Errors
  import opened Oracles
  import opened Strings
  import opened Offchain
  import Gateway

  /** 1 for a destination that has to be resolved by name first, else 0. */
  function TargetRank(tx: Tx): nat
  {
    if tx.to.Some? && tx.to.value.Name? then 1 else 0
  }

  /** How many more attempts the redirect counter allows. */
  function Budget(attempt: nat): nat
  {
    if attempt < MaxRedirectAttempt then MaxRedirectAttempt - attempt else 0
  }

  /** `supportsInterface(resolve(bytes,bytes).selector)`: the two selectors and 28 zero bytes. */
  const ProbeCallData: Bytes := SupportsInterfaceSelector + ResolveSelector + ProbePadding

  /** The argument's padding to a 32-byte word. */
  const ProbePadding: Bytes := ZeroBytes(28)

  function ZeroBytes(n: nat): (r: Bytes)
    ensures |r| == n && forall k :: 0 <= k < n ==> r[k] == 0
  {
    if n == 0 then [] else [0] + ZeroBytes(n - 1)
  }

  /** The probe: `ProbeCallData` sent to the resolver; every other field left at its default. */
  function ProbeTx(resolver: Address): Tx
  {
    Tx(Some(Addr(resolver)), Some(ProbeCallData), None, None)
  }

  /** The `resolve(bytes,bytes)` wrapping of a resolver call, for a resolver that supports it. */
  function WildcardTx(env: Env, name: string, tx: Tx): (r: Outcome<Tx>)
    ensures r.Ok? <==> env.builders.dnsEncode(name).Some? && tx.data.Some?
    ensures r.Ok? ==> r.value == tx.(data := Some(ResolveSelector
                         + env.abi.encodeBytesPair(env.builders.dnsEncode(name).value, tx.data.value)))
    ensures !r.Ok? ==> r.Abort?
  {
    match env.builders.dnsEncode(name)
    case None => Abort(DnsEncodeFailed)
    case Some(dns) =>
      match tx.data
      case None => Abort(MissingTxData)
      case Some(original) =>
        Ok(tx.(data := Some(ResolveSelector + env.abi.encodeBytesPair(dns, original))))
  }

  /** `decode_bytes` of a run's bytes as another type; a failed decode panics. */
  function Typed<T>(run: Run<Bytes>, decode: Bytes -> Option<T>): (r: Run<T>)
    ensures r.trace == run.trace
    ensures r.outcome.Ok? <==> run.outcome.Ok? && decode(run.outcome.value).Some?
    ensures r.outcome.Ok? ==> r.outcome.value == decode(run.outcome.value).value
    ensures run.outcome.Ok? && decode(run.outcome.value).None? ==> r.outcome == Abort(DecodeBytesFailed)
    ensures run.outcome.Err? ==> r.outcome == Err(run.outcome.error)
    ensures run.outcome.Abort? ==> r.outcome == Abort(run.outcome.panic)
  {
    match run.outcome
    case Ok(b) =>
      (match decode(b)
       case None => Run(Abort(DecodeBytesFailed), run.trace)
       case Some(v) => Run(Ok(v), run.trace))
    case Err(e) => Run(Err(e), run.trace)
    case Abort(p) => Run(Abort(p), run.trace)
  }

  /**
   * One round of the loop after the chain call, up to the gateways: the text is read and
   * inspected, and a lookup is followed only when its sender is the called address.
   */
  function Examine(env: Env, tx: Tx, block: Option<BlockId>, txSender: Address): Step
  {
    var text := ResultText(env, env.chain(tx, block));
    if !text.Ok? then Done(text.Propagate())
    else
      match Inspect(env.abi, block, txSender, text.value)
      case Done(o) => Done(o)
      case Follow(lookup) =>
        if lookup.sender != txSender then Done(Err(TodoError("SenderError"))) else Follow(lookup)
  }

  /** The gateways' answer to a lookup; an empty answer is `GatewayNotFoundError`. */
  function Fetch(env: Env, tx: Tx, lookup: OffchainLookup): (r: Run<Bytes>)
    ensures r.trace == Gateway.Dispatch(env, lookup.sender, tx, lookup.callData, lookup.urls).trace
    ensures r.outcome.Ok? ==> r.outcome.value != []
  {
    var dispatch := Gateway.Dispatch(env, lookup.sender, tx, lookup.callData, lookup.urls);
    if !dispatch.outcome.Ok? then dispatch
    else if dispatch.outcome.value == [] then Run(Err(TodoError("GatewayNotFoundError")), dispatch.trace)
    else dispatch
  }

  /**
   * `_call(tx, block, attempt)`: one call to the inner client, followed through at most
   * `MaxRedirectAttempt - attempt` offchain-lookup redirects.
   */
  function Call(env: Env, tx: Tx, block: Option<BlockId>, attempt: nat): Run<Bytes>
    decreases TargetRank(tx), Budget(attempt), 1
  {
    if attempt >= MaxRedirectAttempt then Run(Err(MaxRedirectionError), [])
    else if tx.to.None? then Run(Abort(MissingTarget), [])
    else
      var target := Destination(env, tx);
      if !target.outcome.Ok? then Run(target.outcome.Propagate(), target.trace)
      else
        var round := Round(env, tx, block, attempt, target.outcome.value);
        Run(round.outcome, target.trace + round.trace)
  }

  /**
   * The address a destination stands for, with the calls made to find it: an address is
   * itself, a name is resolved through `resolve_name`.
   */
  function Destination(env: Env, tx: Tx): Run<Address>
    requires tx.to.Some?
    decreases TargetRank(tx), 0, 0
  {
    if tx.to.value.Name? then ResolveName(env, tx.to.value.name) else Run(Ok(tx.to.value.address), [])
  }

  /**
   * The loop's work once the destination is known: the chain call, and, for a lookup, the
   * gateways and the next attempt with the callback.
   */
  function Round(env: Env, tx: Tx, block: Option<BlockId>, attempt: nat, txSender: Address): (r: Run<Bytes>)
    requires attempt < MaxRedirectAttempt && tx.to.Some?
    decreases TargetRank(tx), Budget(attempt), 0
    ensures |r.trace| > 0 && r.trace[0] == ChainCall(Redirect(attempt), tx, block)
  {
    var first := [ChainCall(Redirect(attempt), tx, block)];
    match Examine(env, tx, block, txSender)
    case Done(o) => Run(o, first)
    case Follow(lookup) =>
      var fetched := Fetch(env, tx, lookup);
      var asked := first + fetched.trace;
      if !fetched.outcome.Ok? then Run(fetched.outcome, asked)
      else
        var next := Call(env, CallbackTx(env.abi, tx, lookup, fetched.outcome.value), block, attempt + 1);
        Run(next.outcome, asked + next.trace)
  }

  /** `resolve_name`: the `addr` record of the name, as an address. */
  function ResolveName(env: Env, name: string): Run<Address>
    decreases 0, MaxRedirectAttempt + 4, 0
  {
    Typed(QueryBytes(env, name, AddrSelector, None), env.abi.decodeAddress)
  }

  /**
   * `query_resolver_parameters` up to its last decode: the resolver is discovered and
   * probed (always, even when it is zero), and the resolver call is sent, wrapped in
   * `resolve(bytes,bytes)` when the probe said yes.
   */
  function QueryBytes(env: Env, name: string, selector: Selector, parameters: Option<Bytes>): Run<Bytes>
    decreases 0, MaxRedirectAttempt + 3, 0
  {
    var found := Discover(env, name, name);
    if !found.outcome.Ok? then Run(found.outcome.Propagate(), found.trace)
    else
      var resolver := found.outcome.value;
      var tx := env.builders.resolve(resolver, selector, name, parameters);
      var probe := SupportsWildcard(env, resolver);
      var probed := found.trace + probe.trace;
      if !probe.outcome.Ok? then Run(probe.outcome.Propagate(), probed)
      else
        var parseBytes := probe.outcome.value;
        var call := if parseBytes then WildcardTx(env, name, tx) else Ok(tx);
        if !call.Ok? then Run(call.Propagate(), probed)
        else
          Run(ResolverAnswer(env, call.value, parseBytes), probed + [ChainCall(Resolver, call.value, None)])
  }

  /**
   * The resolver's answer to the final call, unwrapped once more as `bytes` when the call
   * was wrapped for a wildcard resolver.
   */
  function ResolverAnswer(env: Env, tx: Tx, parseBytes: bool): Outcome<Bytes>
  {
    match env.chain(tx, None)
    case ProviderFailed(e) => Err(TodoError("Error calling resolver: " + e.display))
    case Returned(data) =>
      if !parseBytes then Ok(data)
      else
        match env.abi.decodeBytes(data)
        case None => Abort(DecodeBytesFailed)
        case Some(inner) => Ok(inner)
  }

  /** `query_resolver_parameters`, decoding the answer with `decode`. */
  function Query<T>(env: Env, name: string, selector: Selector, parameters: Option<Bytes>,
                    decode: Bytes -> Option<T>): Run<T>
  {
    Typed(QueryBytes(env, name, selector, parameters), decode)
  }

  /**
   * `get_resolver(name)`, from the point where the name still to be asked is `current`:
   * the registry is asked for `current`, then for its parent, up to but not including the
   * root, and not `eth` for a name below `eth`.
   */
  function Discover(env: Env, name: string, current: string): Run<Address>
    decreases 0, MaxRedirectAttempt + 2, |current|
  {
    if current == "" || current == "." then Run(Ok(Zero), [])
    else if name != "eth" && current == "eth" then Run(Ok(Zero), [])
    else
      var query := env.builders.getResolver(RegistryAddress(env), current);
      var asked := [ChainCall(Registry(current), query, None)];
      match env.chain(query, None)
      case ProviderFailed(e) => Run(Err(TodoError("GR Error calling resolver: " + e.display)), asked)
      case Returned(data) =>
        if data == [] then Run(Ok(Zero), asked)
        else
          match env.abi.decodeAddress(data)
          case None => Run(Abort(DecodeBytesFailed), asked)
          case Some(resolver) =>
            if resolver != Zero then
              if current != name then
                var probe := SupportsWildcard(env, resolver);
                if !probe.outcome.Ok? then Run(probe.outcome.Propagate(), asked + probe.trace)
                else if !probe.outcome.value then Run(Ok(Zero), asked + probe.trace)
                else Run(Ok(resolver), asked + probe.trace)
              else Run(Ok(resolver), asked)
            else
              var rest := Discover(env, name, DropFirstLabel(current));
              Run(rest.outcome, asked + rest.trace)
  }

  /**
   * `supports_wildcard(resolver)`: the probe through the redirect-following call at the
   * latest block; a failed call counts as an empty answer, a panic stays a panic.
   */
  function SupportsWildcard(env: Env, resolver: Address): (r: Run<bool>)
    decreases 0, MaxRedirectAttempt + 1, 0
    ensures !r.outcome.Err?
  {
    var call := Call(env, ProbeTx(resolver), None, 0);
    if call.outcome.Abort? then Run(Abort(call.outcome.panic), call.trace)
    else
      var answer := if call.outcome.Ok? then call.outcome.value else [];
      if answer == [] then Run(Ok(false), call.trace)
      else
        match env.abi.decodeUint256(answer)
        case None => Run(Abort(DecodeBytesFailed), call.trace)
        case Some(v) => Run(Ok(v == 1), call.trace)
  }
}
