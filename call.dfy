/**
 * `call` and `_call`: the redirect loop as the source writes it, and what it guarantees
 * about the calls it makes.
 */
module Redirect {
  import opened Types
  import opened Errors
  import opened Oracles
  import opened Strings
  import opened Offchain
  import opened Resolution
  import Hex
  import Gateway

  /**
   * `_call(tx, block, attempt)`, statement by statement: the attempt bound and the
   * destination, then the round below; a followed redirect recurses from there.
   */
  method CallWithAttempt(env: Env, tx: Tx, block: Option<BlockId>, attempt: nat)
    returns (outcome: Outcome<Bytes>, ghost trace: seq<Event>)
    ensures outcome == Resolution.Call(env, tx, block, attempt).outcome
    ensures trace == Resolution.Call(env, tx, block, attempt).trace
    decreases Budget(attempt), 2, 0
  {
    if attempt >= MaxRedirectAttempt {
      return Err(MaxRedirectionError), [];
    }
    if tx.to.None? {
      return Abort(MissingTarget), [];
    }
    var txSender: Address;
    trace := [];
    match tx.to.value {
      case Name(ensName) =>
        var resolved := ResolveName(env, ensName);
        trace := resolved.trace;
        if !resolved.outcome.Ok? {
          return resolved.outcome.Propagate(), trace;
        }
        txSender := resolved.outcome.value;
      case Addr(addr) =>
        txSender := addr;
    }
    ghost var roundTrace;
    outcome, roundTrace := CallRound(env, tx, block, attempt, txSender);
    trace := trace + roundTrace;
  }

  /**
   * The rest of `_call` once the destination is known: the chain call, the text it
   * gives, the shape test, the gateways and the callback.
   */
  method CallRound(env: Env, tx: Tx, block: Option<BlockId>, attempt: nat, txSender: Address)
    returns (outcome: Outcome<Bytes>, ghost trace: seq<Event>)
    requires attempt < MaxRedirectAttempt && tx.to.Some?
    ensures outcome == Round(env, tx, block, attempt, txSender).outcome
    ensures trace == Round(env, tx, block, attempt, txSender).trace
    decreases Budget(attempt), 1, 0
  {
    trace := [ChainCall(Redirect(attempt), tx, block)];
    var result: string;
    match env.chain(tx, block) {
      case Returned(response) =>
        result := env.display(response);
      case ProviderFailed(providerError) =>
        if providerError.response.None? {
          return Err(MiddlewareError(providerError)), trace;
        }
        var data := providerError.response.value.data.GetOr(JNull);
        if data.JNull? {
          return Err(TodoError("Data is null")), trace;
        }
        result := TrimStartMatches(TrimMatches(data.rendered, '"'), "0x");
    }
    assert ResultText(env, env.chain(tx, block)) == Ok(result);
    outcome, trace := Inspected(env, tx, block, attempt, txSender, result);
  }

  /**
   * `_call` from the shape test on: a lookup is checked, sent to the gateways and
   * answered by the callback at the next attempt; any other text is parsed as bytes.
   * The trace starts with the chain call that gave `result`.
   */
  method Inspected(env: Env, tx: Tx, block: Option<BlockId>, attempt: nat, txSender: Address, result: string)
    returns (outcome: Outcome<Bytes>, ghost trace: seq<Event>)
    requires attempt < MaxRedirectAttempt && tx.to.Some?
    requires ResultText(env, env.chain(tx, block)) == Ok(result)
    ensures outcome == Round(env, tx, block, attempt, txSender).outcome
    ensures trace == Round(env, tx, block, attempt, txSender).trace
    decreases Budget(attempt), 0, 1
  {
    trace := [ChainCall(Redirect(attempt), tx, block)];
    if IsLatest(block) && txSender != Zero && StartsWith(result, OffchainLookupPrefix) {
      var decoded := Hex.Decode(result);
      if decoded.BadHex? {
        return Abort(RevertNotHex), trace;
      }
      if |decoded.bytes| % 32 == 4 {
        var payload := Hex.Decode(result[8..]);
        if payload.BadHex? {
          return Abort(RevertNotHex), trace;
        }
        var decodedData := env.abi.decodeLookup(payload.bytes);
        if decodedData.None? {
          return Abort(LookupUndecodable), trace;
        }
        var lookup := decodedData.value;
        assert Inspect(env.abi, block, txSender, result) == Follow(lookup);
        if lookup.sender != txSender {
          return Err(TodoError("SenderError")), trace;
        }
        assert Examine(env, tx, block, txSender) == Follow(lookup);
        outcome, trace := FollowLookup(env, tx, block, attempt, txSender, lookup);
        return;
      }
    }
    assert Inspect(env.abi, block, txSender, result) == FinalOf(result);
    match Hex.ParseBytes(result) {
      case Decoded(bytes) =>
        return Ok(bytes), trace;
      case BadHex(_) =>
        return Err(TodoError("GatewayError")), trace;
    }
  }

  /**
   * `_call` for a lookup from the called address: the gateways are asked, an empty answer
   * is an error, and a non-empty one is sent back to the contract at the next attempt.
   */
  method FollowLookup(env: Env, tx: Tx, block: Option<BlockId>, attempt: nat, txSender: Address,
                      lookup: OffchainLookup)
    returns (outcome: Outcome<Bytes>, ghost trace: seq<Event>)
    requires attempt < MaxRedirectAttempt && tx.to.Some?
    requires Examine(env, tx, block, txSender) == Follow(lookup)
    ensures outcome == Round(env, tx, block, attempt, txSender).outcome
    ensures trace == Round(env, tx, block, attempt, txSender).trace
    decreases Budget(attempt), 0, 0, 1
  {
    FollowedRound(env, tx, block, attempt, txSender, lookup);
    trace := [ChainCall(Redirect(attempt), tx, block)];
    var ccipResult, gatewayTrace := Gateway.CcipRequest(env, lookup.sender, tx, lookup.callData, lookup.urls);
    trace := trace + gatewayTrace;
    if !ccipResult.Ok? {
      return ccipResult.Propagate(), trace;
    }
    if ccipResult.value == [] {
      return Err(TodoError("GatewayNotFoundError")), trace;
    }
    ghost var nextTrace;
    outcome, nextTrace := SendCallback(env, tx, block, attempt, lookup, ccipResult.value);
    trace := trace + nextTrace;
  }

  /** The callback: the original transaction with the callback's data, at the next attempt. */
  method SendCallback(env: Env, tx: Tx, block: Option<BlockId>, attempt: nat, lookup: OffchainLookup,
                      ccipResult: Bytes)
    returns (outcome: Outcome<Bytes>, ghost trace: seq<Event>)
    requires attempt < MaxRedirectAttempt
    ensures outcome
         == Resolution.Call(env, CallbackTx(env.abi, tx, lookup, ccipResult), block, attempt + 1).outcome
    ensures trace
         == Resolution.Call(env, CallbackTx(env.abi, tx, lookup, ccipResult), block, attempt + 1).trace
    decreases Budget(attempt), 0, 0, 0
  {
    var encodedData := env.abi.encodeBytesPair(ccipResult, lookup.extraData);
    var newTransaction := tx.(data := Some(lookup.callbackSelector + encodedData));
    assert newTransaction == CallbackTx(env.abi, tx, lookup, ccipResult);
    outcome, trace := CallWithAttempt(env, newTransaction, block, attempt + 1);
  }

  /** The round of a followed lookup, in terms of the gateways' answer. */
  lemma FollowedRound(env: Env, tx: Tx, block: Option<BlockId>, attempt: nat, txSender: Address,
                      lookup: OffchainLookup)
    requires attempt < MaxRedirectAttempt && tx.to.Some?
    requires Examine(env, tx, block, txSender) == Follow(lookup)
    ensures var first := [ChainCall(Redirect(attempt), tx, block)];
      var fetched := Fetch(env, tx, lookup);
      && (!fetched.outcome.Ok? ==> Round(env, tx, block, attempt, txSender) == Run(fetched.outcome, first + fetched.trace))
      && (fetched.outcome.Ok? ==>
            var next := Resolution.Call(env, CallbackTx(env.abi, tx, lookup, fetched.outcome.value), block, attempt + 1);
            Round(env, tx, block, attempt, txSender) == Run(next.outcome, first + fetched.trace + next.trace))
  {
  }

  /** `call(tx, block)`: the loop from attempt 0. */
  method Call(env: Env, tx: Tx, block: Option<BlockId>) returns (outcome: Outcome<Bytes>, ghost trace: seq<Event>)
    ensures outcome == Resolution.Call(env, tx, block, 0).outcome
    ensures trace == Resolution.Call(env, tx, block, 0).trace
  {
    outcome, trace := CallWithAttempt(env, tx, block, 0);
  }

  // ----- What the loop guarantees -----

  /** Every chain call of a trace is one of the loop's, at consecutive attempts from `attempt`. */
  predicate RedirectSites(trace: seq<Event>, attempt: nat)
  {
    forall i :: 0 <= i < |ChainSites(trace)| ==> ChainSites(trace)[i] == Redirect(attempt + i)
  }

  /** Every chain call of a trace is at `block`, to the destination, from the sender, with the value of `tx`. */
  predicate SameCall(trace: seq<Event>, tx: Tx, block: Option<BlockId>)
  {
    forall k :: 0 <= k < |trace| && trace[k].ChainCall? ==>
      && trace[k].block == block && trace[k].tx.to == tx.to
      && trace[k].tx.from == tx.from && trace[k].tx.value == tx.value
  }

  predicate OnlyGateway(trace: seq<Event>)
  {
    forall k :: 0 <= k < |trace| ==> trace[k].GatewayCall?
  }

  lemma {:induction false} OnlyGatewayNoSites(trace: seq<Event>)
    requires OnlyGateway(trace)
    ensures ChainSites(trace) == []
  {
    if trace != [] {
      OnlyGatewayNoSites(trace[1..]);
    }
  }

  lemma DispatchOnlyGateway(env: Env, sender: Address, tx: Tx, callData: Bytes, urls: seq<string>)
    ensures OnlyGateway(Gateway.Dispatch(env, sender, tx, callData, urls).trace)
  {
  }

  /** At the attempt bound the loop fails without calling anything. */
  lemma MaxAttemptsStops(env: Env, tx: Tx, block: Option<BlockId>, attempt: nat)
    requires attempt >= MaxRedirectAttempt
    ensures Resolution.Call(env, tx, block, attempt) == Run(Err(MaxRedirectionError), [])
  {
  }

  /**
   * For a destination given by address, the loop makes at most `MaxRedirectAttempt - attempt`
   * chain calls, at consecutive attempts, every one at the same block and to the same
   * destination, from the same sender, with the same value as the original call.
   */
  lemma {:induction false} AddressChain(env: Env, tx: Tx, block: Option<BlockId>, attempt: nat, a: Address)
    requires tx.to == Some(Addr(a))
    ensures |ChainSites(Resolution.Call(env, tx, block, attempt).trace)| <= Budget(attempt)
    ensures RedirectSites(Resolution.Call(env, tx, block, attempt).trace, attempt)
    ensures SameCall(Resolution.Call(env, tx, block, attempt).trace, tx, block)
    decreases Budget(attempt), 2, 0
  {
    if attempt < MaxRedirectAttempt {
      var round := Round(env, tx, block, attempt, a);
      assert Resolution.Call(env, tx, block, attempt).trace == [] + round.trace;
      assert [] + round.trace == round.trace;
      RoundChain(env, tx, block, attempt, a);
    }
  }

  /** `AddressChain` for one round: its chain call, then the chain of the callback. */
  lemma {:induction false} RoundChain(env: Env, tx: Tx, block: Option<BlockId>, attempt: nat, a: Address)
    requires attempt < MaxRedirectAttempt && tx.to == Some(Addr(a))
    ensures |ChainSites(Round(env, tx, block, attempt, a).trace)| <= Budget(attempt)
    ensures RedirectSites(Round(env, tx, block, attempt, a).trace, attempt)
    ensures SameCall(Round(env, tx, block, attempt, a).trace, tx, block)
    decreases Budget(attempt), 1, 0
  {
    match Examine(env, tx, block, a)
    case Done(_) =>
      var first := [ChainCall(Redirect(attempt), tx, block)];
      assert Round(env, tx, block, attempt, a).trace == first;
      assert ChainSites(first) == [Redirect(attempt)];
    case Follow(lookup) =>
      FollowChain(env, tx, block, attempt, a, lookup);
  }

  /** `RoundChain` for a round that follows a lookup. */
  lemma {:induction false} FollowChain(env: Env, tx: Tx, block: Option<BlockId>, attempt: nat, a: Address,
                                       lookup: OffchainLookup)
    requires attempt < MaxRedirectAttempt && tx.to == Some(Addr(a))
    requires Examine(env, tx, block, a) == Follow(lookup)
    ensures |ChainSites(Round(env, tx, block, attempt, a).trace)| <= Budget(attempt)
    ensures RedirectSites(Round(env, tx, block, attempt, a).trace, attempt)
    ensures SameCall(Round(env, tx, block, attempt, a).trace, tx, block)
    decreases Budget(attempt), 0, 1
  {
    var fetched := Fetch(env, tx, lookup);
    DispatchOnlyGateway(env, lookup.sender, tx, lookup.callData, lookup.urls);
    AskedChain(fetched.trace, attempt, tx, block);
    if fetched.outcome.Ok? {
      CallbackChain(env, tx, block, attempt, a, lookup);
    } else {
      StoppedRound(env, tx, block, attempt, a, lookup);
    }
  }

  /** `FollowChain` when the gateways answered: the round's chain call, then the callback's chain. */
  lemma {:induction false} CallbackChain(env: Env, tx: Tx, block: Option<BlockId>, attempt: nat, a: Address,
                                         lookup: OffchainLookup)
    requires attempt < MaxRedirectAttempt && tx.to == Some(Addr(a))
    requires Examine(env, tx, block, a) == Follow(lookup) && Fetch(env, tx, lookup).outcome.Ok?
    ensures |ChainSites(Round(env, tx, block, attempt, a).trace)| <= Budget(attempt)
    ensures RedirectSites(Round(env, tx, block, attempt, a).trace, attempt)
    ensures SameCall(Round(env, tx, block, attempt, a).trace, tx, block)
    decreases Budget(attempt), 0, 0
  {
    var fetched := Fetch(env, tx, lookup);
    var asked := [ChainCall(Redirect(attempt), tx, block)] + fetched.trace;
    DispatchOnlyGateway(env, lookup.sender, tx, lookup.callData, lookup.urls);
    AskedChain(fetched.trace, attempt, tx, block);
    var next := CallbackTx(env.abi, tx, lookup, fetched.outcome.value);
    AddressChain(env, next, block, attempt + 1, a);
    var rest := Resolution.Call(env, next, block, attempt + 1);
    assert Round(env, tx, block, attempt, a).trace == asked + rest.trace;
    RoundSteps(asked, rest.trace, attempt, tx, next, block);
  }

  /** The chain call of a round followed by gateway requests only. */
  lemma AskedChain(gateways: seq<Event>, attempt: nat, tx: Tx, block: Option<BlockId>)
    requires OnlyGateway(gateways)
    ensures ChainSites([ChainCall(Redirect(attempt), tx, block)] + gateways) == [Redirect(attempt)]
    ensures SameCall([ChainCall(Redirect(attempt), tx, block)] + gateways, tx, block)
  {
    var first := [ChainCall(Redirect(attempt), tx, block)];
    OnlyGatewayNoSites(gateways);
    ChainSitesAppend(first, gateways);
    var asked := first + gateways;
    assert forall k :: 0 < k < |asked| ==> asked[k] == gateways[k - 1];
  }

  /** A round whose gateways did not answer ends with the gateways' trace. */
  lemma StoppedRound(env: Env, tx: Tx, block: Option<BlockId>, attempt: nat, a: Address, lookup: OffchainLookup)
    requires attempt < MaxRedirectAttempt && tx.to.Some?
    requires Examine(env, tx, block, a) == Follow(lookup) && !Fetch(env, tx, lookup).outcome.Ok?
    ensures Round(env, tx, block, attempt, a).trace
         == [ChainCall(Redirect(attempt), tx, block)] + Fetch(env, tx, lookup).trace
  {
  }

  /** The bookkeeping of one followed redirect: the round's chain call, then the rest of the chain. */
  lemma RoundSteps(asked: seq<Event>, rest: seq<Event>, attempt: nat, tx: Tx, next: Tx, block: Option<BlockId>)
    requires ChainSites(asked) == [Redirect(attempt)] && SameCall(asked, tx, block)
    requires RedirectSites(rest, attempt + 1) && SameCall(rest, next, block)
    requires next.to == tx.to && next.from == tx.from && next.value == tx.value
    requires attempt < MaxRedirectAttempt && |ChainSites(rest)| <= Budget(attempt + 1)
    ensures |ChainSites(asked + rest)| <= Budget(attempt)
    ensures RedirectSites(asked + rest, attempt) && SameCall(asked + rest, tx, block)
  {
    var trace := asked + rest;
    ChainSitesAppend(asked, rest);
    var sites := ChainSites(trace);
    forall i | 0 <= i < |sites| ensures sites[i] == Redirect(attempt + i) {
      if i > 0 {
        assert sites[i] == ChainSites(rest)[i - 1];
      }
    }
    forall k | 0 <= k < |trace| && trace[k].ChainCall?
      ensures trace[k].block == block && trace[k].tx.to == tx.to
      ensures trace[k].tx.from == tx.from && trace[k].tx.value == tx.value
    {
      if k >= |asked| {
        assert trace[k] == rest[k - |asked|];
      } else {
        assert trace[k] == asked[k];
      }
    }
  }

  /** A top-level call to an address makes at most ten chain calls. */
  lemma TopLevelAtMostTen(env: Env, tx: Tx, block: Option<BlockId>, a: Address)
    requires tx.to == Some(Addr(a))
    ensures |ChainSites(Resolution.Call(env, tx, block, 0).trace)| <= 10
  {
    AddressChain(env, tx, block, 0, a);
  }

  /**
   * Once its destination is known, a call is one round at the destination's address,
   * after the calls that found it; a destination that cannot be found ends the call there.
   */
  lemma CallIsRound(env: Env, tx: Tx, block: Option<BlockId>, attempt: nat)
    requires attempt < MaxRedirectAttempt && tx.to.Some?
    ensures var target := Destination(env, tx);
      && (!target.outcome.Ok? ==>
            Resolution.Call(env, tx, block, attempt) == Run(target.outcome.Propagate(), target.trace))
      && (target.outcome.Ok? ==>
            var round := Round(env, tx, block, attempt, target.outcome.value);
            Resolution.Call(env, tx, block, attempt) == Run(round.outcome, target.trace + round.trace))
  {
  }

  /**
   * A provider error that is not a JSON-RPC error response is returned as it is, after the
   * destination's resolution and the one chain call.
   */
  lemma ProviderErrorPassThrough(env: Env, tx: Tx, block: Option<BlockId>, attempt: nat, a: Address,
                                 e: ProviderError)
    requires attempt < MaxRedirectAttempt && tx.to.Some? && Destination(env, tx).outcome == Ok(a)
    requires env.chain(tx, block) == ProviderFailed(e) && e.response.None?
    ensures Resolution.Call(env, tx, block, attempt)
         == Run(Err(MiddlewareError(e)), Destination(env, tx).trace + [ChainCall(Redirect(attempt), tx, block)])
  {
    CallIsRound(env, tx, block, attempt);
  }

  /** An error response without revert data ends the call with "Data is null". */
  lemma NullDataError(env: Env, tx: Tx, block: Option<BlockId>, attempt: nat, a: Address,
                      e: ProviderError)
    requires attempt < MaxRedirectAttempt && tx.to.Some? && Destination(env, tx).outcome == Ok(a)
    requires env.chain(tx, block) == ProviderFailed(e) && e.response.Some?
    requires e.response.value.data.None? || e.response.value.data == Some(JNull)
    ensures Resolution.Call(env, tx, block, attempt)
         == Run(Err(TodoError("Data is null")), Destination(env, tx).trace + [ChainCall(Redirect(attempt), tx, block)])
  {
    CallIsRound(env, tx, block, attempt);
  }

  /**
   * A successful inner call whose output is shown as ethers shows bytes is returned as
   * that output, after exactly one chain call at the destination's address and no gateway
   * request.
   */
  lemma SuccessPassThrough(env: Env, tx: Tx, block: Option<BlockId>, attempt: nat, a: Address, b: Bytes)
    requires attempt < MaxRedirectAttempt && tx.to.Some? && Destination(env, tx).outcome == Ok(a)
    requires env.chain(tx, block) == Returned(b) && env.display(b) == "0x" + Hex.Encode(b)
    ensures Resolution.Call(env, tx, block, attempt)
         == Run(Ok(b), Destination(env, tx).trace + [ChainCall(Redirect(attempt), tx, block)])
  {
    CallIsRound(env, tx, block, attempt);
    DisplayedSuccessIsFinal(env, block, a, b);
  }

  /**
   * A lookup whose sender is not the destination's address (the given one, or the one its
   * name resolved to) fails before any gateway is asked.
   */
  lemma SenderMismatch(env: Env, tx: Tx, block: Option<BlockId>, attempt: nat, a: Address, s: string,
                       lookup: OffchainLookup)
    requires attempt < MaxRedirectAttempt && tx.to.Some? && Destination(env, tx).outcome == Ok(a)
    requires ResultText(env, env.chain(tx, block)) == Ok(s)
    requires Inspect(env.abi, block, a, s) == Follow(lookup) && lookup.sender != a
    ensures Resolution.Call(env, tx, block, attempt)
         == Run(Err(TodoError("SenderError")), Destination(env, tx).trace + [ChainCall(Redirect(attempt), tx, block)])
  {
    CallIsRound(env, tx, block, attempt);
  }

  /** An empty gateway answer fails with "GatewayNotFoundError", after the gateways were asked. */
  lemma GatewayNotFound(env: Env, tx: Tx, block: Option<BlockId>, attempt: nat, a: Address, s: string,
                        lookup: OffchainLookup)
    requires attempt < MaxRedirectAttempt && tx.to.Some? && Destination(env, tx).outcome == Ok(a)
    requires ResultText(env, env.chain(tx, block)) == Ok(s)
    requires Inspect(env.abi, block, a, s) == Follow(lookup) && lookup.sender == a
    requires Gateway.Dispatch(env, a, tx, lookup.callData, lookup.urls).outcome == Ok([])
    ensures Resolution.Call(env, tx, block, attempt)
         == Run(Err(TodoError("GatewayNotFoundError")),
                Destination(env, tx).trace + ([ChainCall(Redirect(attempt), tx, block)]
                + Gateway.Dispatch(env, a, tx, lookup.callData, lookup.urls).trace))
  {
    CallIsRound(env, tx, block, attempt);
  }

  /**
   * A redirect with a non-empty gateway answer is followed by the same loop, one attempt
   * later, at the same block, on a copy of the transaction whose data is the callback
   * selector followed by the ABI encoding of the answer and the extra data; the trace is
   * the resolution, the chain call, the gateway requests and the callback's own trace.
   */
  lemma RedirectFollowed(env: Env, tx: Tx, block: Option<BlockId>, attempt: nat, a: Address, s: string,
                         lookup: OffchainLookup, answer: Bytes)
    requires attempt < MaxRedirectAttempt && tx.to.Some? && Destination(env, tx).outcome == Ok(a)
    requires ResultText(env, env.chain(tx, block)) == Ok(s)
    requires Inspect(env.abi, block, a, s) == Follow(lookup) && lookup.sender == a
    requires Gateway.Dispatch(env, a, tx, lookup.callData, lookup.urls).outcome == Ok(answer) && answer != []
    ensures var next := Resolution.Call(env, tx.(data := Some(lookup.callbackSelector
              + env.abi.encodeBytesPair(answer, lookup.extraData))), block, attempt + 1);
      Resolution.Call(env, tx, block, attempt)
        == Run(next.outcome, Destination(env, tx).trace + ([ChainCall(Redirect(attempt), tx, block)]
               + Gateway.Dispatch(env, a, tx, lookup.callData, lookup.urls).trace + next.trace))
  {
    CallIsRound(env, tx, block, attempt);
    assert Examine(env, tx, block, a) == Follow(lookup);
    FollowedRound(env, tx, block, attempt, a, lookup);
  }

  /**
   * A named destination is resolved through `resolve_name` before the chain call; a failed
   * resolution is returned, and a resolved name is called as its round at the resolved
   * address, whose first event is the chain call.
   */
  lemma NameResolvedFirst(env: Env, tx: Tx, block: Option<BlockId>, attempt: nat, name: string)
    requires attempt < MaxRedirectAttempt && tx.to == Some(Name(name))
    ensures var resolved := ResolveName(env, name);
      && resolved.trace <= Resolution.Call(env, tx, block, attempt).trace
      && (!resolved.outcome.Ok? ==>
            Resolution.Call(env, tx, block, attempt) == Run(resolved.outcome.Propagate(), resolved.trace))
      && (resolved.outcome.Ok? ==>
            var round := Round(env, tx, block, attempt, resolved.outcome.value);
            && Resolution.Call(env, tx, block, attempt) == Run(round.outcome, resolved.trace + round.trace)
            && |Resolution.Call(env, tx, block, attempt).trace| > |resolved.trace|
            && Resolution.Call(env, tx, block, attempt).trace[|resolved.trace|] == ChainCall(Redirect(attempt), tx, block))
  {
    CallIsRound(env, tx, block, attempt);
    assert Destination(env, tx) == ResolveName(env, name);
  }
}
