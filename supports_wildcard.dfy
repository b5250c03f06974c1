/**
 * `supports_wildcard`: asks a resolver, through the redirect-following call, whether it
 * implements `resolve(bytes,bytes)` (ENSIP-10 wildcard resolution). The operation itself
 * is `Resolution.SupportsWildcard`, in the family of definitions that call each other;
 * this module states what it does.
 */
module Wildcard {
  import opened Types
  import opened Errors
  import opened Oracles
  import opened Resolution
  import Hex
  import Redirect

  /**
   * The probe's call data as the source writes it, a hex literal parsed at run time;
   * `Resolution.ProbeTx` carries the bytes it parses to.
   */
  const ProbeLiteral: string := "0x" + SelectorsHex + PaddingHex

  const SelectorsHex: string := "01ffc9a79061b923"

  /** The 56 '0' digits that end the literal. */
  const PaddingHex: string := ZeroDigits(56)

  function ZeroDigits(n: nat): string
  {
    if n == 0 then [] else "0" + ZeroDigits(n - 1)
  }

  // ----- Properties -----

  /**
   * The literal parses to the probe's call data: 36 bytes, the `supportsInterface`
   * selector, the `resolve(bytes,bytes)` selector as its argument, and 28 zero bytes of
   * padding.
   */
  lemma ProbeLiteralParses()
    ensures Hex.ParseBytes(ProbeLiteral) == Hex.Decoded(ProbeCallData)
    ensures |ProbeCallData| == 36
    ensures ProbeCallData[..4] == SupportsInterfaceSelector
    ensures ProbeCallData[4..8] == ResolveSelector
    ensures forall k :: 8 <= k < 36 ==> ProbeCallData[k] == 0
  {
    ProbeLayout();
    var selectors: Bytes := SupportsInterfaceSelector + ResolveSelector;
    assert Hex.Encode(ProbeCallData) == SelectorsHex + PaddingHex by {
      assert ProbeCallData == selectors + ProbePadding;
      Hex.EncodeAppend(selectors, ProbePadding);
      SelectorsEncode();
      ZerosEncode(28);
    }
    assert "0x" + Hex.Encode(ProbeCallData) == ProbeLiteral;
    Hex.ParseDisplayed(ProbeCallData);
  }

  lemma ProbeLayout()
    ensures |ProbeCallData| == 36
    ensures ProbeCallData[..4] == SupportsInterfaceSelector
    ensures ProbeCallData[4..8] == ResolveSelector
    ensures forall k :: 8 <= k < 36 ==> ProbeCallData[k] == 0
  {
    var selectors: Bytes := SupportsInterfaceSelector + ResolveSelector;
    assert ProbeCallData == selectors + ProbePadding;
    assert forall k :: 8 <= k < 36 ==> ProbeCallData[k] == ProbePadding[k - 8];
  }

  lemma SelectorsEncode()
    ensures Hex.Encode(SupportsInterfaceSelector + ResolveSelector) == SelectorsHex
  {
    Hex.EncodeAppend(SupportsInterfaceSelector, ResolveSelector);
    assert Hex.Encode(SupportsInterfaceSelector) == "01ffc9a7";
    assert Hex.Encode(ResolveSelector) == "9061b923";
  }

  /** Zero bytes are written as pairs of '0' digits. */
  lemma {:induction false} ZerosEncode(n: nat)
    ensures Hex.Encode(ZeroBytes(n)) == ZeroDigits(2 * n)
  {
    if n > 0 {
      ZerosEncode(n - 1);
      assert ZeroBytes(n)[1..] == ZeroBytes(n - 1);
      assert ZeroDigits(2 * n) == "00" + ZeroDigits(2 * (n - 1));
    }
  }

  /**
   * The resolver supports wildcards exactly when the probe returned a non-empty answer
   * that decodes as the number 1.
   */
  lemma ProbeTrueIff(env: Env, resolver: Address)
    ensures var call := Resolution.Call(env, ProbeTx(resolver), None, 0);
      Resolution.SupportsWildcard(env, resolver).outcome == Ok(true) <==>
        (call.outcome.Ok? && call.outcome.value != []
         && env.abi.decodeUint256(call.outcome.value) == Some(1))
  {
  }

  /** A probe that fails with an error (not a panic) answers "no", whatever the error. */
  lemma ProbeErrorIsFalse(env: Env, resolver: Address)
    requires Resolution.Call(env, ProbeTx(resolver), None, 0).outcome.Err?
    ensures Resolution.SupportsWildcard(env, resolver)
         == Run(Ok(false), Resolution.Call(env, ProbeTx(resolver), None, 0).trace)
  {
  }

  /** A panic inside the probe, or an answer that does not decode as a number, is a panic. */
  lemma ProbePanics(env: Env, resolver: Address)
    ensures var call := Resolution.Call(env, ProbeTx(resolver), None, 0);
      Resolution.SupportsWildcard(env, resolver).outcome.Abort? <==>
        (|| call.outcome.Abort?
         || (call.outcome.Ok? && call.outcome.value != []
             && env.abi.decodeUint256(call.outcome.value).None?))
  {
  }

  /**
   * The probe is one top-level call to the resolver at the latest block: it starts with
   * the probe transaction itself and makes at most ten chain calls, all of them rounds of
   * the redirect loop to the resolver.
   */
  lemma ProbeCalls(env: Env, resolver: Address)
    ensures var trace := Resolution.SupportsWildcard(env, resolver).trace;
      && |trace| > 0 && trace[0] == ChainCall(Redirect(0), ProbeTx(resolver), None)
      && |ChainSites(trace)| <= 10
      && Redirect.RedirectSites(trace, 0)
      && Redirect.SameCall(trace, ProbeTx(resolver), None)
  {
    var tx := ProbeTx(resolver);
    ProbeTrace(env, resolver);
    Redirect.AddressChain(env, tx, None, 0, resolver);
    CallStartsWithRound(env, tx, resolver);
  }

  /** The probe's trace is the trace of its call. */
  lemma ProbeTrace(env: Env, resolver: Address)
    ensures Resolution.SupportsWildcard(env, resolver).trace == Resolution.Call(env, ProbeTx(resolver), None, 0).trace
  {
  }

  /** A first call to an address starts with the first round's chain call. */
  lemma CallStartsWithRound(env: Env, tx: Tx, a: Address)
    requires tx.to == Some(Addr(a))
    ensures var trace := Resolution.Call(env, tx, None, 0).trace;
      |trace| > 0 && trace[0] == ChainCall(Redirect(0), tx, None)
  {
    var round := Round(env, tx, None, 0, a);
    assert Resolution.Call(env, tx, None, 0).trace == [] + round.trace;
  }
}
