/**
 * The pure steps of the redirect loop (`_call`): reading the inner client's answer as
 * text, deciding whether that text is an `OffchainLookup` revert, and building the
 * callback transaction.
 */
module Offchain {
  import opened Types
  import opened Errors
  import opened Oracles
  import opened Strings
  import Hex

  /** The revert text as it is inspected: quotes trimmed from both ends, then every leading "0x". */
  function NormaliseRevert(t: string): (r: string)
    ensures !StartsWith(r, "0x")
    ensures |r| <= |t|
  {
    TrimStartMatches(TrimMatches(t, '"'), "0x")
  }

  /** `serialize(block_id.unwrap_or(Latest)) == "latest"`. */
  predicate IsLatest(block: Option<BlockId>)
  {
    block.None? || block == Some(AtNumber(Latest))
  }

  /**
   * The text the loop inspects: the display form of a successful output, else the revert
   * data of a JSON-RPC error response; other provider errors and null data end the call.
   */
  function ResultText(env: Env, raw: ChainResult): Outcome<string>
  {
    match raw
    case Returned(b) => Ok(env.display(b))
    case ProviderFailed(e) =>
      if e.response.None? then Err(MiddlewareError(e))
      else
        var data := e.response.value.data.GetOr(JNull);
        if data.JNull? then Err(TodoError("Data is null"))
        else Ok(NormaliseRevert(data.rendered))
  }

  /** What the inspected text tells the loop to do. */
  datatype Step = Done(outcome: Outcome<Bytes>) | Follow(lookup: OffchainLookup)

  /** The non-redirect ending: the text parsed as bytes, or `GatewayError`. */
  function FinalOf(s: string): (r: Step)
    ensures r.Done?
    ensures r.outcome.Ok? <==> Hex.ParseBytes(s).Decoded?
    ensures r.outcome.Ok? ==> r.outcome.value == Hex.ParseBytes(s).bytes
    ensures !r.outcome.Ok? ==> r.outcome == Err(TodoError("GatewayError"))
  {
    match Hex.ParseBytes(s)
    case Decoded(b) => Done(Ok(b))
    case BadHex(_) => Done(Err(TodoError("GatewayError")))
  }

  /**
   * The shape test and the revert decoding. The test's four conditions are evaluated left
   * to right, so the hex decode (which panics on bad hex) runs only after the first three.
   */
  function Inspect(abi: Abi, block: Option<BlockId>, txSender: Address, s: string): Step
  {
    if IsLatest(block) && txSender != Zero && StartsWith(s, OffchainLookupPrefix) then
      match Hex.Decode(s)
      case BadHex(_) => Done(Abort(RevertNotHex))
      case Decoded(b) =>
        if |b| % 32 == 4 then
          match Hex.Decode(s[8..])
          case BadHex(_) => Done(Abort(RevertNotHex))
          case Decoded(payload) =>
            match abi.decodeLookup(payload)
            case None => Done(Abort(LookupUndecodable))
            case Some(lookup) => Follow(lookup)
        else FinalOf(s)
    else FinalOf(s)
  }

  /** The retried transaction: a copy of the original with the callback's call data. */
  function CallbackTx(abi: Abi, tx: Tx, lookup: OffchainLookup, result: Bytes): (r: Tx)
    ensures r.to == tx.to && r.from == tx.from && r.value == tx.value
    ensures r.data.Some? && |r.data.value| >= 4
    ensures r.data.value[..4] == lookup.callbackSelector
    ensures r.data.value[4..] == abi.encodeBytesPair(result, lookup.extraData)
  {
    tx.(data := Some(lookup.callbackSelector + abi.encodeBytesPair(result, lookup.extraData)))
  }

  // ----- Properties -----

  /** Quotes and one "0x" around a hex payload are removed, leaving the payload. */
  lemma NormaliseQuoted(h: string)
    requires Hex.IsHexDigits(h)
    ensures NormaliseRevert("\"0x" + h + "\"") == h
  {
    var v := "0x" + h;
    if h != [] {
      assert v[|v| - 1] == h[|h| - 1];
      assert Hex.Nibble(h[|h| - 1]).Some?;
    }
    QuotesTrimmed(v);
    assert "\"" + v + "\"" == "\"0x" + h + "\"";
    PrefixTrimmed(h);
  }

  /** Trimming quotes from a quoted text that neither starts nor ends with a quote. */
  lemma QuotesTrimmed(v: string)
    requires |v| >= 2 && v[0] != '"' && v[|v| - 1] != '"'
    ensures TrimMatches("\"" + v + "\"", '"') == v
  {
    var t := "\"" + v + "\"";
    var u := v + "\"";
    assert t[0] == '"' && t[1..] == u;
    assert u[0] == v[0];
    assert TrimStart(u, '"') == u;
    assert TrimStart(t, '"') == u;
    assert u[|u| - 1] == '"' && u[..|u| - 1] == v;
    assert TrimEnd(v, '"') == v;
  }

  /** One "0x" before hex digits is stripped, and no more. */
  lemma PrefixTrimmed(h: string)
    requires Hex.IsHexDigits(h)
    ensures TrimStartMatches("0x" + h, "0x") == h
  {
    var v := "0x" + h;
    assert StartsWith(v, "0x") && v[2..] == h;
    if |h| >= 2 {
      assert Hex.Nibble(h[1]).Some?;
      assert h[..2][1] != 'x';
    }
    assert !StartsWith(h, "0x");
  }

  /**
   * The redirect branch is taken exactly when the block is the latest, the target is not
   * zero, the text starts with the selector, it decodes, its length is 4 more than a
   * multiple of 32 bytes, and the bytes after the selector decode as an `OffchainLookup`.
   */
  lemma InspectFollowIff(abi: Abi, block: Option<BlockId>, txSender: Address, s: string)
    ensures Inspect(abi, block, txSender, s).Follow? <==>
      && IsLatest(block) && txSender != Zero && StartsWith(s, OffchainLookupPrefix)
      && Hex.Decode(s).Decoded? && |Hex.Decode(s).bytes| % 32 == 4
      && abi.decodeLookup(Hex.Decode(s).bytes[4..]).Some?
    ensures Inspect(abi, block, txSender, s).Follow? ==>
      Inspect(abi, block, txSender, s).lookup == abi.decodeLookup(Hex.Decode(s).bytes[4..]).value
  {
    if IsLatest(block) && txSender != Zero && StartsWith(s, OffchainLookupPrefix) && Hex.Decode(s).Decoded? {
      var b := Hex.Decode(s).bytes;
      if |b| % 32 == 4 {
        Hex.DecodeDrop(s, 4);
        assert Hex.Decode(s[8..]) == Hex.Decoded(b[4..]);
      }
    }
  }

  /** A revert that is not hex after the selector test aborts the call instead of returning an error. */
  lemma BadHexRevertPanics(abi: Abi, block: Option<BlockId>, txSender: Address, s: string)
    requires IsLatest(block) && txSender != Zero && StartsWith(s, OffchainLookupPrefix)
    requires Hex.Decode(s).BadHex?
    ensures Inspect(abi, block, txSender, s) == Done(Abort(RevertNotHex))
  {
  }

  /**
   * A revert that passes the shape test but whose payload does not ABI-decode as an
   * `OffchainLookup` panics, rather than being returned as bytes.
   */
  lemma LookupUndecodablePanics(abi: Abi, block: Option<BlockId>, txSender: Address, s: string)
    requires IsLatest(block) && txSender != Zero && StartsWith(s, OffchainLookupPrefix)
    requires Hex.Decode(s).Decoded? && |Hex.Decode(s).bytes| % 32 == 4
    requires abi.decodeLookup(Hex.Decode(s).bytes[4..]).None?
    ensures Inspect(abi, block, txSender, s) == Done(Abort(LookupUndecodable))
  {
    Hex.DecodeDrop(s, 4);
  }

  /**
   * Without the redirect branch (a failed block, target or selector test, or a hex revert
   * whose length is not 4 more than a multiple of 32 bytes), the text is returned as bytes
   * when it parses, else `GatewayError`.
   */
  lemma NotRedirectIsFinal(abi: Abi, block: Option<BlockId>, txSender: Address, s: string)
    requires || !(IsLatest(block) && txSender != Zero && StartsWith(s, OffchainLookupPrefix))
             || (Hex.Decode(s).Decoded? && |Hex.Decode(s).bytes| % 32 != 4)
    ensures Inspect(abi, block, txSender, s) == FinalOf(s)
  {
  }

  /**
   * When the output of a successful call is shown the way ethers shows bytes ("0x" and
   * lower-case hex), the shape test cannot fire and the call returns that output itself.
   */
  lemma DisplayedSuccessIsFinal(env: Env, block: Option<BlockId>, txSender: Address, b: Bytes)
    requires env.display(b) == "0x" + Hex.Encode(b)
    ensures ResultText(env, Returned(b)) == Ok("0x" + Hex.Encode(b))
    ensures Inspect(env.abi, block, txSender, "0x" + Hex.Encode(b)) == Done(Ok(b))
  {
    var s := "0x" + Hex.Encode(b);
    assert s[0] == '0' && s[1] == 'x';
    assert !StartsWith(s, OffchainLookupPrefix) by {
      assert OffchainLookupPrefix[1] == '5';
    }
    Hex.ParseDisplayed(b);
  }

  /** A revert carried as a JSON string `"0x…"` is inspected as its bare hex. */
  lemma RevertTextOfQuotedHex(env: Env, e: ProviderError, h: string)
    requires e.response.Some? && e.response.value.data == Some(JText("\"0x" + h + "\""))
    requires Hex.IsHexDigits(h)
    ensures ResultText(env, ProviderFailed(e)) == Ok(h)
  {
    NormaliseQuoted(h);
  }
}
