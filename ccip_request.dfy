/**
 * The gateway dispatcher (`_ccip_request`): asks each gateway URL in turn for the answer
 * to an `OffchainLookup`, returns the first answer that hex-decodes, and otherwise reports
 * one error per URL.
 */
module Gateway {
  import opened Types
  import opened Errors
  import opened Oracles
  import opened Strings
  import Hex

  /** The request sent to one URL template, given the call data's hex (no prefix). */
  function RequestFor(url: string, sender: Address, dataHex: string): HttpRequest
  {
    var href := ReplaceAll(ReplaceAll(url, "{sender}", "0x" + Hex.Encode(sender)),
                           "{data}", "0x" + ToLower(dataHex));
    if Contains(url, "{data}") then Get(href) else Post(href, PostBody(dataHex, sender))
  }

  /** What one gateway's response means for the dispatch. */
  datatype Attempt =
    | Won(bytes: Bytes)              // `data` decoded: the dispatch returns it
    | Lost(error: RequestError)      // recorded, and the next URL is tried
    | Fatal(outcome: Outcome<Bytes>) // the dispatch stops with this failure

  function AttemptOf(response: HttpResult): Attempt
  {
    match response
    case TransportError(e) => Fatal(Err(ReqwestError(e)))
    case Response(body) =>
      if body.data.Some? then
        if |body.data.value| < 2 then Fatal(Abort(GatewayDataTooShort))
        else
          match Hex.Decode(body.data.value[2..])
          case Decoded(b) => Won(b)
          case BadHex(e) => Lost(DecodeDataHex(Hex.ErrorText(e)))
      else if body.message.Some? then Lost(RequestError.GatewayError(body.message.value))
      else Lost(NoMessage)
  }

  /** The index of the first attempt that is not `Lost`, or the number of attempts. */
  function FirstDecisive(attempts: seq<Attempt>): (n: nat)
    ensures n <= |attempts|
    ensures forall j :: 0 <= j < n ==> attempts[j].Lost?
    ensures n < |attempts| ==> !attempts[n].Lost?
  {
    if attempts == [] then 0
    else if attempts[0].Lost? then 1 + FirstDecisive(attempts[1..])
    else 0
  }

  function Requests(urls: seq<string>, sender: Address, dataHex: string): (rs: seq<HttpRequest>)
    ensures |rs| == |urls|
  {
    seq(|urls|, j requires 0 <= j < |urls| => RequestFor(urls[j], sender, dataHex))
  }

  function Attempts(http: HttpRequest -> HttpResult, requests: seq<HttpRequest>): (atts: seq<Attempt>)
    ensures |atts| == |requests|
  {
    seq(|requests|, j requires 0 <= j < |requests| => AttemptOf(http(requests[j])))
  }

  function Calls(requests: seq<HttpRequest>): (trace: seq<Event>)
    ensures |trace| == |requests|
  {
    seq(|requests|, j requires 0 <= j < |requests| => GatewayCall(requests[j]))
  }

  function LostErrors(attempts: seq<Attempt>, n: nat): (errors: seq<RequestError>)
    requires n <= |attempts| && forall j :: 0 <= j < n ==> attempts[j].Lost?
    ensures |errors| == n
  {
    seq(n, j requires 0 <= j < n => attempts[j].error)
  }

  /**
   * The dispatch, stated declaratively: nothing is asked when there are no URLs or no
   * destination; otherwise the URLs are asked in order up to and including the first one
   * that is not lost, and that one decides the outcome.
   */
  function Dispatch(env: Env, sender: Address, tx: Tx, callData: Bytes, urls: seq<string>): Run<Bytes>
  {
    if |urls| == 0 || tx.to.None? then Run(Ok([]), [])
    else
      var requests := Requests(urls, sender, Hex.Encode(callData));
      var attempts := Attempts(env.http, requests);
      var n := FirstDecisive(attempts);
      if n == |urls| then
        Run(Err(CcipError.GatewayError(GatewayErrors(LostErrors(attempts, n)))), Calls(requests))
      else
        Run(if attempts[n].Won? then Ok(attempts[n].bytes) else attempts[n].outcome,
            Calls(requests[..n + 1]))
  }

  /** `_ccip_request`, as the source writes it: one loop over the URLs with early returns. */
  method CcipRequest(env: Env, sender: Address, tx: Tx, callData: Bytes, urls: seq<string>)
    returns (outcome: Outcome<Bytes>, ghost trace: seq<Event>)
    ensures outcome == Dispatch(env, sender, tx, callData, urls).outcome
    ensures trace == Dispatch(env, sender, tx, callData, urls).trace
  {
    if |urls| == 0 || tx.to.None? {
      return Ok([]), [];
    }
    var data := Hex.Encode(callData);
    ghost var requests := Requests(urls, sender, data);
    ghost var attempts := Attempts(env.http, requests);
    var errorMessages: seq<RequestError> := [];
    trace := [];
    for i := 0 to |urls|
      invariant forall j :: 0 <= j < i ==> attempts[j].Lost?
      invariant errorMessages == LostErrors(attempts, i)
      invariant trace == Calls(requests[..i])
    {
      var request := BuildRequest(urls[i], sender, data);
      assert requests[..i + 1] == requests[..i] + [request];
      trace := trace + [GatewayCall(request)];
      assert attempts[i] == AttemptOf(env.http(request));
      if !attempts[i].Lost? {
        DecidedAt(attempts, i);
      } else {
        LostErrorsStep(attempts, i);
      }
      match env.http(request) {
        case TransportError(e) =>
          return Err(ReqwestError(e)), trace;
        case Response(result) =>
          if result.data.Some? {
            var returnedData := result.data.value;
            if |returnedData| < 2 {
              return Abort(GatewayDataTooShort), trace;
            }
            match Hex.Decode(returnedData[2..]) {
              case Decoded(decoded) =>
                return Ok(decoded), trace;
              case BadHex(e) =>
                errorMessages := errorMessages + [DecodeDataHex(Hex.ErrorText(e))];
                continue;
            }
          }
          errorMessages := errorMessages + [
            if result.message.Some? then RequestError.GatewayError(result.message.value) else NoMessage
          ];
      }
    }
    assert requests[..|urls|] == requests;
    return Err(CcipError.GatewayError(GatewayErrors(errorMessages))), trace;
  }

  /**
   * The request for one URL template: `{sender}` and `{data}` filled in with 0x-prefixed
   * hex, a GET exactly when the template names `{data}`, else a POST whose body carries the
   * unprefixed data hex and the sender.
   */
  method BuildRequest(url: string, sender: Address, data: string) returns (request: HttpRequest)
    ensures request.url == ReplaceAll(ReplaceAll(url, "{sender}", "0x" + Hex.Encode(sender)),
                                      "{data}", "0x" + ToLower(data))
    ensures request.Get? <==> Contains(url, "{data}")
    ensures request.Post? ==> request.body == PostBody(data, sender)
    ensures request == RequestFor(url, sender, data)
  {
    var href := ReplaceAll(ReplaceAll(url, "{sender}", "0x" + Hex.Encode(sender)),
                           "{data}", "0x" + ToLower(data));
    request := if Contains(url, "{data}") then Get(href) else Post(href, PostBody(data, sender));
  }

  /** One more lost attempt adds its error to the end of the recorded ones. */
  lemma LostErrorsStep(attempts: seq<Attempt>, i: nat)
    requires i < |attempts| && forall j :: 0 <= j <= i ==> attempts[j].Lost?
    ensures LostErrors(attempts, i + 1) == LostErrors(attempts, i) + [attempts[i].error]
  {
  }

  /** An attempt that is not lost, after lost ones only, is the first decisive one. */
  lemma DecidedAt(attempts: seq<Attempt>, i: nat)
    requires i < |attempts| && !attempts[i].Lost?
    requires forall j :: 0 <= j < i ==> attempts[j].Lost?
    ensures FirstDecisive(attempts) == i
  {
  }

  // ----- Display of the accumulated errors -----

  /** The `thiserror` text of one request error. */
  function RequestErrorText(e: RequestError): string
  {
    match e
    case GatewayError(m) => "Gateway Error: " + m
    case NoMessage => "No message"
    case Message(_) => "Message"
    case DecodeDataHex(m) => "Failed to decode " + m
  }

  /** The line `format!("{}\n", error)` pushed for one error. */
  function ErrorLine(e: RequestError): string
  {
    RequestErrorText(e) + "\n"
  }

  /** One line per error, each ended by a newline, in order. */
  function ErrorsText(errors: seq<RequestError>): string
  {
    if errors == [] then [] else ErrorLine(errors[0]) + ErrorsText(errors[1..])
  }

  lemma {:induction false} ErrorsTextAppend(errors: seq<RequestError>, e: RequestError)
    ensures ErrorsText(errors + [e]) == ErrorsText(errors) + ErrorLine(e)
  {
    if errors == [] {
      assert errors + [e] == [e];
    } else {
      assert (errors + [e])[1..] == errors[1..] + [e];
      ErrorsTextAppend(errors[1..], e);
    }
  }

  lemma ErrorsTextPrefix(errors: seq<RequestError>, i: nat)
    requires i < |errors|
    ensures ErrorsText(errors[..i + 1]) == ErrorsText(errors[..i]) + ErrorLine(errors[i])
  {
    assert errors[..i + 1] == errors[..i] + [errors[i]];
    ErrorsTextAppend(errors[..i], errors[i]);
  }

  /** `Display for CCIPGatewayErrors`: `push_str` of every error's line into one string. */
  method DisplayGatewayErrors(errors: GatewayErrors) returns (text: string)
    ensures text == ErrorsText(errors.inner)
  {
    text := "";
    for i := 0 to |errors.inner|
      invariant text == ErrorsText(errors.inner[..i])
    {
      ErrorsTextPrefix(errors.inner, i);
      text := text + ErrorLine(errors.inner[i]);
    }
    assert errors.inner[..|errors.inner|] == errors.inner;
  }

  /** When no error text has a line break of its own, the display has one line per error. */
  lemma {:induction false} ErrorsTextLines(errors: seq<RequestError>)
    requires forall j :: 0 <= j < |errors| ==> '\n' !in RequestErrorText(errors[j])
    ensures CountChar(ErrorsText(errors), '\n') == |errors|
  {
    if errors != [] {
      var head := RequestErrorText(errors[0]);
      CountCharAppend(head + "\n", ErrorsText(errors[1..]), '\n');
      CountCharAppend(head, "\n", '\n');
      CountCharAbsent(head, '\n');
      ErrorsTextLines(errors[1..]);
    }
  }

  // ----- Properties of the dispatch -----

  /** Nothing is requested, and empty bytes come back, without URLs or without a destination. */
  lemma NothingToAsk(env: Env, sender: Address, tx: Tx, callData: Bytes, urls: seq<string>)
    requires |urls| == 0 || tx.to.None?
    ensures Dispatch(env, sender, tx, callData, urls) == Run(Ok([]), [])
  {
  }

  /** A fatal attempt stops the dispatch with a client error or a panic, never with bytes. */
  lemma FatalOutcome(response: HttpResult)
    requires AttemptOf(response).Fatal?
    ensures AttemptOf(response).outcome.Abort?
         || (AttemptOf(response).outcome.Err? && AttemptOf(response).outcome.error.ReqwestError?)
  {
  }

  /** What asking URL j, alone, means for the dispatch. */
  function AttemptAt(env: Env, sender: Address, callData: Bytes, urls: seq<string>, j: nat): Attempt
    requires j < |urls|
  {
    AttemptOf(env.http(RequestFor(urls[j], sender, Hex.Encode(callData))))
  }

  /** The requests of the first k URLs, as gateway calls. */
  function Asked(sender: Address, callData: Bytes, urls: seq<string>, k: nat): seq<Event>
    requires k <= |urls|
  {
    Calls(Requests(urls, sender, Hex.Encode(callData))[..k])
  }

  /**
   * A dispatch that returns bytes got them from some URL i whose `data` decoded to them,
   * after every earlier URL failed softly; URLs after i were never asked.
   */
  lemma FirstSuccessWins(env: Env, sender: Address, tx: Tx, callData: Bytes, urls: seq<string>, b: Bytes)
    requires |urls| > 0 && tx.to.Some?
    requires Dispatch(env, sender, tx, callData, urls).outcome == Ok(b)
    ensures exists i ::
      && 0 <= i < |urls|
      && AttemptAt(env, sender, callData, urls, i) == Won(b)
      && (forall j :: 0 <= j < i ==> AttemptAt(env, sender, callData, urls, j).Lost?)
      && Dispatch(env, sender, tx, callData, urls).trace == Asked(sender, callData, urls, i + 1)
  {
    var requests := Requests(urls, sender, Hex.Encode(callData));
    var attempts := Attempts(env.http, requests);
    var n := FirstDecisive(attempts);
    assert forall j :: 0 <= j < |urls| ==> attempts[j] == AttemptAt(env, sender, callData, urls, j);
    if attempts[n].Fatal? {
      FatalOutcome(env.http(requests[n]));
    }
    assert AttemptAt(env, sender, callData, urls, n) == Won(b);
  }

  /**
   * The converse of `FirstSuccessWins`: when every URL before i fails softly and the `data`
   * of URL i decodes to b, the dispatch returns b after asking exactly the first i + 1 URLs.
   */
  lemma FirstSuccessReturned(env: Env, sender: Address, tx: Tx, callData: Bytes, urls: seq<string>,
                             i: nat, b: Bytes)
    requires tx.to.Some? && i < |urls|
    requires forall j :: 0 <= j < i ==> AttemptAt(env, sender, callData, urls, j).Lost?
    requires AttemptAt(env, sender, callData, urls, i) == Won(b)
    ensures Dispatch(env, sender, tx, callData, urls) == Run(Ok(b), Asked(sender, callData, urls, i + 1))
  {
    var requests := Requests(urls, sender, Hex.Encode(callData));
    var attempts := Attempts(env.http, requests);
    assert forall j :: 0 <= j < |urls| ==> attempts[j] == AttemptAt(env, sender, callData, urls, j);
    DecidedAt(attempts, i);
  }

  /** The dispatch fails with the accumulated errors exactly when every URL fails softly. */
  lemma AllFailIff(env: Env, sender: Address, tx: Tx, callData: Bytes, urls: seq<string>)
    requires |urls| > 0 && tx.to.Some?
    ensures var o := Dispatch(env, sender, tx, callData, urls).outcome;
      (o.Err? && o.error.GatewayError?)
        <==> (forall j :: 0 <= j < |urls| ==> AttemptAt(env, sender, callData, urls, j).Lost?)
  {
    var requests := Requests(urls, sender, Hex.Encode(callData));
    var attempts := Attempts(env.http, requests);
    var n := FirstDecisive(attempts);
    assert forall j :: 0 <= j < |urls| ==> attempts[j] == AttemptAt(env, sender, callData, urls, j);
    if n < |urls| && attempts[n].Fatal? {
      FatalOutcome(env.http(requests[n]));
    }
  }

  /**
   * When every URL fails softly there is one error per URL, in input order, and every URL
   * was asked once, in order.
   */
  lemma AllFailErrors(env: Env, sender: Address, tx: Tx, callData: Bytes, urls: seq<string>)
    requires |urls| > 0 && tx.to.Some?
    requires forall j :: 0 <= j < |urls| ==> AttemptAt(env, sender, callData, urls, j).Lost?
    ensures var r := Dispatch(env, sender, tx, callData, urls);
      && r.outcome.Err? && r.outcome.error.GatewayError?
      && |r.outcome.error.gateway.inner| == |urls|
      && (forall j :: 0 <= j < |urls| ==>
            r.outcome.error.gateway.inner[j] == AttemptAt(env, sender, callData, urls, j).error)
      && r.trace == Asked(sender, callData, urls, |urls|)
  {
    var requests := Requests(urls, sender, Hex.Encode(callData));
    var attempts := Attempts(env.http, requests);
    assert forall j :: 0 <= j < |urls| ==> attempts[j] == AttemptAt(env, sender, callData, urls, j);
    assert requests[..|urls|] == requests;
  }

  /**
   * A transport or JSON failure at URL i, after softly failed URLs, ends the whole
   * dispatch with that error; no later URL is asked.
   */
  lemma TransportErrorAborts(env: Env, sender: Address, tx: Tx, callData: Bytes, urls: seq<string>,
                             i: nat, e: HttpError)
    requires tx.to.Some? && i < |urls|
    requires forall j :: 0 <= j < i ==> AttemptAt(env, sender, callData, urls, j).Lost?
    requires env.http(RequestFor(urls[i], sender, Hex.Encode(callData))) == TransportError(e)
    ensures Dispatch(env, sender, tx, callData, urls)
         == Run(Err(ReqwestError(e)), Asked(sender, callData, urls, i + 1))
  {
    var requests := Requests(urls, sender, Hex.Encode(callData));
    var attempts := Attempts(env.http, requests);
    assert forall j :: 0 <= j < i ==> attempts[j].Lost? by {
      assert forall j :: 0 <= j < |urls| ==> attempts[j] == AttemptAt(env, sender, callData, urls, j);
    }
    assert attempts[i] == Fatal(Err(ReqwestError(e)));
    DecidedAt(attempts, i);
  }

  /**
   * The request for one URL: a GET exactly when the template names `{data}`, else a POST
   * whose body carries the unprefixed call-data hex and the sender; the call-data hex is
   * lower case with two digits per byte and decodes back to the call data.
   */
  lemma RequestShape(url: string, sender: Address, callData: Bytes)
    ensures var h := Hex.Encode(callData);
      var r := RequestFor(url, sender, h);
      && |h| == 2 * |callData|
      && Hex.IsHexDigits(h) && ToLower(h) == h
      && Hex.Decode(h) == Hex.Decoded(callData)
      && (r.Get? <==> Contains(url, "{data}"))
      && (r.Post? ==> r.body == PostBody(h, sender))
      && r.url == ReplaceAll(ReplaceAll(url, "{sender}", "0x" + Hex.Encode(sender)), "{data}", "0x" + h)
  {
    Hex.EncodeIsLowerHex(callData);
    Hex.DecodeEncode(callData);
  }

  /** A template without placeholders is requested as it is, by POST. */
  lemma PlainTemplate(url: string, sender: Address, callData: Bytes)
    requires !Contains(url, "{sender}") && !Contains(url, "{data}")
    ensures RequestFor(url, sender, Hex.Encode(callData))
         == Post(url, PostBody(Hex.Encode(callData), sender))
  {
    ReplaceAllAbsent(url, "{sender}", "0x" + Hex.Encode(sender));
    ReplaceAllAbsent(url, "{data}", "0x" + ToLower(Hex.Encode(callData)));
  }

  lemma {:induction false} NoBraceNoPattern(s: string, pattern: string)
    requires |pattern| > 0 && pattern[0] == '{' && '{' !in s
    ensures !Contains(s, pattern)
    decreases |s|
  {
    if s != [] {
      assert s[0] != '{';
      NoBraceNoPattern(s[1..], pattern);
    }
  }

  lemma HexHasNoBrace(b: Bytes)
    ensures '{' !in "0x" + Hex.Encode(b)
  {
    Hex.EncodeIsLowerHex(b);
    var s := "0x" + Hex.Encode(b);
    forall k | 0 <= k < |s| ensures s[k] != '{' {
      if k >= 2 {
        assert s[k] == Hex.Encode(b)[k - 2];
      }
    }
  }

  /** After "{sender}" is replaced, "/{data}…" has no "{sender}" left: its only brace opens "{data}". */
  lemma DataTailHasNoSender(rest: string)
    requires '{' !in rest
    ensures !Contains("/{data}" + rest, "{sender}")
  {
    var s := "/{data}" + rest;
    assert s[0] == '/';
    assert !StartsWith(s, "{sender}");
    var t := s[1..];
    assert t[1] == 'd';
    assert !StartsWith(t, "{sender}");
    assert t[1..] == "data}" + rest;
    NoBraceNoPattern("data}" + rest, "{sender}");
  }

  /**
   * A template `prefix{sender}/{data}suffix` is requested by GET, with the sender as
   * 0x-prefixed lower-case hex and the call data as 0x-prefixed hex in their places.
   */
  lemma SubstitutedTemplate(prefix: string, suffix: string, sender: Address, callData: Bytes)
    requires '{' !in prefix && '{' !in suffix
    ensures var h := Hex.Encode(callData);
      RequestFor(prefix + "{sender}/{data}" + suffix, sender, h)
        == Get(prefix + "0x" + Hex.Encode(sender) + "/0x" + h + suffix)
  {
    var h := Hex.Encode(callData);
    var url := prefix + "{sender}/{data}" + suffix;
    var s := "0x" + Hex.Encode(sender);
    var replaced := ReplaceAll(ReplaceAll(url, "{sender}", s), "{data}", "0x" + h);
    assert replaced == prefix + "0x" + Hex.Encode(sender) + "/0x" + h + suffix by {
      HexHasNoBrace(sender);
      BothReplaced(prefix, suffix, s, "0x" + h);
      Regrouped(prefix, Hex.Encode(sender), h, suffix);
    }
    assert RequestFor(url, sender, h) == Get(replaced) by {
      Hex.EncodeIsLowerHex(callData);
      DataInTemplate(prefix, suffix);
      GetFor(url, sender, h);
    }
  }

  lemma Regrouped(prefix: string, e: string, h: string, suffix: string)
    ensures prefix + ("0x" + e) + "/" + ("0x" + h) + suffix == prefix + "0x" + e + "/0x" + h + suffix
  {
    assert "/" + ("0x" + h) == "/0x" + h;
  }

  /** A template naming `{data}` is requested by GET at its substituted URL. */
  lemma GetFor(url: string, sender: Address, h: string)
    requires Contains(url, "{data}") && ToLower(h) == h
    ensures RequestFor(url, sender, h)
         == Get(ReplaceAll(ReplaceAll(url, "{sender}", "0x" + Hex.Encode(sender)), "{data}", "0x" + h))
  {
  }

  lemma BothReplaced(prefix: string, suffix: string, s: string, d: string)
    requires '{' !in prefix && '{' !in suffix && '{' !in s
    ensures ReplaceAll(ReplaceAll(prefix + "{sender}/{data}" + suffix, "{sender}", s), "{data}", d)
         == prefix + s + "/" + d + suffix
  {
    FirstReplace(prefix, suffix, s);
    var a := prefix + s + "/";
    assert prefix + s + ("/{data}" + suffix) == a + "{data}" + suffix;
    SecondReplace(a, suffix, d);
  }

  lemma DataInTemplate(prefix: string, suffix: string)
    ensures Contains(prefix + "{sender}/{data}" + suffix, "{data}")
  {
    assert prefix + "{sender}/{data}" + suffix == (prefix + "{sender}/") + ("{data}" + suffix);
    ContainsWithin(prefix + "{sender}/", "{data}" + suffix, "{data}");
  }

  lemma FirstReplace(prefix: string, suffix: string, s: string)
    requires '{' !in prefix && '{' !in suffix
    ensures ReplaceAll(prefix + "{sender}/{data}" + suffix, "{sender}", s) == prefix + s + ("/{data}" + suffix)
  {
    var rest := "/{data}" + suffix;
    assert prefix + "{sender}/{data}" + suffix == prefix + "{sender}" + rest;
    ReplaceAllSplice(prefix, "{sender}", rest, s);
    DataTailHasNoSender(suffix);
    ReplaceAllAbsent(rest, "{sender}", s);
  }

  lemma SecondReplace(a: string, suffix: string, d: string)
    requires '{' !in a && '{' !in suffix
    ensures ReplaceAll(a + "{data}" + suffix, "{data}", d) == a + d + suffix
  {
    ReplaceAllSplice(a, "{data}", suffix, d);
    NoBraceNoPattern(suffix, "{data}");
    ReplaceAllAbsent(suffix, "{data}", d);
  }
}
