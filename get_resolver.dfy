/**
 * `get_resolver`: walks a name up towards its top label, asking the ENS registry for each
 * name's resolver, until one is found; a resolver found for an ancestor counts only when
 * it supports wildcard resolution.
 */
module Discovery {
  import opened Types
  import opened Errors
  import opened Oracles
  import opened Strings
  import opened Resolution
  import Wildcard

  /** Method form of `get_resolver(ens_name)`: the source's loop over ever shorter names. */
  method GetResolver(env: Env, ensName: string) returns (outcome: Outcome<Address>, ghost trace: seq<Event>)
    ensures outcome == Discover(env, ensName, ensName).outcome
    ensures trace == Discover(env, ensName, ensName).trace
  {
    var currentName := ensName;
    var ensAddr := RegistryAddress(env);
    trace := [];
    while true
      invariant Discover(env, ensName, ensName)
             == Run(Discover(env, ensName, currentName).outcome, trace + Discover(env, ensName, currentName).trace)
      decreases |currentName|
    {
      if currentName == "" || currentName == "." {
        assert trace + [] == trace;
        return Ok(Zero), trace;
      }
      if ensName != "eth" && currentName == "eth" {
        assert trace + [] == trace;
        return Ok(Zero), trace;
      }
      var done, result;
      ghost var asked;
      done, result, asked := AskRegistry(env, ensName, currentName, ensAddr);
      if done {
        return result, trace + asked;
      }
      ghost var rest := Discover(env, ensName, DropFirstLabel(currentName));
      assert trace + (asked + rest.trace) == (trace + asked) + rest.trace;
      trace := trace + asked;
      var parent := DropFirstLabel(currentName);
      currentName := parent;
    }
  }

  /**
   * The body of the source's loop for a name that is asked about: the registry call, its
   * answer, and the probe of a resolver found for an ancestor. `done` is false exactly
   * when the loop goes on with the parent name.
   */
  method AskRegistry(env: Env, ensName: string, currentName: string, ensAddr: Address)
    returns (done: bool, outcome: Outcome<Address>, ghost asked: seq<Event>)
    requires ensAddr == RegistryAddress(env)
    requires currentName != "" && currentName != "." && !(ensName != "eth" && currentName == "eth")
    ensures !done <==> RegistryAnswer(env, currentName) == Some(Zero)
    ensures done ==> Discover(env, ensName, currentName) == Run(outcome, asked)
    ensures !done ==>
      (Discover(env, ensName, currentName)
       == Run(Discover(env, ensName, DropFirstLabel(currentName)).outcome,
              asked + Discover(env, ensName, DropFirstLabel(currentName)).trace))
  {
    var query := env.builders.getResolver(ensAddr, currentName);
    asked := [ChainCall(Registry(currentName), query, None)];
    done := true;
    match env.chain(query, None) {
      case ProviderFailed(e) =>
        return true, Err(TodoError("GR Error calling resolver: " + e.display)), asked;
      case Returned(data) =>
        if data == [] {
          return true, Ok(Zero), asked;
        }
        match env.abi.decodeAddress(data) {
          case None =>
            return true, Abort(DecodeBytesFailed), asked;
          case Some(resolverAddress) =>
            if resolverAddress != Zero {
              if currentName != ensName {
                var supported := Resolution.SupportsWildcard(env, resolverAddress);
                asked := asked + supported.trace;
                if !supported.outcome.Ok? {
                  return true, supported.outcome.Propagate(), asked;
                }
                if !supported.outcome.value {
                  return true, Ok(Zero), asked;
                }
              }
              return true, Ok(resolverAddress), asked;
            }
            done, outcome := false, Ok(Zero);
        }
    }
  }

  // ----- The walk -----

  /** A name, then its parent, and so on, while the name is neither empty nor the root ".". */
  function Ancestors(name: string): seq<string>
    decreases |name|
  {
    if name == "" || name == "." then [] else [name] + Ancestors(DropFirstLabel(name))
  }

  /** The names the registry was asked about, in order, among the sites of a trace's chain calls. */
  function RegistryNames(sites: seq<CallSite>): seq<string>
  {
    if sites == [] then []
    else (if sites[0].Registry? then [sites[0].name] else []) + RegistryNames(sites[1..])
  }

  lemma {:induction false} RegistryNamesAppend(a: seq<CallSite>, b: seq<CallSite>)
    ensures RegistryNames(a + b) == RegistryNames(a) + RegistryNames(b)
  {
    if a == [] {
      assert a + b == b;
    } else {
      assert (a + b)[1..] == a[1..] + b;
      RegistryNamesAppend(a[1..], b);
    }
  }

  lemma {:induction false} NoRegistrySites(sites: seq<CallSite>, attempt: nat)
    requires forall i :: 0 <= i < |sites| ==> sites[i] == Redirect(attempt + i)
    ensures RegistryNames(sites) == []
  {
    if sites != [] {
      assert forall i :: 0 <= i < |sites| - 1 ==> sites[1..][i] == Redirect(attempt + 1 + i);
      NoRegistrySites(sites[1..], attempt + 1);
    }
  }

  /** A wildcard probe never asks the registry. */
  lemma ProbeAsksNoRegistry(env: Env, resolver: Address)
    ensures RegistryNames(ChainSites(Resolution.SupportsWildcard(env, resolver).trace)) == []
  {
    Wildcard.ProbeCalls(env, resolver);
    NoRegistrySites(ChainSites(Resolution.SupportsWildcard(env, resolver).trace), 0);
  }

  /** Every ancestor is a suffix of the name, and the name is its own first ancestor. */
  lemma {:induction false} AncestorsAreSuffixes(name: string)
    ensures forall c :: c in Ancestors(name) ==> EndsWith(name, c)
    ensures name != "" && name != "." ==> Ancestors(name)[0] == name
    decreases |name|
  {
    if name != "" && name != "." {
      var parent := DropFirstLabel(name);
      AncestorsAreSuffixes(parent);
      assert EndsWith(name, parent) by {
        if '.' in name {
          assert parent == name[IndexOf(name, '.') + 1..];
        }
      }
      forall c | c in Ancestors(name) ensures EndsWith(name, c) {
        if c != name {
          assert c in Ancestors(parent);
          EndsWithTransitive(name, parent, c);
        }
      }
    }
  }

  /**
   * The registry is asked about a prefix of the name's ancestors, in order from the name
   * itself, and never about "eth" unless the name is "eth".
   */
  lemma {:induction false} AskedAncestors(env: Env, name: string, current: string)
    ensures RegistryNames(ChainSites(Discover(env, name, current).trace)) <= Ancestors(current)
    ensures name != "eth" ==> "eth" !in RegistryNames(ChainSites(Discover(env, name, current).trace))
    decreases |current|
  {
    var found := Discover(env, name, current);
    if current == "" || current == "." || (name != "eth" && current == "eth") {
      assert found.trace == [];
    } else {
      var query := env.builders.getResolver(RegistryAddress(env), current);
      var asked := [ChainCall(Registry(current), query, None)];
      assert RegistryNames(ChainSites(asked)) == [current];
      var parent := DropFirstLabel(current);
      assert Ancestors(current) == [current] + Ancestors(parent);
      if found.trace != asked {
        match env.chain(query, None)
        case ProviderFailed(_) =>
        case Returned(data) =>
          var resolver := env.abi.decodeAddress(data).value;
          if resolver != Zero {
            var probe := Resolution.SupportsWildcard(env, resolver);
            assert found.trace == asked + probe.trace;
            ChainSitesAppend(asked, probe.trace);
            RegistryNamesAppend(ChainSites(asked), ChainSites(probe.trace));
            ProbeAsksNoRegistry(env, resolver);
          } else {
            var rest := Discover(env, name, parent);
            assert found.trace == asked + rest.trace;
            ChainSitesAppend(asked, rest.trace);
            RegistryNamesAppend(ChainSites(asked), ChainSites(rest.trace));
            AskedAncestors(env, name, parent);
          }
      }
    }
  }

  /** `AskedAncestors` from the start of the walk. */
  lemma NeverAsksEth(env: Env, name: string)
    ensures RegistryNames(ChainSites(Discover(env, name, name).trace)) <= Ancestors(name)
    ensures name != "eth" ==> "eth" !in RegistryNames(ChainSites(Discover(env, name, name).trace))
  {
    AskedAncestors(env, name, name);
  }

  // ----- What a found resolver means -----

  /** The registry's answer about one name, when it names a resolver. */
  function RegistryAnswer(env: Env, c: string): Option<Address>
  {
    match env.chain(env.builders.getResolver(RegistryAddress(env), c), None)
    case ProviderFailed(_) => None
    case Returned(data) => if data == [] then None else env.abi.decodeAddress(data)
  }

  /**
   * A non-zero resolver was registered for the i-th ancestor; every nearer ancestor was
   * registered with the zero resolver; and the resolver was found for the name itself or
   * supports wildcard resolution.
   */
  lemma {:induction false} FoundAt(env: Env, name: string, current: string, r: Address) returns (i: nat)
    requires Discover(env, name, current).outcome == Ok(r) && r != Zero
    ensures i < |Ancestors(current)|
    ensures RegistryAnswer(env, Ancestors(current)[i]) == Some(r)
    ensures forall j :: 0 <= j < i ==> RegistryAnswer(env, Ancestors(current)[j]) == Some(Zero)
    ensures Ancestors(current)[i] == name || Resolution.SupportsWildcard(env, r).outcome == Ok(true)
    ensures name == "eth" || Ancestors(current)[i] != "eth"
    decreases |current|
  {
    var parent := DropFirstLabel(current);
    var here := FoundHereOrAbove(env, name, current, r);
    assert Ancestors(current) == [current] + Ancestors(parent);
    if here {
      i := 0;
    } else {
      var k := FoundAt(env, name, parent, r);
      FoundAbove(env, name, current, r, k, Resolution.SupportsWildcard(env, r).outcome == Ok(true));
      i := k + 1;
    }
  }

  /** A resolver found at the parent's k-th ancestor, below a zero entry, is at the name's (k+1)-th. */
  lemma FoundAbove(env: Env, name: string, current: string, r: Address, k: nat, wildcard: bool)
    requires current != "" && current != "."
    requires RegistryAnswer(env, current) == Some(Zero)
    requires k < |Ancestors(DropFirstLabel(current))|
    requires RegistryAnswer(env, Ancestors(DropFirstLabel(current))[k]) == Some(r)
    requires forall j :: 0 <= j < k ==> RegistryAnswer(env, Ancestors(DropFirstLabel(current))[j]) == Some(Zero)
    requires Ancestors(DropFirstLabel(current))[k] == name || wildcard
    requires name == "eth" || Ancestors(DropFirstLabel(current))[k] != "eth"
    ensures k + 1 < |Ancestors(current)|
    ensures RegistryAnswer(env, Ancestors(current)[k + 1]) == Some(r)
    ensures forall j :: 0 <= j < k + 1 ==> RegistryAnswer(env, Ancestors(current)[j]) == Some(Zero)
    ensures Ancestors(current)[k + 1] == name || wildcard
    ensures name == "eth" || Ancestors(current)[k + 1] != "eth"
  {
    var parent := DropFirstLabel(current);
    assert Ancestors(current) == [current] + Ancestors(parent);
    assert forall j :: 0 < j <= k + 1 ==> Ancestors(current)[j] == Ancestors(parent)[j - 1];
  }

  /** One step of the walk that ends with a non-zero resolver: found here, or further up. */
  lemma FoundHereOrAbove(env: Env, name: string, current: string, r: Address) returns (here: bool)
    requires Discover(env, name, current).outcome == Ok(r) && r != Zero
    ensures current != "" && current != "."
    ensures name == "eth" || current != "eth"
    ensures here ==>
      && RegistryAnswer(env, current) == Some(r)
      && (current == name || Resolution.SupportsWildcard(env, r).outcome == Ok(true))
    ensures !here ==>
      && RegistryAnswer(env, current) == Some(Zero)
      && Discover(env, name, DropFirstLabel(current)).outcome == Ok(r)
  {
    var query := env.builders.getResolver(RegistryAddress(env), current);
    here := env.abi.decodeAddress(env.chain(query, None).output) != Some(Zero);
  }

  /** `FoundAt` from the start of the walk. */
  lemma FoundResolver(env: Env, name: string, r: Address)
    requires Discover(env, name, name).outcome == Ok(r) && r != Zero
    ensures exists i ::
      && 0 <= i < |Ancestors(name)|
      && RegistryAnswer(env, Ancestors(name)[i]) == Some(r)
      && (forall j :: 0 <= j < i ==> RegistryAnswer(env, Ancestors(name)[j]) == Some(Zero))
      && (Ancestors(name)[i] == name || Resolution.SupportsWildcard(env, r).outcome == Ok(true))
      && (name == "eth" || Ancestors(name)[i] != "eth")
  {
    var i := FoundAt(env, name, name, r);
  }

  /** For a name other than "eth", the walk stops at "eth" with the zero address, asking nothing. */
  lemma EthGuard(env: Env, name: string)
    requires name != "eth"
    ensures Discover(env, name, "eth") == Run(Ok(Zero), [])
  {
  }

  /** A resolver registered for the name itself is returned after one registry call, unprobed. */
  lemma ExactMatch(env: Env, name: string, r: Address)
    requires name != "" && name != "."
    requires RegistryAnswer(env, name) == Some(r) && r != Zero
    ensures Discover(env, name, name)
         == Run(Ok(r), [ChainCall(Registry(name), env.builders.getResolver(RegistryAddress(env), name), None)])
  {
  }

  // ----- The walk finds what is registered -----

  /** An empty name, or the root ".", resolves to the zero address without asking anything. */
  lemma EmptyName(env: Env, name: string)
    ensures Discover(env, name, "") == Run(Ok(Zero), [])
    ensures Discover(env, name, ".") == Run(Ok(Zero), [])
  {
  }

  /** An empty registry answer ends the walk with the zero address, after that one call. */
  lemma EmptyRegistryAnswer(env: Env, name: string, current: string)
    requires current != "" && current != "." && (name == "eth" || current != "eth")
    requires env.chain(env.builders.getResolver(RegistryAddress(env), current), None) == Returned([])
    ensures Discover(env, name, current)
         == Run(Ok(Zero), [ChainCall(Registry(current), env.builders.getResolver(RegistryAddress(env), current), None)])
  {
  }

  /**
   * The zero resolver registered for a name makes the walk go on with its parent: the
   * outcome is the parent's, after this one registry call.
   */
  lemma ZeroContinues(env: Env, name: string, current: string)
    requires current != "" && current != "." && (name == "eth" || current != "eth")
    requires RegistryAnswer(env, current) == Some(Zero)
    ensures var rest := Discover(env, name, DropFirstLabel(current));
      Discover(env, name, current)
        == Run(rest.outcome,
               [ChainCall(Registry(current), env.builders.getResolver(RegistryAddress(env), current), None)]
               + rest.trace)
  {
  }

  /**
   * A non-zero resolver registered for the name itself, or for an ancestor when it supports
   * wildcards, is the walk's result.
   */
  lemma FoundHere(env: Env, name: string, current: string, r: Address)
    requires current != "" && current != "." && (name == "eth" || current != "eth")
    requires RegistryAnswer(env, current) == Some(r) && r != Zero
    requires current == name || Resolution.SupportsWildcard(env, r).outcome == Ok(true)
    ensures Discover(env, name, current).outcome == Ok(r)
  {
  }

  /** The ancestors after a name's first are its parent's. */
  lemma Shift(current: string)
    requires current != "" && current != "."
    ensures |Ancestors(current)| == 1 + |Ancestors(DropFirstLabel(current))|
    ensures Ancestors(current)[0] == current
    ensures forall j :: 0 <= j < |Ancestors(DropFirstLabel(current))| ==>
      Ancestors(current)[j + 1] == Ancestors(DropFirstLabel(current))[j]
  {
    assert Ancestors(current) == [current] + Ancestors(DropFirstLabel(current));
  }

  /** "eth" has no parent in the walk, so it can only be a name's last ancestor. */
  lemma {:induction false} EthIsLast(current: string, j: nat)
    requires j < |Ancestors(current)| && Ancestors(current)[j] == "eth"
    ensures j == |Ancestors(current)| - 1
    decreases |current|
  {
    Shift(current);
    if current == "eth" {
      assert "eth"[0] != '.' && "eth"[1] != '.' && "eth"[2] != '.';
      assert DropFirstLabel(current) == "";
    } else {
      EthIsLast(DropFirstLabel(current), j - 1);
    }
  }

  /**
   * The converse of `FoundAt`: when every nearer ancestor has the zero resolver and the
   * i-th one has a non-zero resolver r, which is not the one at "eth" for another name and
   * is registered for the name itself or supports wildcards, the walk returns r.
   */
  lemma {:induction false} NearestFound(env: Env, name: string, current: string, r: Address, i: nat)
    requires i < |Ancestors(current)|
    requires forall j :: 0 <= j < i ==> RegistryAnswer(env, Ancestors(current)[j]) == Some(Zero)
    requires RegistryAnswer(env, Ancestors(current)[i]) == Some(r) && r != Zero
    requires name == "eth" || Ancestors(current)[i] != "eth"
    requires Ancestors(current)[i] == name || Resolution.SupportsWildcard(env, r).outcome == Ok(true)
    ensures Discover(env, name, current).outcome == Ok(r)
    decreases |current|
  {
    Shift(current);
    if name != "eth" && current == "eth" {
      EthIsLast(current, 0);
    }
    if i == 0 {
      FoundHere(env, name, current, r);
    } else {
      var parent := DropFirstLabel(current);
      ZeroContinues(env, name, current);
      NearestFound(env, name, parent, r, i - 1);
    }
  }

  /** A registry call that fails ends the walk with the provider's message. */
  lemma RegistryFailure(env: Env, name: string, current: string, e: ProviderError)
    requires current != "" && current != "." && (name == "eth" || current != "eth")
    requires env.chain(env.builders.getResolver(RegistryAddress(env), current), None) == ProviderFailed(e)
    ensures Discover(env, name, current).outcome == Err(TodoError("GR Error calling resolver: " + e.display))
  {
  }

  /**
   * A resolver registered only for an ancestor that does not support wildcards is not
   * used: the walk stops with the zero address.
   */
  lemma AncestorWithoutWildcard(env: Env, name: string, current: string, r: Address)
    requires current != name && current != "" && current != "." && (name == "eth" || current != "eth")
    requires RegistryAnswer(env, current) == Some(r) && r != Zero
    requires Resolution.SupportsWildcard(env, r).outcome == Ok(false)
    ensures Discover(env, name, current).outcome == Ok(Zero)
  {
  }
}
