/**
 * `lookup_address`: the primary name of an address, by a reverse-record query, accepted
 * only when the name resolves forward to the same address.
 */
module ReverseLookup {
  import opened Types
  import opened Errors
  import opened Oracles
  import opened Strings
  import opened Resolution

  const NotOwnedPrefix: string := "User does not own domain: "

  /**
   * The name recorded for `<address>.addr.reverse`, checked against the address that
   * name resolves to: a name comes back only when the forward resolution gives the
   * address back.
   */
  function LookupAddress(env: Env, address: Address): (r: Run<string>)
    ensures r.outcome.Ok? ==> ResolveName(env, r.outcome.value).outcome == Ok(address)
    ensures Query(env, env.builders.reverseAddress(address), NameSelector, None, env.abi.decodeString).trace
            <= r.trace
  {
    var ensName := env.builders.reverseAddress(address);
    var domain := Query(env, ensName, NameSelector, None, env.abi.decodeString);
    if !domain.outcome.Ok? then Run(domain.outcome.Propagate(), domain.trace)
    else
      var resolved := ResolveName(env, domain.outcome.value);
      var trace := domain.trace + resolved.trace;
      if !resolved.outcome.Ok? then Run(resolved.outcome.Propagate(), trace)
      else if address != resolved.outcome.value then
        Run(Err(TodoError(NotOwnedPrefix + domain.outcome.value)), trace)
      else Run(Ok(domain.outcome.value), trace)
  }

  // ----- Properties -----

  /** A name is returned exactly when it is the reverse record and resolves back to the address. */
  lemma OwnedIff(env: Env, address: Address, name: string)
    ensures LookupAddress(env, address).outcome == Ok(name) <==>
      && Query(env, env.builders.reverseAddress(address), NameSelector, None, env.abi.decodeString).outcome
         == Ok(name)
      && ResolveName(env, name).outcome == Ok(address)
  {
  }

  /** A reverse record whose name resolves elsewhere is refused with a message that names it. */
  lemma NotOwned(env: Env, address: Address, name: string, other: Address)
    requires Query(env, env.builders.reverseAddress(address), NameSelector, None, env.abi.decodeString).outcome
          == Ok(name)
    requires ResolveName(env, name).outcome == Ok(other) && other != address
    ensures LookupAddress(env, address).outcome.Err?
    ensures LookupAddress(env, address).outcome.error.TodoError?
    ensures var m := LookupAddress(env, address).outcome.error.text;
      StartsWith(m, NotOwnedPrefix) && Contains(m, name)
  {
    var m := NotOwnedPrefix + name;
    assert m[..|NotOwnedPrefix|] == NotOwnedPrefix;
    ContainsWithin(NotOwnedPrefix, name, name);
  }

  /** A failed reverse query is the lookup's failure, and nothing is resolved forward. */
  lemma ReverseQueryFailure(env: Env, address: Address)
    requires !Query(env, env.builders.reverseAddress(address), NameSelector, None, env.abi.decodeString).outcome.Ok?
    ensures var q := Query(env, env.builders.reverseAddress(address), NameSelector, None, env.abi.decodeString);
      LookupAddress(env, address) == Run(q.outcome.Propagate(), q.trace)
  {
  }

  /** A failed forward resolution of the recorded name is the lookup's failure. */
  lemma ForwardFailure(env: Env, address: Address, name: string)
    requires Query(env, env.builders.reverseAddress(address), NameSelector, None, env.abi.decodeString).outcome
          == Ok(name)
    requires !ResolveName(env, name).outcome.Ok?
    ensures LookupAddress(env, address).outcome == ResolveName(env, name).outcome.Propagate()
    ensures LookupAddress(env, address).trace
         == Query(env, env.builders.reverseAddress(address), NameSelector, None, env.abi.decodeString).trace
            + ResolveName(env, name).trace
  {
  }
}
