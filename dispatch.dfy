/** The `Vade` dispatcher: one logical call is sent to every registered
    plugin in registration order, the first plugin error aborts the call,
    and the `Success` payloads of the answers are returned in order. */
module Dispatch {
  import opened Wrappers
  import opened Plugins

  // ---------------------------------------------------------------------
  // filter_results

  /** The `Success` payloads of `results`, in order. */
  function Successes<T>(results: seq<ResultValue<T>>): seq<T>
  {
    if results == [] then []
    else
      var last := results[|results| - 1];
      Successes(results[..|results| - 1]) + (if last.Success? then [last.value] else [])
  }

  /** Keeps the `Success` payloads of `results`, dropping `Ignored` and
      `NotImplemented`; it never fails. */
  method FilterResults<T>(results: seq<ResultValue<T>>) returns (r: Result<seq<T>>)
    ensures r == Ok(Successes(results))
  {
    var filtered := [];
    for i := 0 to |results|
      invariant filtered == Successes(results[..i])
    {
      assert results[..i + 1][..i] == results[..i];
      if results[i].Success? {
        filtered := filtered + [results[i].value];
      }
    }
    assert results[..|results|] == results;
    r := Ok(filtered);
  }

  /** Filtering distributes over concatenation: the payloads of `a + b` are
      those of `a` followed by those of `b`, so order is kept. */
  lemma {:induction false} SuccessesAppend<T>(a: seq<ResultValue<T>>, b: seq<ResultValue<T>>)
    ensures Successes(a + b) == Successes(a) + Successes(b)
    decreases |b|
  {
    if b == [] {
      assert a + b == a;
    } else {
      var b' := b[..|b| - 1];
      assert (a + b)[..|a + b| - 1] == a + b';
      SuccessesAppend(a, b');
    }
  }

  /** A payload is kept exactly when some entry of the input is `Success`
      with that payload; the output is never longer than the input, and it
      is empty exactly when no entry is a `Success`. */
  lemma {:induction false} SuccessesMembers<T>(results: seq<ResultValue<T>>)
    ensures forall v :: v in Successes(results) <==> Success(v) in results
    ensures |Successes(results)| <= |results|
    ensures Successes(results) == [] <==> forall i :: 0 <= i < |results| ==> !results[i].Success?
  {
    if results != [] {
      var init := results[..|results| - 1];
      SuccessesMembers(init);
      assert results == init + [results[|results| - 1]];
      forall i | 0 <= i < |init| ensures init[i] == results[i] { }
    }
  }

  /** The number of `Success` entries of `results`. */
  function CountSuccesses<T>(results: seq<ResultValue<T>>): nat
  {
    if results == [] then 0
    else CountSuccesses(results[1..]) + (if results[0].Success? then 1 else 0)
  }

  /** Each `Success` entry contributes exactly one payload. */
  lemma {:induction false} SuccessesCount<T>(results: seq<ResultValue<T>>)
    ensures |Successes(results)| == CountSuccesses(results)
  {
    if results != [] {
      var head, tail := results[..1], results[1..];
      assert results == head + tail;
      SuccessesAppend(head, tail);
      SuccessesCount(tail);
      assert head[..0] == [];
    }
  }

  /** The output is as long as the input exactly when every entry is a
      `Success`, and then it is the payloads position by position. */
  lemma {:induction false} SuccessesAllSuccess<T>(results: seq<ResultValue<T>>)
    ensures |Successes(results)| == |results| <==> forall i :: 0 <= i < |results| ==> results[i].Success?
    ensures (forall i :: 0 <= i < |results| ==> results[i].Success?) ==>
              forall i :: 0 <= i < |results| ==> Successes(results)[i] == results[i].value
  {
    if results != [] {
      var init := results[..|results| - 1];
      SuccessesAllSuccess(init);
      SuccessesMembers(init);
      forall i | 0 <= i < |init| ensures init[i] == results[i] { }
    }
  }

  // ---------------------------------------------------------------------
  // The dispatch loop as a pure fold

  /** The plugins' answers so far and the plugins with their new states. */
  datatype Fanned<!S> = Fanned(results: Result<seq<ResultValue<Payload>>>, plugins: seq<Plugin<S>>)

  /** Plugin `p` with the state it reports after answering `call`. */
  function Answered<S>(p: Plugin<S>, call: Call): Plugin<S>
  {
    p.(state := Invoke(p, call).next)
  }

  /** Calls every plugin in order, stopping at the first error; plugins
      after the failing one keep their state. */
  function Fan<S>(ps: seq<Plugin<S>>, call: Call): Fanned<S>
    decreases |ps|
  {
    if ps == [] then Fanned(Ok([]), [])
    else
      var reply := Invoke(ps[0], call);
      var first := Answered(ps[0], call);
      if reply.outcome.Err? then
        Fanned(Err(reply.outcome.error), [first] + ps[1..])
      else
        var rest := Fan(ps[1..], call);
        Fanned(if rest.results.Ok? then Ok([reply.outcome.value] + rest.results.value) else rest.results,
               [first] + rest.plugins)
  }

  /** What a dispatch returns: the payloads of the answers, or the first error. */
  function Dispatched<S>(ps: seq<Plugin<S>>, call: Call): Result<seq<Payload>>
  {
    var f := Fan(ps, call);
    if f.results.Ok? then Ok(Successes(f.results.value)) else Err(f.results.error)
  }

  /** The loop's view: `done` are the answers collected so far and `visited`
      the plugins already called; `rest` is the fold over the others. */
  function Resume<S>(done: seq<ResultValue<Payload>>, visited: seq<Plugin<S>>, rest: Fanned<S>): Fanned<S>
  {
    Fanned(if rest.results.Ok? then Ok(done + rest.results.value) else rest.results,
           visited + rest.plugins)
  }

  /** One step of the loop when the next plugin answers without error. */
  lemma ResumeStepOk<S>(done: seq<ResultValue<Payload>>, visited: seq<Plugin<S>>, todo: seq<Plugin<S>>, call: Call)
    requires todo != [] && Invoke(todo[0], call).outcome.Ok?
    ensures Resume(done, visited, Fan(todo, call))
            == Resume(done + [Invoke(todo[0], call).outcome.value], visited + [Answered(todo[0], call)], Fan(todo[1..], call))
  {
    var rest := Fan(todo[1..], call);
    var v := Invoke(todo[0], call).outcome.value;
    if rest.results.Ok? {
      assert done + ([v] + rest.results.value) == done + [v] + rest.results.value;
    }
    assert visited + ([Answered(todo[0], call)] + rest.plugins) == visited + [Answered(todo[0], call)] + rest.plugins;
  }

  /** One step of the loop when the next plugin fails. */
  lemma ResumeStepErr<S>(done: seq<ResultValue<Payload>>, visited: seq<Plugin<S>>, todo: seq<Plugin<S>>, call: Call)
    requires todo != [] && Invoke(todo[0], call).outcome.Err?
    ensures Resume(done, visited, Fan(todo, call))
            == Fanned(Err(Invoke(todo[0], call).outcome.error), visited + [Answered(todo[0], call)] + todo[1..])
  {
    assert visited + ([Answered(todo[0], call)] + todo[1..]) == visited + [Answered(todo[0], call)] + todo[1..];
  }

  /** Every plugin answers `call` without error exactly when the fold
      succeeds; then its answers are the plugins' answers in registry order
      and every plugin has moved to the state it reported. */
  lemma {:induction false} FanSucceeds<S>(ps: seq<Plugin<S>>, call: Call)
    ensures |Fan(ps, call).plugins| == |ps|
    ensures Fan(ps, call).results.Ok? <==> forall i :: 0 <= i < |ps| ==> Invoke(ps[i], call).outcome.Ok?
    ensures Fan(ps, call).results.Ok? ==>
              && |Fan(ps, call).results.value| == |ps|
              && forall i :: 0 <= i < |ps| ==>
                   && Fan(ps, call).results.value[i] == Invoke(ps[i], call).outcome.value
                   && Fan(ps, call).plugins[i] == Answered(ps[i], call)
    decreases |ps|
  {
    if ps != [] {
      FanSucceeds(ps[1..], call);
      forall i | 1 <= i < |ps| ensures ps[1..][i - 1] == ps[i] { }
    }
  }

  /** When plugin `k` is the first to fail, the call fails with its error;
      plugins `0..k` have answered (their new states are kept) and the later
      ones were never called. */
  lemma {:induction false} FanStopsAtFirstError<S>(ps: seq<Plugin<S>>, call: Call, k: nat)
    requires k < |ps|
    requires forall j :: 0 <= j < k ==> Invoke(ps[j], call).outcome.Ok?
    requires Invoke(ps[k], call).outcome.Err?
    ensures Fan(ps, call).results == Err(Invoke(ps[k], call).outcome.error)
    ensures |Fan(ps, call).plugins| == |ps|
    ensures forall j :: 0 <= j <= k ==> Fan(ps, call).plugins[j] == Answered(ps[j], call)
    ensures forall j :: k < j < |ps| ==> Fan(ps, call).plugins[j] == ps[j]
    decreases k
  {
    if k > 0 {
      forall j | 0 <= j < k - 1 ensures Invoke(ps[1..][j], call).outcome.Ok? {
        assert ps[1..][j] == ps[j + 1];
      }
      FanStopsAtFirstError(ps[1..], call, k - 1);
    }
  }

  /** Dispatch never changes the membership or the order of the registry:
      only plugin states change. */
  lemma FanKeepsRegistry<S>(ps: seq<Plugin<S>>, call: Call)
    ensures |Fan(ps, call).plugins| == |ps|
    ensures forall i :: 0 <= i < |ps| ==> Fan(ps, call).plugins[i].overrides == ps[i].overrides
  {
    if forall i :: 0 <= i < |ps| ==> Invoke(ps[i], call).outcome.Ok? {
      FanSucceeds(ps, call);
    } else {
      var k := FirstError(ps, call);
      FanStopsAtFirstError(ps, call, k);
    }
  }

  /** The index of the first plugin whose answer to `call` is an error. */
  function FirstError<S>(ps: seq<Plugin<S>>, call: Call): (k: nat)
    requires exists i :: 0 <= i < |ps| && Invoke(ps[i], call).outcome.Err?
    ensures k < |ps| && Invoke(ps[k], call).outcome.Err?
    ensures forall j :: 0 <= j < k ==> Invoke(ps[j], call).outcome.Ok?
  {
    if Invoke(ps[0], call).outcome.Err? then 0
    else
      assert exists i :: 0 <= i < |ps[1..]| && Invoke(ps[1..][i], call).outcome.Err? by {
        var i :| 0 <= i < |ps| && Invoke(ps[i], call).outcome.Err?;
        assert ps[1..][i - 1] == ps[i];
      }
      var k := FirstError(ps[1..], call);
      assert forall j :: 1 <= j <= k ==> ps[1..][j - 1] == ps[j];
      k + 1
  }

  /** A dispatch returns exactly the `Success` payloads of the plugins'
      answers, in registry order, when no plugin fails, and the first
      plugin's error otherwise. */
  lemma DispatchedIsFold<S>(ps: seq<Plugin<S>>, call: Call)
    ensures (forall i :: 0 <= i < |ps| ==> Invoke(ps[i], call).outcome.Ok?) ==>
              Dispatched(ps, call)
              == Ok(Successes(seq(|ps|, i requires 0 <= i < |ps| => Invoke(ps[i], call).outcome.value)))
    ensures (exists i :: 0 <= i < |ps| && Invoke(ps[i], call).outcome.Err?) ==>
              Dispatched(ps, call) == Err(Invoke(ps[FirstError(ps, call)], call).outcome.error)
  {
    if forall i :: 0 <= i < |ps| ==> Invoke(ps[i], call).outcome.Ok? {
      FanSucceeds(ps, call);
      assert Fan(ps, call).results.value
             == seq(|ps|, i requires 0 <= i < |ps| => Invoke(ps[i], call).outcome.value);
    } else {
      FanStopsAtFirstError(ps, call, FirstError(ps, call));
    }
  }

  /** With no plugin, or with plugins that all answer `NotImplemented` or
      `Ignored`, a dispatch returns an empty list and no error. */
  lemma DispatchedWithoutSuccessIsEmpty<S>(ps: seq<Plugin<S>>, call: Call)
    requires forall i :: 0 <= i < |ps| ==>
               Invoke(ps[i], call).outcome in {Ok(NotImplemented), Ok(Ignored)}
    ensures Dispatched(ps, call) == Ok([])
  {
    FanSucceeds(ps, call);
    var results := Fan(ps, call).results.value;
    assert forall i :: 0 <= i < |results| ==> !results[i].Success?;
    SuccessesMembers(results);
  }

  /** A registry of plugins that override nothing answers every call with
      an empty list. */
  lemma DispatchedToDefaultsIsEmpty<S>(ps: seq<Plugin<S>>, call: Call)
    requires forall i :: 0 <= i < |ps| ==> ps[i].overrides == map[]
    ensures Dispatched(ps, call) == Ok([])
  {
    DispatchedWithoutSuccessIsEmpty(ps, call);
  }

  // ---------------------------------------------------------------------
  // The dispatcher object

  class Vade<!S> {
    /** The registered plugins, in registration order. */
    var plugins: seq<Plugin<S>>

    /** A new dispatcher has no plugins. */
    constructor ()
      ensures plugins == []
    {
      plugins := [];
    }

    /** Appends `plugin` at the tail of the registry. */
    method RegisterPlugin(plugin: Plugin<S>)
      modifies this
      ensures plugins == old(plugins) + [plugin]
    {
      plugins := plugins + [plugin];
    }

    /** Sends `call` to every plugin in order, returning at the first error;
        otherwise filters the answers. */
    method Dispatch(call: Call) returns (r: Result<seq<Payload>>)
      modifies this
      ensures r == Dispatched(old(plugins), call)
      ensures plugins == Fan(old(plugins), call).plugins
    {
      var results := [];
      var i := 0;
      ghost var all := Fan(plugins, call);
      assert plugins[..0] == [] && plugins[0..] == plugins;
      assert [] + all.plugins == all.plugins;
      assert all.results.Ok? ==> [] + all.results.value == all.results.value;
      while i < |plugins|
        invariant i <= |plugins| == |old(plugins)|
        invariant plugins[i..] == old(plugins)[i..]
        invariant Fan(old(plugins), call) == Resume(results, plugins[..i], Fan(plugins[i..], call))
      {
        ghost var visited := plugins[..i];
        ghost var todo := plugins[i..];
        assert todo[0] == plugins[i] && todo[1..] == plugins[i + 1..];
        var reply := Invoke(plugins[i], call);
        plugins := plugins[i := plugins[i].(state := reply.next)];
        assert plugins[..i + 1] == visited + [Answered(todo[0], call)];
        assert plugins[i + 1..] == todo[1..];
        if reply.outcome.Err? {
          ResumeStepErr(results, visited, todo, call);
          assert plugins == plugins[..i + 1] + plugins[i + 1..];
          r := Err(reply.outcome.error);
          return;
        }
        ResumeStepOk(results, visited, todo, call);
        results := results + [reply.outcome.value];
        i := i + 1;
      }
      assert plugins[..i] == plugins && plugins[i..] == [];
      assert results + [] == results && plugins + [] == plugins;
      r := FilterResults(results);
    }

    /** `did_create`, dispatched to every plugin. */
    method DidCreate(didMethod: string, options: string, payload: string) returns (r: Result<seq<Payload>>)
      modifies this
      ensures r == Dispatched(old(plugins), Call(Op.DidCreate, [didMethod, options, payload]))
      ensures plugins == Fan(old(plugins), Call(Op.DidCreate, [didMethod, options, payload])).plugins
    {
      r := Dispatch(Call(Op.DidCreate, [didMethod, options, payload]));
    }

    /** `did_resolve`, dispatched to every plugin. */
    method DidResolve(did: string) returns (r: Result<seq<Payload>>)
      modifies this
      ensures r == Dispatched(old(plugins), Call(Op.DidResolve, [did]))
      ensures plugins == Fan(old(plugins), Call(Op.DidResolve, [did])).plugins
    {
      r := Dispatch(Call(Op.DidResolve, [did]));
    }

    /** `did_update`, dispatched to every plugin. */
    method DidUpdate(did: string, options: string, payload: string) returns (r: Result<seq<Payload>>)
      modifies this
      ensures r == Dispatched(old(plugins), Call(Op.DidUpdate, [did, options, payload]))
      ensures plugins == Fan(old(plugins), Call(Op.DidUpdate, [did, options, payload])).plugins
    {
      r := Dispatch(Call(Op.DidUpdate, [did, options, payload]));
    }

    /** `didcomm_receive`, dispatched to every plugin. */
    method DidcommReceive(options: string, payload: string) returns (r: Result<seq<Payload>>)
      modifies this
      ensures r == Dispatched(old(plugins), Call(Op.DidcommReceive, [options, payload]))
      ensures plugins == Fan(old(plugins), Call(Op.DidcommReceive, [options, payload])).plugins
    {
      r := Dispatch(Call(Op.DidcommReceive, [options, payload]));
    }

    /** `didcomm_send`, dispatched to every plugin. */
    method DidcommSend(options: string, payload: string) returns (r: Result<seq<Payload>>)
      modifies this
      ensures r == Dispatched(old(plugins), Call(Op.DidcommSend, [options, payload]))
      ensures plugins == Fan(old(plugins), Call(Op.DidcommSend, [options, payload])).plugins
    {
      r := Dispatch(Call(Op.DidcommSend, [options, payload]));
    }

    /** `run_custom_function`, dispatched to every plugin. */
    method RunCustomFunction(didMethod: string, functionName: string, options: string, payload: string) returns (r: Result<seq<Payload>>)
      modifies this
      ensures r == Dispatched(old(plugins), Call(Op.RunCustomFunction, [didMethod, functionName, options, payload]))
      ensures plugins == Fan(old(plugins), Call(Op.RunCustomFunction, [didMethod, functionName, options, payload])).plugins
    {
      r := Dispatch(Call(Op.RunCustomFunction, [didMethod, functionName, options, payload]));
    }

    /** `vc_zkp_create_credential_definition`, dispatched to every plugin. */
    method VcZkpCreateCredentialDefinition(didMethod: string, options: string, payload: string) returns (r: Result<seq<Payload>>)
      modifies this
      ensures r == Dispatched(old(plugins), Call(Op.VcZkpCreateCredentialDefinition, [didMethod, options, payload]))
      ensures plugins == Fan(old(plugins), Call(Op.VcZkpCreateCredentialDefinition, [didMethod, options, payload])).plugins
    {
      r := Dispatch(Call(Op.VcZkpCreateCredentialDefinition, [didMethod, options, payload]));
    }

    /** `vc_zkp_create_credential_offer`, dispatched to every plugin. */
    method VcZkpCreateCredentialOffer(didMethod: string, options: string, payload: string) returns (r: Result<seq<Payload>>)
      modifies this
      ensures r == Dispatched(old(plugins), Call(Op.VcZkpCreateCredentialOffer, [didMethod, options, payload]))
      ensures plugins == Fan(old(plugins), Call(Op.VcZkpCreateCredentialOffer, [didMethod, options, payload])).plugins
    {
      r := Dispatch(Call(Op.VcZkpCreateCredentialOffer, [didMethod, options, payload]));
    }

    /** `vc_zkp_create_credential_proposal`, dispatched to every plugin. */
    method VcZkpCreateCredentialProposal(didMethod: string, options: string, payload: string) returns (r: Result<seq<Payload>>)
      modifies this
      ensures r == Dispatched(old(plugins), Call(Op.VcZkpCreateCredentialProposal, [didMethod, options, payload]))
      ensures plugins == Fan(old(plugins), Call(Op.VcZkpCreateCredentialProposal, [didMethod, options, payload])).plugins
    {
      r := Dispatch(Call(Op.VcZkpCreateCredentialProposal, [didMethod, options, payload]));
    }

    /** `vc_zkp_create_credential_schema`, dispatched to every plugin. */
    method VcZkpCreateCredentialSchema(didMethod: string, options: string, payload: string) returns (r: Result<seq<Payload>>)
      modifies this
      ensures r == Dispatched(old(plugins), Call(Op.VcZkpCreateCredentialSchema, [didMethod, options, payload]))
      ensures plugins == Fan(old(plugins), Call(Op.VcZkpCreateCredentialSchema, [didMethod, options, payload])).plugins
    {
      r := Dispatch(Call(Op.VcZkpCreateCredentialSchema, [didMethod, options, payload]));
    }

    /** `vc_zkp_create_revocation_registry_definition`, dispatched to every plugin. */
    method VcZkpCreateRevocationRegistryDefinition(didMethod: string, options: string, payload: string) returns (r: Result<seq<Payload>>)
      modifies this
      ensures r == Dispatched(old(plugins), Call(Op.VcZkpCreateRevocationRegistryDefinition, [didMethod, options, payload]))
      ensures plugins == Fan(old(plugins), Call(Op.VcZkpCreateRevocationRegistryDefinition, [didMethod, options, payload])).plugins
    {
      r := Dispatch(Call(Op.VcZkpCreateRevocationRegistryDefinition, [didMethod, options, payload]));
    }

    /** `vc_zkp_update_revocation_registry`, dispatched to every plugin. */
    method VcZkpUpdateRevocationRegistry(didMethod: string, options: string, payload: string) returns (r: Result<seq<Payload>>)
      modifies this
      ensures r == Dispatched(old(plugins), Call(Op.VcZkpUpdateRevocationRegistry, [didMethod, options, payload]))
      ensures plugins == Fan(old(plugins), Call(Op.VcZkpUpdateRevocationRegistry, [didMethod, options, payload])).plugins
    {
      r := Dispatch(Call(Op.VcZkpUpdateRevocationRegistry, [didMethod, options, payload]));
    }

    /** `vc_zkp_issue_credential`, dispatched to every plugin. */
    method VcZkpIssueCredential(didMethod: string, options: string, payload: string) returns (r: Result<seq<Payload>>)
      modifies this
      ensures r == Dispatched(old(plugins), Call(Op.VcZkpIssueCredential, [didMethod, options, payload]))
      ensures plugins == Fan(old(plugins), Call(Op.VcZkpIssueCredential, [didMethod, options, payload])).plugins
    {
      r := Dispatch(Call(Op.VcZkpIssueCredential, [didMethod, options, payload]));
    }

    /** `vc_zkp_finish_credential`, dispatched to every plugin. */
    method VcZkpFinishCredential(didMethod: string, options: string, payload: string) returns (r: Result<seq<Payload>>)
      modifies this
      ensures r == Dispatched(old(plugins), Call(Op.VcZkpFinishCredential, [didMethod, options, payload]))
      ensures plugins == Fan(old(plugins), Call(Op.VcZkpFinishCredential, [didMethod, options, payload])).plugins
    {
      r := Dispatch(Call(Op.VcZkpFinishCredential, [didMethod, options, payload]));
    }

    /** `vc_zkp_present_proof`, dispatched to every plugin. */
    method VcZkpPresentProof(didMethod: string, options: string, payload: string) returns (r: Result<seq<Payload>>)
      modifies this
      ensures r == Dispatched(old(plugins), Call(Op.VcZkpPresentProof, [didMethod, options, payload]))
      ensures plugins == Fan(old(plugins), Call(Op.VcZkpPresentProof, [didMethod, options, payload])).plugins
    {
      r := Dispatch(Call(Op.VcZkpPresentProof, [didMethod, options, payload]));
    }

    /** `vc_zkp_request_credential`, dispatched to every plugin. */
    method VcZkpRequestCredential(didMethod: string, options: string, payload: string) returns (r: Result<seq<Payload>>)
      modifies this
      ensures r == Dispatched(old(plugins), Call(Op.VcZkpRequestCredential, [didMethod, options, payload]))
      ensures plugins == Fan(old(plugins), Call(Op.VcZkpRequestCredential, [didMethod, options, payload])).plugins
    {
      r := Dispatch(Call(Op.VcZkpRequestCredential, [didMethod, options, payload]));
    }

    /** `vc_zkp_request_proof`, dispatched to every plugin. */
    method VcZkpRequestProof(didMethod: string, options: string, payload: string) returns (r: Result<seq<Payload>>)
      modifies this
      ensures r == Dispatched(old(plugins), Call(Op.VcZkpRequestProof, [didMethod, options, payload]))
      ensures plugins == Fan(old(plugins), Call(Op.VcZkpRequestProof, [didMethod, options, payload])).plugins
    {
      r := Dispatch(Call(Op.VcZkpRequestProof, [didMethod, options, payload]));
    }

    /** `vc_zkp_revoke_credential`, dispatched to every plugin. */
    method VcZkpRevokeCredential(didMethod: string, options: string, payload: string) returns (r: Result<seq<Payload>>)
      modifies this
      ensures r == Dispatched(old(plugins), Call(Op.VcZkpRevokeCredential, [didMethod, options, payload]))
      ensures plugins == Fan(old(plugins), Call(Op.VcZkpRevokeCredential, [didMethod, options, payload])).plugins
    {
      r := Dispatch(Call(Op.VcZkpRevokeCredential, [didMethod, options, payload]));
    }

    /** `vc_zkp_verify_proof`, dispatched to every plugin. */
    method VcZkpVerifyProof(didMethod: string, options: string, payload: string) returns (r: Result<seq<Payload>>)
      modifies this
      ensures r == Dispatched(old(plugins), Call(Op.VcZkpVerifyProof, [didMethod, options, payload]))
      ensures plugins == Fan(old(plugins), Call(Op.VcZkpVerifyProof, [didMethod, options, payload])).plugins
    {
      r := Dispatch(Call(Op.VcZkpVerifyProof, [didMethod, options, payload]));
    }
  }
}

/** The plugin tests' outcomes through a dispatcher, together with what the
    test plugin's ignored and failing operations give, which no test checks. */
module DispatchScenarios {
  import opened Wrappers
  import opened Plugins
  import opened Dispatch

  /** With only the test plugin registered, `did_create` yields the example
      document, `did_resolve` yields nothing and `did_update` fails with the
      plugin's own error. */
  lemma SingleTestPlugin<S>(state: S, args: seq<string>)
    ensures Dispatched([TestPlugin(state)], Call(Op.DidCreate, args)) == Ok([Some(ExampleDidDocument)])
    ensures Dispatched([TestPlugin(state)], Call(Op.DidResolve, args)) == Ok([])
    ensures Dispatched([TestPlugin(state)], Call(Op.DidUpdate, args)) == Err("yikes")
  {
    var p := TestPlugin(state);
    var create, resolve := Call(Op.DidCreate, args), Call(Op.DidResolve, args);
    assert [p][1..] == [];
    assert Invoke(p, create).outcome == Ok(Success(Some(ExampleDidDocument)));
    assert Fan([p][1..], create).results == Ok([]);
    assert [Success(Some(ExampleDidDocument))] + [] == [Success(Some(ExampleDidDocument))];
    assert Fan([p], create).results == Ok([Success(Some(ExampleDidDocument))]);
    assert Successes([Success(Some(ExampleDidDocument))]) == [Some(ExampleDidDocument)] by {
      assert [Success(Some(ExampleDidDocument))][..0] == [];
    }
    var ignored: seq<ResultValue<Payload>> := [Ignored];
    assert Invoke(p, resolve).outcome == Ok(Ignored);
    assert Fan([p][1..], resolve).results == Ok([]);
    assert ignored + [] == ignored;
    assert Fan([p], resolve).results == Ok(ignored);
    assert Successes(ignored) == [] by {
      assert ignored[..0] == [];
    }
  }

  /** A fresh dispatcher with the test plugin registered answers
      `did_create("", "", "")` with the example document. */
  method CreateWithTestPlugin() returns (r: Result<seq<Payload>>)
    ensures r == Ok([Some(ExampleDidDocument)])
  {
    var vade := new Vade<()>();
    vade.RegisterPlugin(TestPlugin(()));
    assert vade.plugins == [TestPlugin(())];
    r := vade.DidCreate("", "", "");
    SingleTestPlugin((), ["", "", ""]);
  }
}
