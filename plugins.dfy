/** The plugin capability interface: the three-way answer of a plugin and
    the default behaviour of every operation a plugin does not override. */
module Plugins {
  import opened Wrappers

  /** What a plugin answers to a call that did not fail. */
  datatype ResultValue<+T> =
    | NotImplemented  // the plugin does not implement the operation
    | Ignored         // it implements it but does not handle this request
    | Success(value: T)

  /** The value a successful plugin call carries: an optional text artifact. */
  type Payload = Option<string>

  /** The operations `Vade` fans out to its plugins. */
  datatype Op =
    | DidCreate | DidResolve | DidUpdate
    | DidcommReceive | DidcommSend
    | RunCustomFunction
    | VcZkpCreateCredentialDefinition | VcZkpCreateCredentialOffer
    | VcZkpCreateCredentialProposal | VcZkpCreateCredentialSchema
    | VcZkpCreateRevocationRegistryDefinition | VcZkpUpdateRevocationRegistry
    | VcZkpIssueCredential | VcZkpFinishCredential | VcZkpPresentProof
    | VcZkpRequestCredential | VcZkpRequestProof | VcZkpRevokeCredential
    | VcZkpVerifyProof

  /** One logical call: the operation and its string arguments, in the
      order of the operation's signature. */
  datatype Call = Call(op: Op, args: seq<string>)

  /** A plugin's answer together with its state after answering. */
  datatype Reply<S> = Reply(outcome: Result<ResultValue<Payload>>, next: S)

  /** The body of an operation a plugin overrides. */
  type Handler<!S> = (S, seq<string>) -> Reply<S>

  /** A registered plugin: its private state and the operations it overrides. */
  datatype Plugin<!S> = Plugin(state: S, overrides: map<Op, Handler<S>>)

  /** Calls `call.op` on plugin `p`: the override when there is one, the
      trait's default otherwise. */
  function Invoke<S>(p: Plugin<S>, call: Call): Reply<S>
  {
    if call.op in p.overrides then p.overrides[call.op](p.state, call.args)
    else Reply(Ok(NotImplemented), p.state)
  }

  /** A plugin that overrides nothing. */
  function DefaultPlugin<S>(state: S): Plugin<S>
  {
    Plugin(state, map[])
  }

  /** An operation a plugin does not override answers `Ok(NotImplemented)`,
      whatever its arguments: it never fails and leaves the state as it was. */
  lemma NotOverriddenIsNotImplemented<S>(p: Plugin<S>, call: Call)
    requires call.op !in p.overrides
    ensures Invoke(p, call).outcome == Ok(NotImplemented)
    ensures Invoke(p, call).next == p.state
  {
  }

  /** The default plugin answers every operation with `Ok(NotImplemented)`. */
  lemma DefaultPluginAnswersNotImplemented<S>(state: S, call: Call)
    ensures Invoke(DefaultPlugin(state), call) == Reply(Ok(NotImplemented), state)
  {
  }

  /** An overridden operation's answer reaches the caller unchanged. */
  lemma OverrideAnswersDirectly<S>(p: Plugin<S>, call: Call, v: Payload)
    requires call.op in p.overrides
    requires p.overrides[call.op](p.state, call.args).outcome == Ok(Success(v))
    ensures Invoke(p, call).outcome == Ok(Success(v))
  {
  }

  /** The DID document the test plugin creates. */
  const ExampleDidDocument: string :=
    "{\n    \"@context\": \"https://www.w3.org/ns/did/v1\",\n    \"id\": \"did:example:123456789abcdefghi\"\n}"

  /** The test plugin: `did_create` succeeds with the example document,
      `did_resolve` is ignored, `did_update` fails with "yikes"; nothing
      else is overridden. */
  function TestPlugin<S>(state: S): Plugin<S>
  {
    Plugin(state, map[
      DidCreate := (s: S, args: seq<string>) => Reply(Ok(Success(Some(ExampleDidDocument))), s),
      DidResolve := (s: S, args: seq<string>) => Reply(Ok(Ignored), s),
      DidUpdate := (s: S, args: seq<string>) => Reply(Err("yikes"), s)])
  }

  /** Called directly, the test plugin passes its `did_create` success
      through and answers `NotImplemented` to `vc_zkp_verify_proof`. */
  lemma TestPluginAnswers<S>(state: S, args: seq<string>)
    ensures Invoke(TestPlugin(state), Call(DidCreate, args)).outcome
            == Ok(Success(Some(ExampleDidDocument)))
    ensures Invoke(TestPlugin(state), Call(VcZkpVerifyProof, args)).outcome
            == Ok(NotImplemented)
  {
  }
}
