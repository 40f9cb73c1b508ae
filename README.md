# vade dispatch and resolver core, in Dafny

This project models the fan-out/fold core of `vade`. A caller makes one
logical call (`did_create`, `vc_zkp_issue_credential`, ...). `Vade` sends
it to every registered plugin in registration order, stops at the first
plugin error, and returns the `Success` payloads of the answers in order.
The older `Library` keeps three append-only registries (DID resolvers, VC
resolvers, loggers). It folds its resolvers' outcomes in three ways:

- checks succeed when any resolver confirms;
- reads return the first resolver that has the document;
- writes succeed only when every resolver's write succeeds.

`RustStorageCache` is the in-memory resolver shipped with the library.

Files:

- `wrappers.dfy`: `Option` and `Result`; an error is its message.
- `plugins.dfy` (`src/vade_plugin.rs`): the three-way `ResultValue`, the
  operations, and plugins as values. A plugin has a private state and a map
  from the operations it overrides to their bodies. An operation it does
  not override answers `Ok(NotImplemented)`.
- `dispatch.dfy` (`src/vade.rs`): `filter_results` as a loop proved
  against `Successes`, and the dispatch loop proved against the pure fold
  `Fan`. The class `Vade` holds the registry as a sequence; every named
  operation is an instance of `Dispatch`. The module `DispatchScenarios`
  states the plugin tests' outcomes, and also what the test plugin's
  `did_resolve` and `did_update` give through a dispatcher, which no test
  checks.
- `storage_cache.dfy` (`src/plugin/rust_storage_cache.rs`): the class
  `RustStorageCache` over a `map<string, string>`. The pure `Lookup`,
  `Store` and `CheckId` specify it.
- `library.dfy` (`src/library/mod.rs`): resolvers are either a storage
  cache or an external resolver given by its state and its three calls.
  `SelectOk` and `SetAll` are the folds behind `select_ok` and
  `try_join_all`. The module `LibraryScenarios` states the library tests'
  outcomes; its `CheckWithOneCache` follows tests/library_did.rs, which
  makes the same register-and-check calls on a `Vade` value.

A failing plugin's error is returned unchanged by `?` (src/vade.rs:69),
and `Dispatch` does the same; no operation name or target is added.

## Model

| member | source | states |
|---|---|---|
| `Plugins.NotOverriddenIsNotImplemented` | src/vade_plugin.rs:39-46 | an operation a plugin does not override answers `Ok(NotImplemented)` whatever its arguments, never fails and leaves the plugin state unchanged |
| `Plugins.DefaultPluginAnswersNotImplemented` | src/vade_plugin.rs:39-177 | a plugin that overrides nothing answers every operation with `Ok(NotImplemented)` and keeps its state |
| `Plugins.OverrideAnswersDirectly` | tests/vade_plugin.rs:74-86 | an overridden operation's `Success(v)` reaches the direct caller unchanged |
| `Plugins.TestPluginAnswers` | tests/vade_plugin.rs:74-100 | the test plugin, which overrides only three operations, returns the example document for `did_create` and `NotImplemented` for `vc_zkp_verify_proof` |
| `Dispatch.FilterResults` | src/vade.rs:798-813 | the loop returns `Ok` of exactly the `Success` payloads of its input, in input order; it never fails |
| `Dispatch.SuccessesAppend` | src/vade.rs:804-809 | filtering distributes over concatenation, so the payloads keep the input's relative order |
| `Dispatch.SuccessesMembers` | src/vade.rs:804-812 | a payload is in the output iff some input entry is `Success` of it; the output is no longer than the input; it is empty iff no entry is a `Success` (empty output is `Ok([])`, not an error) |
| `Dispatch.SuccessesAllSuccess` | src/vade.rs:805-808 | the output is as long as the input iff every entry is a `Success`, and then it holds the payloads position by position |
| `Dispatch.SuccessesCount` | src/vade.rs:804-809 | the output has exactly one payload per `Success` entry: its length is the number of `Success` entries |
| `Dispatch.FanSucceeds` | src/vade.rs:67-71 | the fold succeeds iff every plugin answers without error; its answers are then the plugins' answers in registry order, and every plugin has its new state |
| `Dispatch.FanStopsAtFirstError` | src/vade.rs:67-70 | if plugin `k` is the first to fail, the call fails with that plugin's own error; plugins `0..k` were called and keep their new state; later plugins are not called |
| `Dispatch.FanKeepsRegistry` | src/vade.rs:68 | a dispatch never changes the length, membership or order of the registry; only plugin states change |
| `Dispatch.DispatchedIsFold` | src/vade.rs:67-71 | a dispatch returns the `Success` payloads of all plugins' answers in registry order when none fails, and the first failing plugin's error otherwise |
| `Dispatch.DispatchedWithoutSuccessIsEmpty` | src/vade.rs:67-71 | with no plugins, or plugins that all answer `NotImplemented` or `Ignored`, a dispatch returns `Ok([])` |
| `Dispatch.DispatchedToDefaultsIsEmpty` | src/vade_plugin.rs:39-177 | a registry of plugins that override nothing answers every operation with `Ok([])` |
| `Dispatch.Vade.constructor` | src/vade.rs:27-34 | a new dispatcher has an empty registry |
| `Dispatch.Vade.RegisterPlugin` | src/vade.rs:246-249 | the plugin is appended at the tail; earlier entries are unchanged |
| `Dispatch.Vade.Dispatch` | src/vade.rs:67-71 | the loop calls plugins in order, returns at the first error and otherwise filters; its result and the new registry are those of the fold `Fan` |
| `Dispatch.Vade.DidCreate` | src/vade.rs:59-72 | `did_create(did_method, options, payload)` is the dispatch of that call |
| `Dispatch.Vade.DidResolve` | src/vade.rs:95-103 | `did_resolve(did)` is the dispatch of that call |
| `Dispatch.Vade.DidUpdate` | src/vade.rs:128-141 | `did_update(did, options, payload)` is the dispatch of that call |
| `Dispatch.Vade.DidcommReceive` | src/vade.rs:168-180 | `didcomm_receive(options, payload)` is the dispatch of that call |
| `Dispatch.Vade.DidcommSend` | src/vade.rs:206-218 | `didcomm_send(options, payload)` is the dispatch of that call |
| `Dispatch.Vade.RunCustomFunction` | src/vade.rs:276-290 | `run_custom_function(method, function, options, payload)` is the dispatch of that call |
| `Dispatch.Vade.VcZkpCreateCredentialDefinition` | src/vade.rs:317-330 | the dispatch of `vc_zkp_create_credential_definition` |
| `Dispatch.Vade.VcZkpCreateCredentialOffer` | src/vade.rs:355-368 | the dispatch of `vc_zkp_create_credential_offer` |
| `Dispatch.Vade.VcZkpCreateCredentialProposal` | src/vade.rs:394-407 | the dispatch of `vc_zkp_create_credential_proposal` |
| `Dispatch.Vade.VcZkpCreateCredentialSchema` | src/vade.rs:433-446 | the dispatch of `vc_zkp_create_credential_schema` |
| `Dispatch.Vade.VcZkpCreateRevocationRegistryDefinition` | src/vade.rs:473-488 | the dispatch of `vc_zkp_create_revocation_registry_definition` |
| `Dispatch.Vade.VcZkpUpdateRevocationRegistry` | src/vade.rs:514-527 | the dispatch of `vc_zkp_update_revocation_registry` |
| `Dispatch.Vade.VcZkpIssueCredential` | src/vade.rs:553-566 | the dispatch of `vc_zkp_issue_credential` |
| `Dispatch.Vade.VcZkpFinishCredential` | src/vade.rs:591-604 | the dispatch of `vc_zkp_finish_credential` |
| `Dispatch.Vade.VcZkpPresentProof` | src/vade.rs:630-643 | the dispatch of `vc_zkp_present_proof` |
| `Dispatch.Vade.VcZkpRequestCredential` | src/vade.rs:668-681 | the dispatch of `vc_zkp_request_credential` |
| `Dispatch.Vade.VcZkpRequestProof` | src/vade.rs:706-719 | the dispatch of `vc_zkp_request_proof` |
| `Dispatch.Vade.VcZkpRevokeCredential` | src/vade.rs:745-758 | the dispatch of `vc_zkp_revoke_credential` |
| `Dispatch.Vade.VcZkpVerifyProof` | src/vade.rs:783-796 | the dispatch of `vc_zkp_verify_proof` |
| `DispatchScenarios.SingleTestPlugin` | tests/vade_plugin.rs:40-71 | with the test plugin as the only plugin, `did_create` yields `[example document]`, the ignored `did_resolve` yields `[]`, and `did_update` fails with the plugin's error "yikes" |
| `DispatchScenarios.CreateWithTestPlugin` | tests/vade_plugin.rs:102-114 | a fresh `Vade` with the test plugin registered answers `did_create("", "", "")` with the example document |
| `StorageCache.LookupAfterStore` | src/plugin/rust_storage_cache.rs:45-62 | reading a key after writing it gives the value written |
| `StorageCache.StoreKeepsOtherKeys` | src/plugin/rust_storage_cache.rs:58-62 | writing a key leaves every other key's entry as it was |
| `StorageCache.LookupMissing` | src/plugin/rust_storage_cache.rs:45-49 | reading an absent key fails with "no entry for '<key>'" |
| `StorageCache.CheckAcceptsOnlyTest` | src/plugin/rust_storage_cache.rs:79-87 | the check succeeds iff the id is "test", whatever the value; otherwise it fails with "not responsible for this did/vc" |
| `StorageCache.RustStorageCache.constructor` | src/plugin/rust_storage_cache.rs:34-38 | a new cache is empty |
| `StorageCache.RustStorageCache.Get` | src/plugin/rust_storage_cache.rs:45-50 | returns the stored value or the "no entry" error, and changes nothing |
| `StorageCache.RustStorageCache.Set` | src/plugin/rust_storage_cache.rs:58-62 | always returns `Ok`; the new store is the old one with `key` mapped to `value` |
| `StorageCache.RustStorageCache.CheckDid` | src/plugin/rust_storage_cache.rs:79-87 | succeeds iff the DID name is "test"; otherwise fails with "not responsible for this did" |
| `StorageCache.RustStorageCache.GetDidDocument` | src/plugin/rust_storage_cache.rs:94-96 | delegates to `get` |
| `StorageCache.RustStorageCache.SetDidDocument` | src/plugin/rust_storage_cache.rs:104-106 | delegates to `set` |
| `StorageCache.RustStorageCache.CheckVc` | src/plugin/rust_storage_cache.rs:123-131 | succeeds iff the VC id is "test"; otherwise fails with "not responsible for this vc" |
| `StorageCache.RustStorageCache.GetVcDocument` | src/plugin/rust_storage_cache.rs:138-140 | delegates to `get` |
| `StorageCache.RustStorageCache.SetVcDocument` | src/plugin/rust_storage_cache.rs:148-150 | delegates to `set` |
| `StorageCache.DidAndVcShareKeys` | src/plugin/rust_storage_cache.rs:94-150 | a document set through the DID resolver is read back through the VC resolver; all other keys are unchanged |
| `StorageCache.SetThenGet` | tests/storage.rs:22-45 | a fresh cache returns "example_value" for the key just set, and "no entry for 'undefined_key'" for a key never set |
| `Resolvers.SelectOk` | src/library/mod.rs:37-95 | the fold behind `select_ok` succeeds iff some outcome succeeds; it then returns the lowest-index success, and otherwise the last error |
| `Resolvers.SetAllSucceeds` | src/library/mod.rs:143-150 | a write to all resolvers succeeds iff every resolver's own write succeeds; every resolver then holds the write |
| `Resolvers.SetAllStopsAtFirstFailure` | src/library/mod.rs:143-150 | if resolver `k` is the first whose write fails, the whole write fails; resolvers `0..k` keep their writes (no rollback) and later resolvers are not written to |
| `Resolvers.SetThenGetThroughCaches` | tests/library.rs:13-40 | a write to storage caches succeeds; afterwards every cache, and a read through the library, returns the value written |
| `Resolvers.GetFromDisjointCaches` | tests/library.rs:42-63 | with two caches holding different keys, the read finds each key's value |
| `Resolvers.Library.constructor` | src/library/mod.rs:19-25 | a new library has three empty registries |
| `Resolvers.Library.CheckDid` | src/library/mod.rs:37-44 | valid iff at least one DID resolver accepts; otherwise "did document not valid" |
| `Resolvers.Library.CheckVc` | src/library/mod.rs:56-63 | valid iff at least one VC resolver accepts; otherwise "vc document not valid; " followed by the last resolver's error |
| `Resolvers.Library.GetDidDocument` | src/library/mod.rs:72-79 | succeeds iff some DID resolver has the document, returning the first such resolver's value; otherwise "could not get did document" |
| `Resolvers.Library.GetVcDocument` | src/library/mod.rs:88-95 | succeeds iff some VC resolver has the document, returning the first such resolver's value; otherwise "could not get vc document" |
| `Resolvers.Library.Log` | src/library/mod.rs:102-106 | every logger receives the message and level exactly once, in registration order |
| `Resolvers.Library.RegisterDidResolver` | src/library/mod.rs:113-115 | appends to the DID resolvers; the other two registries are unchanged |
| `Resolvers.Library.RegisterLogger` | src/library/mod.rs:122-124 | appends to the loggers; the other two registries are unchanged |
| `Resolvers.Library.RegisterVcResolver` | src/library/mod.rs:131-133 | appends to the VC resolvers; the other two registries are unchanged |
| `Resolvers.Library.SetDidDocument` | src/library/mod.rs:143-150 | writes to the DID resolvers as `SetAll` does; the result is `Ok` iff every write succeeded, otherwise "could not set did document"; the other registries are unchanged |
| `Resolvers.Library.SetVcDocument` | src/library/mod.rs:160-167 | writes to the VC resolvers as `SetAll` does; the result is `Ok` iff every write succeeded, otherwise "could not set vc document"; the other registries are unchanged |
| `LibraryScenarios.SetThenGetWithTwoCaches` | tests/library.rs:26-40 | with two fresh caches, setting "asdf" to "qwer" through the library succeeds, and reading "asdf" returns "qwer" |
| `LibraryScenarios.GetFromTwoFilledCaches` | tests/library.rs:42-63 | caches filled with "asdf1" and "asdf2" before registration return "qwer1" and "qwer2" through the library |
| `LibraryScenarios.CheckWithOneCache` | tests/library_did.rs:64-87 | with one cache, checking "test" succeeds and checking "unknown" fails with "did document not valid" |

## Left out

- Concurrency: `.await`, polling, and the cancellation of losing futures are not modelled. Every combinator is modelled as a sequential fold in registry order. For `try_join_all` over futures that are ready at their first poll, this fold is exact: the writes run in order and stop at the first failure.
- Resolvers.SelectOk: the winner is fixed to the lowest-index success, and the error to the last resolver's error. This is what `select_ok` yields when every future is ready at its first poll, as the storage cache's are. With futures that suspend, completion order decides instead.
- Resolvers.Library.CheckDid, CheckVc, GetDidDocument and GetVcDocument require a non-empty registry, because `select_ok` panics on an empty iterator.
- Plugin and resolver behaviour: cryptography, DID resolution, ledgers and DIDComm are external. A plugin is a state plus functions for the operations it overrides. An external resolver is a state plus its three calls.
- Plugin and resolver state: `Box<dyn ...>` lets each plugin have its own state type. The model uses one state type `S` per registry; a sum type can stand for several kinds.
- Logging side effects have no effect on results and are left out: `env_logger::try_init`, the `debug!` lines of `log_fun_enter` / `log_fun_leave`, and the `println!` in `check_*`. What a `Logger` does with a message is external too. `Log` returns the calls it makes instead of performing them.
- `Logger::as_any` is a Rust type-system detail and is left out.
- `impl Default for Vade` (src/vade.rs:848-850) is `Vade::new()` and has no member of its own.
- The message router (`register_message_consumer` / `send_message`) is not part of this model. Its implementation is not among the files modelled, and it depends on JSON parsing of the message envelope.
- src/lib.rs, src/traits.rs and src/library/traits.rs hold only re-exports, documentation and trait signatures. The plugin and resolver datatypes stand in for them.
- Type mismatches in the source are not reproduced:
  - src/vade.rs calls `didcomm_receive`, `didcomm_send`, `run_custom_function` and `vc_zkp_finish_credential`, which src/vade_plugin.rs does not declare. The model gives them the same default as the declared operations.
  - src/vade.rs calls the async plugin operations without `.await`. The model treats each call as completed in place.
  - The trait returns `String` payloads, while `Vade` and the tests use `Option<String>`. The model uses `Option<string>` throughout.
- Registration hands a storage cache to the library by value (`Box::from(storage)` moves it). The scenarios register a snapshot of the cache's map.
