/** `Library`: three append-only registries (DID resolvers, VC resolvers,
    loggers) and the folds that turn the resolvers' outcomes into one
    answer: any-confirms for checks, first-success for reads and
    all-or-nothing for writes. */
module Resolvers {
  import opened Wrappers
  import StorageCache

  /** Which registry a resolver answers for; it only changes the storage
      cache's error message. */
  datatype Registry = DidRegistry | VcRegistry

  /** A resolver's outcome for a write, with its state afterwards. */
  datatype Written<S> = Written(outcome: Result<()>, next: S)

  /** A registered resolver: the in-memory storage cache, or an external
      resolver given by its state and the behaviour of its three calls. */
  datatype Resolver<!S> =
    | Cache(storage: map<string, string>)
    | External(state: S,
               checkDocument: (S, string, string) -> Result<()>,
               getDocument: (S, string) -> Result<string>,
               setDocument: (S, string, string) -> Written<S>)

  /** `check_did` / `check_vc` on one resolver. */
  function Check<S>(r: Resolver<S>, registry: Registry, id: string, value: string): Result<()>
  {
    match r
    case Cache(_) => StorageCache.CheckId(id, value, if registry == DidRegistry then "did" else "vc")
    case External(s, check, _, _) => check(s, id, value)
  }

  /** `get_did_document` / `get_vc_document` on one resolver. */
  function Get<S>(r: Resolver<S>, key: string): Result<string>
  {
    match r
    case Cache(storage) => StorageCache.Lookup(storage, key)
    case External(s, _, get, _) => get(s, key)
  }

  /** `set_did_document` / `set_vc_document` on one resolver: its outcome
      and the resolver as it is afterwards. */
  function Set<S>(r: Resolver<S>, key: string, value: string): (Result<()>, Resolver<S>)
  {
    match r
    case Cache(storage) => (Ok(()), Cache(StorageCache.Store(storage, key, value)))
    case External(s, _, _, write) =>
      var w := write(s, key, value);
      (w.outcome, r.(state := w.next))
  }

  // ---------------------------------------------------------------------
  // The combinators as folds

  /** `select_ok` over outcomes that are all ready: the first success in
      registry order, or the last error when every one failed. */
  function SelectOk<T>(outcomes: seq<Result<T>>): (r: Result<T>)
    requires |outcomes| > 0
    ensures r.Ok? <==> exists i :: 0 <= i < |outcomes| && outcomes[i].Ok?
    ensures r.Ok? ==> exists i :: 0 <= i < |outcomes| && outcomes[i] == r
                                  && forall j :: 0 <= j < i ==> outcomes[j].Err?
    ensures r.Err? ==> r == outcomes[|outcomes| - 1]
  {
    if outcomes[0].Ok? || |outcomes| == 1 then outcomes[0]
    else
      var r := SelectOk(outcomes[1..]);
      assert forall i :: 1 <= i < |outcomes| ==> outcomes[1..][i - 1] == outcomes[i];
      r
  }

  /** Every resolver's check outcome, in registry order. */
  function Checks<S>(rs: seq<Resolver<S>>, registry: Registry, id: string, value: string): (o: seq<Result<()>>)
    ensures |o| == |rs| && forall i :: 0 <= i < |rs| ==> o[i] == Check(rs[i], registry, id, value)
  {
    seq(|rs|, i requires 0 <= i < |rs| => Check(rs[i], registry, id, value))
  }

  /** Every resolver's read outcome, in registry order. */
  function Gets<S>(rs: seq<Resolver<S>>, key: string): (o: seq<Result<string>>)
    ensures |o| == |rs| && forall i :: 0 <= i < |rs| ==> o[i] == Get(rs[i], key)
  {
    seq(|rs|, i requires 0 <= i < |rs| => Get(rs[i], key))
  }

  /** The outcome of a write fanned out to `rs` and the resolvers afterwards. */
  datatype WriteAll<!S> = WriteAll(outcome: Result<()>, resolvers: seq<Resolver<S>>)

  /** `try_join_all` over the writes: in registry order, stopping at the
      first failure; writes that already happened stay. */
  function SetAll<S>(rs: seq<Resolver<S>>, key: string, value: string): WriteAll<S>
    decreases |rs|
  {
    if rs == [] then WriteAll(Ok(()), [])
    else
      var (outcome, first) := Set(rs[0], key, value);
      if outcome.Err? then WriteAll(outcome, [first] + rs[1..])
      else
        var rest := SetAll(rs[1..], key, value);
        WriteAll(rest.outcome, [first] + rest.resolvers)
  }

  /** The write succeeds exactly when every resolver's own write succeeds;
      then every resolver has taken the write. */
  lemma {:induction false} SetAllSucceeds<S>(rs: seq<Resolver<S>>, key: string, value: string)
    ensures |SetAll(rs, key, value).resolvers| == |rs|
    ensures SetAll(rs, key, value).outcome.Ok? <==> forall i :: 0 <= i < |rs| ==> Set(rs[i], key, value).0.Ok?
    ensures SetAll(rs, key, value).outcome.Ok? ==>
              forall i :: 0 <= i < |rs| ==> SetAll(rs, key, value).resolvers[i] == Set(rs[i], key, value).1
    decreases |rs|
  {
    if rs != [] {
      SetAllSucceeds(rs[1..], key, value);
      forall i | 1 <= i < |rs| ensures rs[1..][i - 1] == rs[i] { }
    }
  }

  /** When resolver `k` is the first whose write fails, the whole write
      fails; resolvers `0..k` keep what they did (no rollback) and the later
      ones are not written to. */
  lemma {:induction false} SetAllStopsAtFirstFailure<S>(rs: seq<Resolver<S>>, key: string, value: string, k: nat)
    requires k < |rs|
    requires forall j :: 0 <= j < k ==> Set(rs[j], key, value).0.Ok?
    requires Set(rs[k], key, value).0.Err?
    ensures SetAll(rs, key, value).outcome == Set(rs[k], key, value).0
    ensures |SetAll(rs, key, value).resolvers| == |rs|
    ensures forall j :: 0 <= j <= k ==> SetAll(rs, key, value).resolvers[j] == Set(rs[j], key, value).1
    ensures forall j :: k < j < |rs| ==> SetAll(rs, key, value).resolvers[j] == rs[j]
    decreases k
  {
    if k > 0 {
      forall j | 0 <= j < k - 1 ensures Set(rs[1..][j], key, value).0.Ok? {
        assert rs[1..][j] == rs[j + 1];
      }
      SetAllStopsAtFirstFailure(rs[1..], key, value, k - 1);
    }
  }

  /** After a write of `value` under `key` to storage caches only, the
      write has succeeded and every cache returns `value` for `key`, so a
      read through the library does too. */
  lemma SetThenGetThroughCaches<S>(rs: seq<Resolver<S>>, key: string, value: string)
    requires forall i :: 0 <= i < |rs| ==> rs[i].Cache?
    ensures SetAll(rs, key, value).outcome == Ok(())
    ensures |SetAll(rs, key, value).resolvers| == |rs|
    ensures forall i :: 0 <= i < |rs| ==> Get(SetAll(rs, key, value).resolvers[i], key) == Ok(value)
    ensures |rs| > 0 ==> SelectOk(Gets(SetAll(rs, key, value).resolvers, key)) == Ok(value)
  {
    SetAllSucceeds(rs, key, value);
  }

  /** Two caches with disjoint keys: a key of the first is read from the
      first, a key only the second holds is read from the second. */
  lemma GetFromDisjointCaches<S>(m1: map<string, string>, m2: map<string, string>, k1: string, k2: string)
    requires k1 in m1 && k2 !in m1 && k2 in m2
    ensures SelectOk(Gets<S>([Cache(m1), Cache(m2)], k1)) == Ok(m1[k1])
    ensures SelectOk(Gets<S>([Cache(m1), Cache(m2)], k2)) == Ok(m2[k2])
  {
  }

  // ---------------------------------------------------------------------
  // Loggers

  /** A registered logger, known by name; what it does with a message is
      outside the model. */
  datatype Logger = Logger(name: string)

  /** One call `logger.log(message, level)`. */
  datatype LogCall = LogCall(logger: Logger, message: string, level: Option<string>)

  // ---------------------------------------------------------------------
  // The library object

  class Library<!S> {
    var didResolvers: seq<Resolver<S>>
    var loggers: seq<Logger>
    var vcResolvers: seq<Resolver<S>>

    /** A new library has three empty registries. */
    constructor ()
      ensures didResolvers == [] && loggers == [] && vcResolvers == []
    {
      didResolvers, loggers, vcResolvers := [], [], [];
    }

    /** Valid when at least one DID resolver accepts it. */
    function CheckDid(didName: string, value: string): (r: Result<()>)
      reads this
      requires |didResolvers| > 0
      ensures r.Ok? <==> exists i :: 0 <= i < |didResolvers| && Check(didResolvers[i], DidRegistry, didName, value).Ok?
      ensures r.Err? ==> r.error == "did document not valid"
    {
      match SelectOk(Checks(didResolvers, DidRegistry, didName, value))
      case Ok(_) => Ok(())
      case Err(_) => Err("did document not valid")
    }

    /** Valid when at least one VC resolver accepts it; otherwise the error
        names the last resolver's reason. */
    function CheckVc(vcId: string, value: string): (r: Result<()>)
      reads this
      requires |vcResolvers| > 0
      ensures r.Ok? <==> exists i :: 0 <= i < |vcResolvers| && Check(vcResolvers[i], VcRegistry, vcId, value).Ok?
      ensures r.Err? ==> r.error == "vc document not valid; "
                                    + Check(vcResolvers[|vcResolvers| - 1], VcRegistry, vcId, value).error
    {
      match SelectOk(Checks(vcResolvers, VcRegistry, vcId, value))
      case Ok(_) => Ok(())
      case Err(e) => Err("vc document not valid; " + e)
    }

    /** The document of the first DID resolver that has one. */
    function GetDidDocument(didName: string): (r: Result<string>)
      reads this
      requires |didResolvers| > 0
      ensures r.Ok? <==> exists i :: 0 <= i < |didResolvers| && Get(didResolvers[i], didName).Ok?
      ensures r.Ok? ==> exists i :: 0 <= i < |didResolvers| && Get(didResolvers[i], didName) == r
                                    && forall j :: 0 <= j < i ==> Get(didResolvers[j], didName).Err?
      ensures r.Err? ==> r.error == "could not get did document"
    {
      match SelectOk(Gets(didResolvers, didName))
      case Ok(doc) => Ok(doc)
      case Err(_) => Err("could not get did document")
    }

    /** The document of the first VC resolver that has one. */
    function GetVcDocument(vcName: string): (r: Result<string>)
      reads this
      requires |vcResolvers| > 0
      ensures r.Ok? <==> exists i :: 0 <= i < |vcResolvers| && Get(vcResolvers[i], vcName).Ok?
      ensures r.Ok? ==> exists i :: 0 <= i < |vcResolvers| && Get(vcResolvers[i], vcName) == r
                                    && forall j :: 0 <= j < i ==> Get(vcResolvers[j], vcName).Err?
      ensures r.Err? ==> r.error == "could not get vc document"
    {
      match SelectOk(Gets(vcResolvers, vcName))
      case Ok(doc) => Ok(doc)
      case Err(_) => Err("could not get vc document")
    }

    /** Hands `message` to every logger once, in registration order; the
        result lists the calls made. */
    method Log(message: string, level: Option<string>) returns (calls: seq<LogCall>)
      ensures |calls| == |loggers|
      ensures forall i :: 0 <= i < |loggers| ==> calls[i] == LogCall(loggers[i], message, level)
    {
      calls := [];
      for i := 0 to |loggers|
        invariant |calls| == i
        invariant forall j :: 0 <= j < i ==> calls[j] == LogCall(loggers[j], message, level)
      {
        calls := calls + [LogCall(loggers[i], message, level)];
      }
    }

    /** Appends a DID resolver; the other registries are unchanged. */
    method RegisterDidResolver(resolver: Resolver<S>)
      modifies this
      ensures didResolvers == old(didResolvers) + [resolver]
      ensures loggers == old(loggers) && vcResolvers == old(vcResolvers)
    {
      didResolvers := didResolvers + [resolver];
    }

    /** Appends a logger; the other registries are unchanged. */
    method RegisterLogger(logger: Logger)
      modifies this
      ensures loggers == old(loggers) + [logger]
      ensures didResolvers == old(didResolvers) && vcResolvers == old(vcResolvers)
    {
      loggers := loggers + [logger];
    }

    /** Appends a VC resolver; the other registries are unchanged. */
    method RegisterVcResolver(resolver: Resolver<S>)
      modifies this
      ensures vcResolvers == old(vcResolvers) + [resolver]
      ensures didResolvers == old(didResolvers) && loggers == old(loggers)
    {
      vcResolvers := vcResolvers + [resolver];
    }

    /** Writes to every DID resolver in order; fails with a generic error
        as soon as one fails, keeping the writes already made. */
    method SetDidDocument(didName: string, value: string) returns (r: Result<()>)
      modifies this
      ensures r == if SetAll(old(didResolvers), didName, value).outcome.Ok? then Ok(())
                   else Err("could not set did document")
      ensures didResolvers == SetAll(old(didResolvers), didName, value).resolvers
      ensures loggers == old(loggers) && vcResolvers == old(vcResolvers)
    {
      var written := SetAll(didResolvers, didName, value);
      didResolvers := written.resolvers;
      r := if written.outcome.Ok? then Ok(()) else Err("could not set did document");
    }

    /** Writes to every VC resolver in order; fails with a generic error
        as soon as one fails, keeping the writes already made. */
    method SetVcDocument(vcName: string, value: string) returns (r: Result<()>)
      modifies this
      ensures r == if SetAll(old(vcResolvers), vcName, value).outcome.Ok? then Ok(())
                   else Err("could not set vc document")
      ensures vcResolvers == SetAll(old(vcResolvers), vcName, value).resolvers
      ensures didResolvers == old(didResolvers) && loggers == old(loggers)
    {
      var written := SetAll(vcResolvers, vcName, value);
      vcResolvers := written.resolvers;
      r := if written.outcome.Ok? then Ok(()) else Err("could not set vc document");
    }
  }
}

/** The library tests' outcomes against storage caches; the check scenario
    follows a test that makes the same calls on a `Vade` value. */
module LibraryScenarios {
  import opened Wrappers
  import opened Resolvers
  import opened StorageCache

  /** Two fresh caches registered as DID resolvers: a document set through
      the library is read back through it. */
  method SetThenGetWithTwoCaches() returns (written: Result<()>, fetched: Result<string>)
    ensures written == Ok(())
    ensures fetched == Ok("qwer")
  {
    var library := new Library<()>();
    var storage1 := new RustStorageCache();
    library.RegisterDidResolver(Cache(storage1.storage));
    var storage2 := new RustStorageCache();
    library.RegisterDidResolver(Cache(storage2.storage));
    SetThenGetThroughCaches(library.didResolvers, "asdf", "qwer");
    written := library.SetDidDocument("asdf", "qwer");
    fetched := library.GetDidDocument("asdf");
  }

  /** Two caches, each filled with its own key before registration: the
      library finds each key's document. */
  method GetFromTwoFilledCaches() returns (first: Result<string>, second: Result<string>)
    ensures first == Ok("qwer1")
    ensures second == Ok("qwer2")
  {
    var library := new Library<()>();
    var storage1 := new RustStorageCache();
    var _ := storage1.SetDidDocument("asdf1", "qwer1");
    library.RegisterDidResolver(Cache(storage1.storage));
    var storage2 := new RustStorageCache();
    var _ := storage2.SetDidDocument("asdf2", "qwer2");
    library.RegisterDidResolver(Cache(storage2.storage));
    GetFromDisjointCaches<()>(storage1.storage, storage2.storage, "asdf1", "asdf2");
    first := library.GetDidDocument("asdf1");
    second := library.GetDidDocument("asdf2");
  }

  /** With one cache registered, the DID name "test" is valid and any
      other name is not. */
  method CheckWithOneCache() returns (valid: Result<()>, unknown: Result<()>)
    ensures valid == Ok(())
    ensures unknown == Err("did document not valid")
  {
    var library := new Library<()>();
    var storage := new RustStorageCache();
    library.RegisterDidResolver(Cache(storage.storage));
    valid := library.CheckDid("test", "example_value");
    unknown := library.CheckDid("unknown", "example_value");
  }
}
