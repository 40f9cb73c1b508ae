/** `RustStorageCache`: an in-memory key-value store that serves as both a
    DID resolver and a VC resolver over one shared key space. */
module StorageCache {
  import opened Wrappers

  /** The value stored under `key`, or the "no entry" error. */
  function Lookup(storage: map<string, string>, key: string): Result<string>
  {
    if key in storage then Ok(storage[key]) else Err("no entry for '" + key + "'")
  }

  /** `storage` with `value` stored under `key`, replacing any earlier value. */
  function Store(storage: map<string, string>, key: string, value: string): map<string, string>
  {
    storage[key := value]
  }

  /** The validity rule of both resolver impls: only the id "test" is
      accepted; the value is not looked at. `what` is "did" or "vc". */
  function CheckId(id: string, value: string, what: string): Result<()>
  {
    if id == "test" then Ok(()) else Err("not responsible for this " + what)
  }

  /** Reading a key just written gives the value written. */
  lemma LookupAfterStore(storage: map<string, string>, key: string, value: string)
    ensures Lookup(Store(storage, key, value), key) == Ok(value)
  {
  }

  /** Writing one key leaves every other key as it was. */
  lemma StoreKeepsOtherKeys(storage: map<string, string>, key: string, value: string, other: string)
    requires other != key
    ensures Lookup(Store(storage, key, value), other) == Lookup(storage, other)
  {
  }

  /** A key that was never written is reported as missing, by name. */
  lemma LookupMissing(storage: map<string, string>, key: string)
    requires key !in storage
    ensures Lookup(storage, key) == Err("no entry for '" + key + "'")
  {
  }

  /** The check succeeds exactly for the id "test", whatever the value. */
  lemma CheckAcceptsOnlyTest(id: string, value: string, what: string)
    ensures CheckId(id, value, what).Ok? <==> id == "test"
    ensures id != "test" ==> CheckId(id, value, what) == Err("not responsible for this " + what)
  {
  }

  class RustStorageCache {
    /** The key-value mapping that holds the data. */
    var storage: map<string, string>

    /** A new cache is empty. */
    constructor ()
      ensures storage == map[]
    {
      storage := map[];
    }

    /** The value for `key`; fails for a missing key and changes nothing. */
    method Get(key: string) returns (r: Result<string>)
      ensures r == Lookup(storage, key)
    {
      if key in storage {
        r := Ok(storage[key]);
      } else {
        r := Err("no entry for '" + key + "'");
      }
    }

    /** Stores `value` under `key`, overwriting; it never fails. */
    method Set(key: string, value: string) returns (r: Result<()>)
      modifies this
      ensures r == Ok(())
      ensures storage == Store(old(storage), key, value)
    {
      storage := storage[key := value];
      r := Ok(());
    }

    /** `DidResolver::check_did`: accepts only the DID name "test". */
    method CheckDid(didName: string, value: string) returns (r: Result<()>)
      ensures r.Ok? <==> didName == "test"
      ensures r.Err? ==> r.error == "not responsible for this did"
    {
      r := CheckId(didName, value, "did");
    }

    /** `DidResolver::get_did_document`, delegated to `Get`. */
    method GetDidDocument(didId: string) returns (r: Result<string>)
      ensures r == Lookup(storage, didId)
    {
      r := Get(didId);
    }

    /** `DidResolver::set_did_document`, delegated to `Set`. */
    method SetDidDocument(didId: string, value: string) returns (r: Result<()>)
      modifies this
      ensures r == Ok(())
      ensures storage == Store(old(storage), didId, value)
    {
      r := Set(didId, value);
    }

    /** `VcResolver::check_vc`: accepts only the VC id "test". */
    method CheckVc(vcId: string, value: string) returns (r: Result<()>)
      ensures r.Ok? <==> vcId == "test"
      ensures r.Err? ==> r.error == "not responsible for this vc"
    {
      r := CheckId(vcId, value, "vc");
    }

    /** `VcResolver::get_vc_document`, delegated to `Get`. */
    method GetVcDocument(vcName: string) returns (r: Result<string>)
      ensures r == Lookup(storage, vcName)
    {
      r := Get(vcName);
    }

    /** `VcResolver::set_vc_document`, delegated to `Set`. */
    method SetVcDocument(vcName: string, value: string) returns (r: Result<()>)
      modifies this
      ensures r == Ok(())
      ensures storage == Store(old(storage), vcName, value)
    {
      r := Set(vcName, value);
    }
  }

  /** The DID and VC views share one key space: a document set through the
      DID resolver is read back through the VC resolver, and the other
      keys are untouched. */
  method DidAndVcShareKeys(cache: RustStorageCache, key: string, value: string) returns (r: Result<string>)
    modifies cache
    ensures r == Ok(value)
    ensures forall k :: k != key ==> Lookup(cache.storage, k) == Lookup(old(cache.storage), k)
  {
    var _ := cache.SetDidDocument(key, value);
    r := cache.GetVcDocument(key);
  }

  /** A fresh cache returns what was set, and names the key it lacks. */
  method SetThenGet() returns (fetched: Result<string>, missing: Result<string>)
    ensures fetched == Ok("example_value")
    ensures missing == Err("no entry for 'undefined_key'")
  {
    var cache := new RustStorageCache();
    var _ := cache.Set("example_key", "example_value");
    fetched := cache.Get("example_key");
    missing := cache.Get("undefined_key");
  }
}
