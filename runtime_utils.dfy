/** Runtime management (`pywren_ibm_cloud/runtime/utils.py`): each operation pairs the
    runtimes the compute backend lists with backend calls and with the runtime metadata
    kept in object storage. The compute facade is `Compute.Compute`, whose call log
    records what the backend was asked; the backend's answers (the runtimes it lists,
    its runtime keys, the metadata a creation returns, whether a build or a creation
    raises) and whether a metadata upload succeeds are parameters. */
module RuntimeUtils {
  import opened Wrappers
  import opened PyValues
  import PyStr
  import Compute

  /** `RUNTIMES_PREFIX_DEFAULT`: where runtime metadata lives in the storage bucket. */
  const RuntimesPrefix: string := "pywren.runtimes"

  /** Why an operation failed: a `pywren` setting is absent (KeyError) or not an
      integer, the backend's build or creation raised, or a metadata upload raised (the
      re-raise on lines 47 and 69 fails too). */
  datatype RuntimeError =
    | MissingSetting(key: string)
    | NotAnInteger(key: string)
    | BuildFailed
    | CreationFailed
    | UploadFailed

  /** A runtime as `list_runtimes` reports it: its image name and its memory. */
  type Runtime = (string, int)

  /** The key of the object holding the metadata of the runtime whose key is `runtimeKey`:
      a JSON file under the runtimes prefix. */
  function MetaObjectKey(runtimeKey: string): (k: string)
    ensures PyStr.StartsWith(k, RuntimesPrefix)
  {
    var k := RuntimesPrefix + "/" + runtimeKey + ".meta.json";
    assert k[..|RuntimesPrefix|] == RuntimesPrefix;
    k
  }

  /** Different runtimes keep their metadata in different objects. */
  lemma MetaObjectKeyInjective(a: string, b: string)
    ensures MetaObjectKey(a) == MetaObjectKey(b) ==> a == b
  {
    var n := |RuntimesPrefix| + 1;
    assert a == MetaObjectKey(a)[n..|MetaObjectKey(a)| - 10];
    assert b == MetaObjectKey(b)[n..|MetaObjectKey(b)| - 10];
  }

  /** The storage bucket: its objects by key, each with its content. */
  class InternalStorage {
    var objects: map<string, Value>

    constructor (objects: map<string, Value>)
      ensures this.objects == objects
    {
      this.objects := objects;
    }

    /** `put_runtime_meta`: write the metadata to the runtime's metadata object;
        `uploaded` says whether the upload succeeds. */
    method PutRuntimeMeta(key: string, runtimeMeta: Value, uploaded: bool) returns (r: Result<(), RuntimeError>)
      modifies this
      ensures uploaded ==> r.Ok? && objects == old(objects)[MetaObjectKey(key) := runtimeMeta]
      ensures !uploaded ==> r == Err(UploadFailed) && objects == old(objects)
    {
      if !uploaded {
        return Err(UploadFailed);
      }
      objects := objects[MetaObjectKey(key) := runtimeMeta];
      r := Ok(());
    }

    /** `delete_runtime_meta`: remove the runtime's metadata object. */
    method DeleteRuntimeMeta(key: string)
      modifies this
      ensures objects == old(objects) - {MetaObjectKey(key)}
    {
      objects := objects - {MetaObjectKey(key)};
    }

    /** `list_keys(bucket, prefix)`: the keys that start with `prefix`. */
    method ListKeys(prefix: string) returns (keys: set<string>)
      ensures keys == set k | k in objects && PyStr.StartsWith(k, prefix)
    {
      keys := set k | k in objects && PyStr.StartsWith(k, prefix);
    }

    /** `delete_objects(bucket, keys)`. */
    method DeleteObjects(keys: set<string>)
      modifies this
      ensures objects == old(objects) - keys
    {
      objects := objects - keys;
    }
  }

  /** An integer setting of the `pywren` section. */
  function IntSetting(settings: map<string, Value>, key: string): (r: Result<int, RuntimeError>)
    ensures r.Ok? <==> key in settings && settings[key].VInt?
    ensures r.Ok? ==> r.value == settings[key].i
    ensures key !in settings ==> r == Err(MissingSetting(key))
  {
    if key !in settings then Err(MissingSetting(key))
    else if !settings[key].VInt? then Err(NotAnInteger(key))
    else Ok(settings[key].i)
  }

  /** Line 37: the memory asked for, or the configured `runtime_memory` when none (or a
      falsy 0) is asked for. */
  function ResolveMemory(memory: Option<int>, settings: map<string, Value>): (r: Result<int, RuntimeError>)
    ensures memory.Some? && memory.value != 0 ==> r == Ok(memory.value)
    ensures (memory == None || memory == Some(0)) ==> r == IntSetting(settings, "runtime_memory")
  {
    if memory.Some? && memory.value != 0 then Ok(memory.value) else IntSetting(settings, "runtime_memory")
  }

  /** The backend calls `update_runtime` makes for `runtimes`, in order: for each, its
      key, then its re-creation with the configured timeout. */
  function RecreateCalls(runtimes: seq<Runtime>, timeout: int): seq<Compute.BackendCall> {
    if runtimes == [] then []
    else
      var last := runtimes[|runtimes| - 1];
      RecreateCalls(runtimes[..|runtimes| - 1], timeout) +
      [Compute.GetRuntimeKey(last.0, last.1), Compute.CreateRuntime(last.0, last.1, timeout)]
  }

  /** The backend calls `delete_runtime` makes for `runtimes`, in order: for each, its
      deletion, then its key. */
  function DeleteCalls(runtimes: seq<Runtime>): seq<Compute.BackendCall> {
    if runtimes == [] then []
    else
      var last := runtimes[|runtimes| - 1];
      DeleteCalls(runtimes[..|runtimes| - 1]) +
      [Compute.DeleteRuntime(last.0, last.1), Compute.GetRuntimeKey(last.0, last.1)]
  }

  /** The bucket after `runtimes` were created one after the other, each creation's
      metadata (`metaOf`) put in the metadata object of the runtime's key (`keyOf`). */
  function Stored(objects: map<string, Value>, runtimes: seq<Runtime>,
                  keyOf: (string, int) -> string, metaOf: (string, int) -> Value): map<string, Value> {
    if runtimes == [] then objects
    else
      var last := runtimes[|runtimes| - 1];
      Stored(objects, runtimes[..|runtimes| - 1], keyOf, metaOf)[MetaObjectKey(keyOf(last.0, last.1)) := metaOf(last.0, last.1)]
  }

  /** The bucket after the metadata objects of `runtimes` were deleted one after the other. */
  function Removed(objects: map<string, Value>, runtimes: seq<Runtime>, keyOf: (string, int) -> string): map<string, Value> {
    if runtimes == [] then objects
    else
      var last := runtimes[|runtimes| - 1];
      Removed(objects, runtimes[..|runtimes| - 1], keyOf) - {MetaObjectKey(keyOf(last.0, last.1))}
  }

  /** The keys of the metadata objects of `runtimes`. */
  function MetaKeysOf(runtimes: seq<Runtime>, keyOf: (string, int) -> string): set<string> {
    if runtimes == [] then {}
    else
      var last := runtimes[|runtimes| - 1];
      MetaKeysOf(runtimes[..|runtimes| - 1], keyOf) + {MetaObjectKey(keyOf(last.0, last.1))}
  }

  lemma {:induction false} MetaKeysOfMembers(runtimes: seq<Runtime>, keyOf: (string, int) -> string, k: string)
    ensures k in MetaKeysOf(runtimes, keyOf) <==>
              exists i :: 0 <= i < |runtimes| && MetaObjectKey(keyOf(runtimes[i].0, runtimes[i].1)) == k
  {
    if runtimes != [] {
      var init := runtimes[..|runtimes| - 1];
      MetaKeysOfMembers(init, keyOf, k);
      if k in MetaKeysOf(init, keyOf) {
        var i :| 0 <= i < |init| && MetaObjectKey(keyOf(init[i].0, init[i].1)) == k;
        assert runtimes[i] == init[i];
      }
      if exists i :: 0 <= i < |runtimes| && MetaObjectKey(keyOf(runtimes[i].0, runtimes[i].1)) == k {
        var i :| 0 <= i < |runtimes| && MetaObjectKey(keyOf(runtimes[i].0, runtimes[i].1)) == k;
        if i < |init| {
          assert init[i] == runtimes[i];
        }
      }
    }
  }

  /** `update_runtime` pairs runtime `i` with the calls at `2 * i` and `2 * i + 1`. */
  lemma {:induction false} RecreateCallsAt(runtimes: seq<Runtime>, timeout: int, i: nat)
    requires i < |runtimes|
    ensures |RecreateCalls(runtimes, timeout)| == 2 * |runtimes|
    ensures RecreateCalls(runtimes, timeout)[2 * i] == Compute.GetRuntimeKey(runtimes[i].0, runtimes[i].1)
    ensures RecreateCalls(runtimes, timeout)[2 * i + 1] == Compute.CreateRuntime(runtimes[i].0, runtimes[i].1, timeout)
  {
    var init := runtimes[..|runtimes| - 1];
    if i < |init| {
      RecreateCallsAt(init, timeout, i);
      assert init[i] == runtimes[i];
    } else {
      RecreateCallsLength(init, timeout);
    }
  }

  lemma {:induction false} RecreateCallsLength(runtimes: seq<Runtime>, timeout: int)
    ensures |RecreateCalls(runtimes, timeout)| == 2 * |runtimes|
  {
    if runtimes != [] {
      RecreateCallsLength(runtimes[..|runtimes| - 1], timeout);
    }
  }

  /** `delete_runtime` pairs runtime `i` with the calls at `2 * i` and `2 * i + 1`. */
  lemma {:induction false} DeleteCallsAt(runtimes: seq<Runtime>, i: nat)
    requires i < |runtimes|
    ensures |DeleteCalls(runtimes)| == 2 * |runtimes|
    ensures DeleteCalls(runtimes)[2 * i] == Compute.DeleteRuntime(runtimes[i].0, runtimes[i].1)
    ensures DeleteCalls(runtimes)[2 * i + 1] == Compute.GetRuntimeKey(runtimes[i].0, runtimes[i].1)
  {
    var init := runtimes[..|runtimes| - 1];
    if i < |init| {
      DeleteCallsAt(init, i);
      assert init[i] == runtimes[i];
    } else {
      DeleteCallsLength(init);
    }
  }

  lemma {:induction false} DeleteCallsLength(runtimes: seq<Runtime>)
    ensures |DeleteCalls(runtimes)| == 2 * |runtimes|
  {
    if runtimes != [] {
      DeleteCallsLength(runtimes[..|runtimes| - 1]);
    }
  }

  /** The bucket holds a metadata object for every runtime created, and keeps the
      objects it had. */
  lemma {:induction false} StoredKeys(objects: map<string, Value>, runtimes: seq<Runtime>,
                                      keyOf: (string, int) -> string, metaOf: (string, int) -> Value)
    ensures Stored(objects, runtimes, keyOf, metaOf).Keys == objects.Keys + MetaKeysOf(runtimes, keyOf)
  {
    if runtimes != [] {
      StoredKeys(objects, runtimes[..|runtimes| - 1], keyOf, metaOf);
    }
  }

  /** Each runtime's metadata is the content of its metadata object, unless a later
      runtime of the list has the same runtime key. */
  lemma {:induction false} StoredAt(objects: map<string, Value>, runtimes: seq<Runtime>,
                                    keyOf: (string, int) -> string, metaOf: (string, int) -> Value, i: nat)
    requires i < |runtimes|
    requires forall j :: i < j < |runtimes| ==>
               keyOf(runtimes[j].0, runtimes[j].1) != keyOf(runtimes[i].0, runtimes[i].1)
    ensures var k := MetaObjectKey(keyOf(runtimes[i].0, runtimes[i].1));
            k in Stored(objects, runtimes, keyOf, metaOf) &&
            Stored(objects, runtimes, keyOf, metaOf)[k] == metaOf(runtimes[i].0, runtimes[i].1)
  {
    var init := runtimes[..|runtimes| - 1];
    if i < |init| {
      assert init[i] == runtimes[i];
      forall j | i < j < |init|
        ensures keyOf(init[j].0, init[j].1) != keyOf(init[i].0, init[i].1)
      {
        assert init[j] == runtimes[j];
      }
      StoredAt(objects, init, keyOf, metaOf, i);
      var last := runtimes[|runtimes| - 1];
      MetaObjectKeyInjective(keyOf(last.0, last.1), keyOf(runtimes[i].0, runtimes[i].1));
    }
  }

  /** Deleting the listed runtimes' metadata removes exactly their metadata objects and
      keeps every other object as it was. */
  lemma {:induction false} RemovedKeys(objects: map<string, Value>, runtimes: seq<Runtime>, keyOf: (string, int) -> string)
    ensures Removed(objects, runtimes, keyOf).Keys == objects.Keys - MetaKeysOf(runtimes, keyOf)
    ensures forall k :: k in Removed(objects, runtimes, keyOf) ==> Removed(objects, runtimes, keyOf)[k] == objects[k]
  {
    if runtimes != [] {
      RemovedKeys(objects, runtimes[..|runtimes| - 1], keyOf);
    }
  }

  /** One more runtime of `update_runtime`'s loop: two more calls, one more object. */
  lemma RecreateStep(listed: seq<Runtime>, i: nat, timeout: int, objects: map<string, Value>,
                     keyOf: (string, int) -> string, metaOf: (string, int) -> Value)
    requires i < |listed|
    ensures RecreateCalls(listed[..i + 1], timeout) == RecreateCalls(listed[..i], timeout) +
              [Compute.GetRuntimeKey(listed[i].0, listed[i].1), Compute.CreateRuntime(listed[i].0, listed[i].1, timeout)]
    ensures Stored(objects, listed[..i + 1], keyOf, metaOf) ==
              Stored(objects, listed[..i], keyOf, metaOf)[MetaObjectKey(keyOf(listed[i].0, listed[i].1)) := metaOf(listed[i].0, listed[i].1)]
  {
    assert listed[..i + 1][..i] == listed[..i];
  }

  /** One more runtime of `delete_runtime`'s loop: two more calls, one object fewer. */
  lemma DeleteStep(listed: seq<Runtime>, i: nat, objects: map<string, Value>, keyOf: (string, int) -> string)
    requires i < |listed|
    ensures DeleteCalls(listed[..i + 1]) == DeleteCalls(listed[..i]) +
              [Compute.DeleteRuntime(listed[i].0, listed[i].1), Compute.GetRuntimeKey(listed[i].0, listed[i].1)]
    ensures Removed(objects, listed[..i + 1], keyOf) == Removed(objects, listed[..i], keyOf) - {MetaObjectKey(keyOf(listed[i].0, listed[i].1))}
  {
    assert listed[..i + 1][..i] == listed[..i];
  }

  /** Lines 30-47, `create_runtime`: resolve the memory and the timeout, ask the backend
      for the runtime's key, create it, and store the metadata the creation returns under
      that key. `keyOf` and `metaOf` are the backend's answers, `created` says whether the
      backend's creation returns (rather than raises) and `uploaded` whether the metadata
      upload succeeds. A creation that raises ends the operation before any upload. */
  method CreateRuntime(name: string, memory: Option<int>, settings: map<string, Value>,
                       compute: Compute.Compute, storage: InternalStorage,
                       keyOf: (string, int) -> string, metaOf: (string, int) -> Value,
                       created: bool, uploaded: bool)
    returns (r: Result<(), RuntimeError>)
    modifies compute, storage
    ensures ResolveMemory(memory, settings).Err? ==>
              r == Err(ResolveMemory(memory, settings).error) &&
              compute.calls == old(compute.calls) && storage.objects == old(storage.objects)
    ensures ResolveMemory(memory, settings).Ok? && IntSetting(settings, "runtime_timeout").Err? ==>
              r == Err(IntSetting(settings, "runtime_timeout").error) &&
              compute.calls == old(compute.calls) && storage.objects == old(storage.objects)
    ensures ResolveMemory(memory, settings).Ok? && IntSetting(settings, "runtime_timeout").Ok? ==>
              var m := ResolveMemory(memory, settings).value;
              var timeout := IntSetting(settings, "runtime_timeout").value;
              compute.calls == old(compute.calls) +
                [Compute.GetRuntimeKey(name, m), Compute.CreateRuntime(name, m, timeout)] &&
              (!created ==> r == Err(CreationFailed) && storage.objects == old(storage.objects)) &&
              (created && uploaded ==>
                 r.Ok? && storage.objects == old(storage.objects)[MetaObjectKey(keyOf(name, m)) := metaOf(name, m)]) &&
              (created && !uploaded ==> r == Err(UploadFailed) && storage.objects == old(storage.objects))
  {
    var m :- ResolveMemory(memory, settings);
    var timeout :- IntSetting(settings, "runtime_timeout");
    var runtimeKey := compute.RuntimeKey(name, m, keyOf(name, m));
    var runtimeMeta := compute.Create(name, m, if created then Compute.Returned(metaOf(name, m)) else Compute.Raised, timeout);
    if runtimeMeta.Err? {
      return Err(CreationFailed);
    }
    r := storage.PutRuntimeMeta(runtimeKey, runtimeMeta.value, uploaded);
  }

  /** What `update_runtime`'s loop leaves behind when it started from the call log
      `calls0` and the bucket `objects0`: the first `done` listed runtimes were re-created
      and their metadata stored, and the loop ended either after the last runtime or at
      the first creation (`created(i)`) or upload (`uploaded(i)`) that failed, whose
      error `r` is. */
  predicate UpdatedAs(name: string, listed: seq<Runtime>, timeout: int,
                      keyOf: (string, int) -> string, metaOf: (string, int) -> Value,
                      created: nat -> bool, uploaded: nat -> bool,
                      calls0: seq<Compute.BackendCall>, objects0: map<string, Value>,
                      r: Result<(), RuntimeError>, done: nat,
                      calls: seq<Compute.BackendCall>, objects: map<string, Value>)
  {
    done <= |listed| &&
    (forall i :: 0 <= i < done ==> created(i) && uploaded(i)) &&
    (r.Ok? <==> done == |listed|) &&
    (r.Err? ==> (!created(done) && r == Err(CreationFailed)) ||
                (created(done) && !uploaded(done) && r == Err(UploadFailed))) &&
    calls == calls0 + [Compute.ListRuntimes(name)] +
               RecreateCalls(listed[..if r.Ok? then done else done + 1], timeout) &&
    objects == Stored(objects0, listed[..done], keyOf, metaOf)
  }

  /** Lines 50-69, `update_runtime`: re-create every runtime the backend lists for `name`
      (`listed`) with its own memory, storing each creation's metadata under that
      runtime's key. The loop stops at the first creation that raises (`created(i)` is
      false for the `i`-th runtime) or upload that fails (`uploaded(i)` is false); `done`
      is the number of runtimes whose metadata was stored. */
  method UpdateRuntime(name: string, settings: map<string, Value>,
                       compute: Compute.Compute, storage: InternalStorage, listed: seq<Runtime>,
                       keyOf: (string, int) -> string, metaOf: (string, int) -> Value,
                       created: nat -> bool, uploaded: nat -> bool)
    returns (r: Result<(), RuntimeError>, done: nat)
    modifies compute, storage
    ensures IntSetting(settings, "runtime_timeout").Err? ==>
              r == Err(IntSetting(settings, "runtime_timeout").error) && done == 0 &&
              compute.calls == old(compute.calls) && storage.objects == old(storage.objects)
    ensures IntSetting(settings, "runtime_timeout").Ok? ==>
              UpdatedAs(name, listed, IntSetting(settings, "runtime_timeout").value, keyOf, metaOf, created, uploaded,
                        old(compute.calls), old(storage.objects), r, done, compute.calls, storage.objects)
  {
    done := 0;
    var timeout :- IntSetting(settings, "runtime_timeout");
    var runtimes := compute.List(listed, name);
    assert listed[..0] == [];
    while done < |runtimes|
      invariant done <= |runtimes| && runtimes == listed
      invariant forall i :: 0 <= i < done ==> created(i) && uploaded(i)
      invariant compute.calls == old(compute.calls) + [Compute.ListRuntimes(name)] + RecreateCalls(listed[..done], timeout)
      invariant storage.objects == Stored(old(storage.objects), listed[..done], keyOf, metaOf)
    {
      var runtime := runtimes[done];
      RecreateStep(listed, done, timeout, old(storage.objects), keyOf, metaOf);
      var runtimeKey := compute.RuntimeKey(runtime.0, runtime.1, keyOf(runtime.0, runtime.1));
      var answer := if created(done) then Compute.Returned(metaOf(runtime.0, runtime.1)) else Compute.Raised;
      var runtimeMeta := compute.Create(runtime.0, runtime.1, answer, timeout);
      assert compute.calls == old(compute.calls) + [Compute.ListRuntimes(name)] + RecreateCalls(listed[..done + 1], timeout);
      if runtimeMeta.Err? {
        return Err(CreationFailed), done;
      }
      var put := storage.PutRuntimeMeta(runtimeKey, runtimeMeta.value, uploaded(done));
      if put.Err? {
        return put, done;
      }
      done := done + 1;
    }
    assert listed[..done] == listed;
    r := Ok(());
  }

  /** Lines 72-79, `build_runtime`: ask the backend to build the runtime, then create it
      with the configured memory, then update every runtime listed under its name. A
      build that raises (`built` false) ends it before anything is created, a failed
      creation before anything is updated. `stored` says whether the creation's upload
      succeeds; `created` and `uploaded` are the update's answers. */
  method BuildRuntime(name: string, file: Option<string>, settings: map<string, Value>,
                      compute: Compute.Compute, storage: InternalStorage, listed: seq<Runtime>,
                      keyOf: (string, int) -> string, metaOf: (string, int) -> Value,
                      built: bool, createdFirst: bool, stored: bool, created: nat -> bool, uploaded: nat -> bool)
    returns (r: Result<(), RuntimeError>, done: nat)
    modifies compute, storage
    ensures !built ==>
              r == Err(BuildFailed) && done == 0 &&
              compute.calls == old(compute.calls) + [Compute.BuildRuntime(name, file)] &&
              storage.objects == old(storage.objects)
    ensures built && IntSetting(settings, "runtime_memory").Err? ==>
              r == Err(IntSetting(settings, "runtime_memory").error) && done == 0 &&
              compute.calls == old(compute.calls) + [Compute.BuildRuntime(name, file)] &&
              storage.objects == old(storage.objects)
    ensures built && IntSetting(settings, "runtime_memory").Ok? && IntSetting(settings, "runtime_timeout").Err? ==>
              r == Err(IntSetting(settings, "runtime_timeout").error) && done == 0 &&
              compute.calls == old(compute.calls) + [Compute.BuildRuntime(name, file)] &&
              storage.objects == old(storage.objects)
    ensures built && IntSetting(settings, "runtime_memory").Ok? && IntSetting(settings, "runtime_timeout").Ok? ==>
              var m := IntSetting(settings, "runtime_memory").value;
              var timeout := IntSetting(settings, "runtime_timeout").value;
              var afterCreate := old(compute.calls) + [Compute.BuildRuntime(name, file)] +
                                 [Compute.GetRuntimeKey(name, m), Compute.CreateRuntime(name, m, timeout)];
              (!createdFirst ==> r == Err(CreationFailed) && done == 0 && compute.calls == afterCreate &&
                                 storage.objects == old(storage.objects)) &&
              (createdFirst && !stored ==> r == Err(UploadFailed) && done == 0 && compute.calls == afterCreate &&
                                           storage.objects == old(storage.objects)) &&
              (createdFirst && stored ==>
                 UpdatedAs(name, listed, timeout, keyOf, metaOf, created, uploaded, afterCreate,
                           old(storage.objects)[MetaObjectKey(keyOf(name, m)) := metaOf(name, m)],
                           r, done, compute.calls, storage.objects))
  {
    done := 0;
    var b := compute.Build(name, file, built);
    if b.Err? {
      return Err(BuildFailed), done;
    }
    r := CreateRuntime(name, None, settings, compute, storage, keyOf, metaOf, createdFirst, stored);
    if r.Err? {
      return;
    }
    r, done := UpdateRuntime(name, settings, compute, storage, listed, keyOf, metaOf, created, uploaded);
  }

  /** Lines 82-93, `delete_runtime`: for every runtime the backend lists for `name`
      (`listed`), delete it, ask for its key and delete its metadata object, in list
      order. */
  method DeleteRuntime(name: string, compute: Compute.Compute, storage: InternalStorage,
                       listed: seq<Runtime>, keyOf: (string, int) -> string)
    modifies compute, storage
    ensures compute.calls == old(compute.calls) + [Compute.ListRuntimes(name)] + DeleteCalls(listed)
    ensures storage.objects == Removed(old(storage.objects), listed, keyOf)
  {
    var runtimes := compute.List(listed, name);
    var i := 0;
    assert listed[..0] == [];
    while i < |runtimes|
      invariant i <= |runtimes| && runtimes == listed
      invariant compute.calls == old(compute.calls) + [Compute.ListRuntimes(name)] + DeleteCalls(listed[..i])
      invariant storage.objects == Removed(old(storage.objects), listed[..i], keyOf)
    {
      var runtime := runtimes[i];
      DeleteStep(listed, i, old(storage.objects), keyOf);
      compute.Delete(runtime.0, runtime.1);
      var runtimeKey := compute.RuntimeKey(runtime.0, runtime.1, keyOf(runtime.0, runtime.1));
      storage.DeleteRuntimeMeta(runtimeKey);
      i := i + 1;
    }
    assert listed[..i] == listed;
  }

  /** Lines 116-122, the storage and compute part of `clean_runtimes`: delete every object
      under the runtimes prefix (if there is any), and with them the metadata of every
      runtime, then every runtime of the backend. */
  method CleanRuntimes(compute: Compute.Compute, storage: InternalStorage)
    modifies compute, storage
    ensures storage.objects == old(storage.objects) - set k | k in old(storage.objects) && PyStr.StartsWith(k, RuntimesPrefix)
    ensures forall runtimeKey :: MetaObjectKey(runtimeKey) !in storage.objects
    ensures compute.calls == old(compute.calls) + [Compute.DeleteAllRuntimes]
  {
    var runtimes := storage.ListKeys(RuntimesPrefix);
    if runtimes != {} {
      storage.DeleteObjects(runtimes);
    }
    compute.DeleteAll();
  }
}
