/** The compute facade (`pywren_ibm_cloud/compute/compute.py`): a bounded retry loop
    around the backend's `invoke`, and wrappers that hand every runtime operation to
    the backend unchanged. The backend itself is a parameter: its answers to `invoke`
    are an oracle, and the other operations are recorded in a call log. */
module Compute {
  import opened Wrappers
  import opened PyValues

  /** What one `compute_handler.invoke` call did: return a value, or raise. */
  datatype Attempt = Returned(value: Value) | Raised

  /** Why `Compute.invoke` raised: the backend raised, `random.choice` had an empty
      `retry_sleeps` to choose from, or the payload lacks `executor_id` or `call_id`. */
  datatype ComputeError = BackendRaised | NoRetrySleeps | MissingPayloadKey

  /** A runtime operation handed to the backend, with the arguments it was given. */
  datatype BackendCall =
    | BuildRuntime(name: string, file: Option<string>)
    | CreateRuntime(name: string, memory: int, timeout: int)
    | DeleteRuntime(name: string, memory: int)
    | DeleteAllRuntimes
    | ListRuntimes(filter: string)
    | GetRuntimeKey(name: string, memory: int)

  /** The name `list_runtimes` lists when it is given none. */
  const AllRuntimes: string := "all"

  /** The timeout `create_runtime` passes when it is given none. */
  const DefaultCreateTimeout: int := 300000

  /** The payload keys the retry path reads for its log line. */
  predicate HasRetryKeys(payload: map<string, Value>) {
    "executor_id" in payload && "call_id" in payload
  }

  class Compute {
    const backend: string
    const invocationRetry: bool
    const retrySleeps: seq<int>
    const retries: int
    /** The runtime operations handed to the backend so far, oldest first. */
    var calls: seq<BackendCall>

    /** Lines 16-32: the settings are read from the compute configuration. */
    constructor (backend: string, invocationRetry: bool, retrySleeps: seq<int>, retries: int)
      ensures this.backend == backend && this.invocationRetry == invocationRetry
      ensures this.retrySleeps == retrySleeps && this.retries == retries
      ensures calls == []
    {
      this.backend := backend;
      this.invocationRetry := invocationRetry;
      this.retrySleeps := retrySleeps;
      this.retries := retries;
      calls := [];
    }

    /** `invoke`: call the backend once, and while the answer is falsy, retries are on
        and fewer than `retries` attempts were made, sleep a member of `retrySleeps`
        (the one `pick` selects for that attempt) and call again. `n` is the number of
        backend calls made and `sleeps` the sleeps taken, in order. */
    method Invoke(payload: map<string, Value>, handler: nat -> Attempt, pick: nat -> nat)
      returns (r: Result<Value, ComputeError>, n: nat, sleeps: seq<int>)
      ensures 1 <= n <= Max(1, retries)
      ensures !invocationRetry ==> n == 1
      ensures handler(0).Returned? && Truthy(handler(0).value) ==> n == 1 && r == Ok(handler(0).value)
      ensures forall k :: 0 <= k < n - 1 ==> handler(k).Returned? && !Truthy(handler(k).value)
      ensures r.Ok? ==> handler(n - 1) == Returned(r.value)
      ensures r.Ok? && !Truthy(r.value) && invocationRetry ==> n == Max(1, retries)
      ensures r == Err(BackendRaised) <==> handler(n - 1).Raised?
      ensures r.Err? && r != Err(BackendRaised) ==>
                handler(n - 1).Returned? && !Truthy(handler(n - 1).value) &&
                invocationRetry && n < retries
      ensures r == Err(NoRetrySleeps) <==> r.Err? && r != Err(BackendRaised) && retrySleeps == []
      ensures r == Err(MissingPayloadKey) ==> retrySleeps != [] && !HasRetryKeys(payload)
      ensures |sleeps| == n - 1
      ensures forall i :: 0 <= i < |sleeps| ==> sleeps[i] in retrySleeps
    {
      var first := handler(0);
      n := 1;
      sleeps := [];
      if first.Raised? {
        return Err(BackendRaised), n, sleeps;
      }
      var actId := first.value;
      while !Truthy(actId) && invocationRetry && n < retries
        invariant 1 <= n <= Max(1, retries)
        invariant n > 1 ==> invocationRetry
        invariant handler(n - 1) == Returned(actId)
        invariant forall k :: 0 <= k < n - 1 ==> handler(k).Returned? && !Truthy(handler(k).value)
        invariant |sleeps| == n - 1
        invariant forall i :: 0 <= i < |sleeps| ==> sleeps[i] in retrySleeps
        decreases retries - n
      {
        if retrySleeps == [] {
          return Err(NoRetrySleeps), n, sleeps;
        }
        var sleep := retrySleeps[pick(n) % |retrySleeps|];
        if !HasRetryKeys(payload) {
          return Err(MissingPayloadKey), n, sleeps;
        }
        sleeps := sleeps + [sleep];
        var next := handler(n);
        n := n + 1;
        if next.Raised? {
          return Err(BackendRaised), n, sleeps;
        }
        actId := next.value;
      }
      r := Ok(actId);
    }

    /** `build_runtime`: hand the build to the backend; `succeeds` says whether the
        backend's build returns or raises, and a raise passes through. */
    method Build(name: string, file: Option<string>, succeeds: bool) returns (r: Result<(), ComputeError>)
      modifies this
      ensures calls == old(calls) + [BuildRuntime(name, file)]
      ensures r.Ok? <==> succeeds
      ensures r.Err? ==> r == Err(BackendRaised)
    {
      calls := calls + [BuildRuntime(name, file)];
      r := if succeeds then Ok(()) else Err(BackendRaised);
    }

    /** `create_runtime`: hand the creation to the backend and pass on what it does
        (`answer`): the metadata it returns, or its raise; the timeout defaults to 300000. */
    method Create(name: string, memory: int, answer: Attempt, timeout: int := DefaultCreateTimeout)
      returns (r: Result<Value, ComputeError>)
      modifies this
      ensures calls == old(calls) + [CreateRuntime(name, memory, timeout)]
      ensures answer.Returned? ==> r == Ok(answer.value)
      ensures answer.Raised? ==> r == Err(BackendRaised)
    {
      calls := calls + [CreateRuntime(name, memory, timeout)];
      r := if answer.Returned? then Ok(answer.value) else Err(BackendRaised);
    }

    /** `delete_runtime`: hand the deletion to the backend. */
    method Delete(name: string, memory: int)
      modifies this
      ensures calls == old(calls) + [DeleteRuntime(name, memory)]
    {
      calls := calls + [DeleteRuntime(name, memory)];
    }

    /** `delete_all_runtimes`: hand the deletion of every runtime to the backend. */
    method DeleteAll()
      modifies this
      ensures calls == old(calls) + [DeleteAllRuntimes]
    {
      calls := calls + [DeleteAllRuntimes];
    }

    /** `list_runtimes`: ask the backend for the runtimes named `filter` ("all" when it
        is given none) and return its list (`answer`). */
    method List(answer: seq<(string, int)>, filter: string := AllRuntimes)
      returns (r: seq<(string, int)>)
      modifies this
      ensures calls == old(calls) + [ListRuntimes(filter)]
      ensures r == answer
    {
      calls := calls + [ListRuntimes(filter)];
      r := answer;
    }

    /** `get_runtime_key`: the backend's key for the runtime (`answer`). */
    method RuntimeKey(name: string, memory: int, answer: string) returns (r: string)
      modifies this
      ensures calls == old(calls) + [GetRuntimeKey(name, memory)]
      ensures r == answer
    {
      calls := calls + [GetRuntimeKey(name, memory)];
      r := answer;
    }
  }
}
