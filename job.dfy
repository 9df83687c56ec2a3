/** The data layout of a job (`pywren_ibm_cloud/job/job.py`): how the serialized inputs
    are aggregated into one object with a byte range per call, how a reduce job splits
    the map futures per object, how a map job is regrouped for remote invocation, and
    the structural rules of `_create_job`. Serialization and the storage service are
    parameters: the serialized strings are given, and the objects stored are returned. */
module Job {
  import opened Wrappers
  import opened PyStr
  import opened PyValues
  import opened Seqs
  import Utils

  // ---------------------------------------------------------------------------
  // _agg_data

  /** The inclusive byte range `_agg_data` assigns to input `i`: it starts after the
      inputs before it and is as long as input `i`. */
  function RangeOf(parts: seq<seq<byte>>, i: nat): (int, int)
    requires i < |parts|
  {
    var start := SumLengths(parts[..i]);
    (start, start + |parts[i]| - 1)
  }

  /** The inclusive slice of range `i` of the joined bytes is input `i`. */
  lemma AggRangeSlice(parts: seq<seq<byte>>, i: nat)
    requires i < |parts|
    ensures var (lo, hi) := RangeOf(parts, i);
            0 <= lo <= hi + 1 <= |Concat(parts)| && Concat(parts)[lo..hi + 1] == parts[i]
  {
    ConcatAround(parts, i);
    SumLengthsIsJoinedLength(parts[..i]);
  }

  /** Range `i + 1` starts one past the end of range `i`. */
  lemma AggRangeNext(parts: seq<seq<byte>>, i: nat)
    requires i + 1 < |parts|
    ensures RangeOf(parts, i + 1).0 == RangeOf(parts, i).1 + 1
  {
    assert parts[..i + 1][..i] == parts[..i];
  }

  /** Lines 142-145: the first range starts at 0, each next range starts one past the
      previous end, and the inclusive slice of range `i` of the joined bytes is input `i`. */
  lemma AggRangesLayout(parts: seq<seq<byte>>)
    ensures parts != [] ==> RangeOf(parts, 0).0 == 0
    ensures forall i :: 0 <= i < |parts| - 1 ==> RangeOf(parts, i + 1).0 == RangeOf(parts, i).1 + 1
    ensures forall i :: 0 <= i < |parts| ==>
              0 <= RangeOf(parts, i).0 <= RangeOf(parts, i).1 + 1 <= |Concat(parts)| &&
              Concat(parts)[RangeOf(parts, i).0..RangeOf(parts, i).1 + 1] == parts[i]
  {
    forall i | 0 <= i < |parts| - 1 ensures RangeOf(parts, i + 1).0 == RangeOf(parts, i).1 + 1 {
      AggRangeNext(parts, i);
    }
    forall i | 0 <= i < |parts|
      ensures 0 <= RangeOf(parts, i).0 <= RangeOf(parts, i).1 + 1 <= |Concat(parts)|
      ensures Concat(parts)[RangeOf(parts, i).0..RangeOf(parts, i).1 + 1] == parts[i]
    {
      AggRangeSlice(parts, i);
    }
  }

  /** Lines 136-146, `_agg_data`: join the inputs and record each one's inclusive range. */
  method AggData(parts: seq<seq<byte>>) returns (joined: seq<byte>, ranges: seq<(int, int)>)
    ensures joined == Concat(parts)
    ensures |ranges| == |parts|
    ensures forall i :: 0 <= i < |parts| ==> ranges[i] == RangeOf(parts, i)
  {
    ranges := [];
    var pos := 0;
    var i := 0;
    while i < |parts|
      invariant 0 <= i <= |parts|
      invariant pos == SumLengths(parts[..i])
      invariant |ranges| == i
      invariant forall j :: 0 <= j < i ==> ranges[j] == RangeOf(parts, j)
    {
      assert parts[..i + 1][..i] == parts[..i];
      ranges := ranges + [(pos, pos + |parts[i]| - 1)];
      pos := pos + |parts[i]|;
      i := i + 1;
    }
    joined := Concat(parts);
  }

  // ---------------------------------------------------------------------------
  // Reduce jobs

  /** Where object `i`'s futures start: the counts of the objects before it. */
  function PartStart(counts: seq<nat>, i: nat): nat
    requires i <= |counts|
  {
    Sum(counts[..i])
  }

  /** Line 93: one reducer per object only when there are per-object counts and it
      was asked for. */
  predicate OnePerObject(partsPerObject: Option<seq<nat>>, reducerOnePerObject: bool) {
    partsPerObject.Some? && partsPerObject.value != [] && reducerOnePerObject
  }

  /** The slices the per-object reducers receive. */
  function ObjectSlices<F>(mapFutures: seq<F>, counts: seq<nat>): seq<seq<F>> {
    if counts == [] then []
    else
      var init := counts[..|counts| - 1];
      ObjectSlices(mapFutures, init) +
        [Slice(mapFutures, Sum(init), Sum(init) + counts[|counts| - 1])]
  }

  /** Reducer `i` receives the futures of object `i`. */
  lemma {:induction false} ObjectSlicesLength<F>(mapFutures: seq<F>, counts: seq<nat>)
    ensures |ObjectSlices(mapFutures, counts)| == |counts|
  {
    if counts != [] {
      ObjectSlicesLength(mapFutures, counts[..|counts| - 1]);
    }
  }

  /** Reducer `i` receives the futures of object `i`. */
  lemma {:induction false} ObjectSliceAt<F>(mapFutures: seq<F>, counts: seq<nat>, i: nat)
    requires i < |counts|
    ensures |ObjectSlices(mapFutures, counts)| == |counts|
    ensures ObjectSlices(mapFutures, counts)[i] ==
              Slice(mapFutures, PartStart(counts, i), PartStart(counts, i) + counts[i])
    decreases |counts|
  {
    var init := counts[..|counts| - 1];
    ObjectSlicesLength(mapFutures, counts);
    ObjectSlicesLength(mapFutures, init);
    if i == |init| {
      assert counts[..i] == init;
    } else {
      ObjectSliceAt(mapFutures, init, i);
      assert counts[..i] == init[..i];
      assert ObjectSlices(mapFutures, counts)[i] == ObjectSlices(mapFutures, init)[i];
    }
  }

  /** When the per-object counts add up to at most the number of futures, the
      reducers' slices together hold the first `sum(counts)` futures, each once and in
      order; when they add up to exactly that number, every future. */
  lemma {:induction false} ObjectSlicesPartition<F>(mapFutures: seq<F>, counts: seq<nat>)
    requires Sum(counts) <= |mapFutures|
    ensures Concat(ObjectSlices(mapFutures, counts)) == mapFutures[..Sum(counts)]
  {
    if counts != [] {
      var init := counts[..|counts| - 1];
      ObjectSlicesPartition(mapFutures, init);
      var lo := Sum(init);
      var hi := Sum(counts);
      assert Slice(mapFutures, lo, lo + counts[|counts| - 1]) == mapFutures[lo..hi];
      assert mapFutures[..lo] + mapFutures[lo..hi] == mapFutures[..hi];
    }
  }

  /** Each slice as the single argument of one call. */
  function Singletons<F>(slices: seq<seq<F>>): (r: seq<seq<seq<F>>>)
    ensures |r| == |slices|
    ensures forall i :: 0 <= i < |slices| ==> r[i] == [slices[i]]
  {
    if slices == [] then [] else Singletons(slices[..|slices| - 1]) + [[slices[|slices| - 1]]]
  }

  /** Lines 91-98, the reduce job's inputs: one call over all map futures, or, one
      reducer per object, a call per object over that object's consecutive futures. */
  method ReduceIterdata<F>(mapFutures: seq<F>, partsPerObject: Option<seq<nat>>, reducerOnePerObject: bool)
    returns (r: seq<seq<seq<F>>>)
    ensures !OnePerObject(partsPerObject, reducerOnePerObject) ==> r == [[mapFutures]]
    ensures OnePerObject(partsPerObject, reducerOnePerObject) ==>
              r == Singletons(ObjectSlices(mapFutures, partsPerObject.value))
  {
    r := [[mapFutures]];
    if OnePerObject(partsPerObject, reducerOnePerObject) {
      var counts := partsPerObject.value;
      var prev := 0;
      r := [];
      var i := 0;
      while i < |counts|
        invariant 0 <= i <= |counts|
        invariant prev == Sum(counts[..i])
        invariant r == Singletons(ObjectSlices(mapFutures, counts[..i]))
      {
        assert counts[..i + 1][..i] == counts[..i];
        r := r + [[Slice(mapFutures, prev, prev + counts[i])]];
        prev := prev + counts[i];
        i := i + 1;
      }
      assert counts[..i] == counts;
    }
  }


  // ---------------------------------------------------------------------------
  // Remote invocation of map jobs

  /** Lines 58-60: the slices `iterdata[x:x+g]` for `x` in `range(from, total, g)`. */
  function GroupSlices(iterdata: seq<Value>, from: nat, total: int, g: nat): seq<seq<Value>>
    requires g > 0
    decreases total - from
  {
    if from >= total then [] else [Slice(iterdata, from, from + g)] + GroupSlices(iterdata, from + g, total, g)
  }

  /** `k * g` steps through the multiples of `g`. */
  lemma MulStep(k: int, g: int)
    ensures (k - 1) * g + g == k * g
  {
  }

  /** There is one group of `g` for every multiple of `g` past `from` and below `total`. */
  lemma {:induction false} GroupSlicesCount(iterdata: seq<Value>, from: nat, total: int, g: nat)
    requires g > 0
    ensures var n := |GroupSlices(iterdata, from, total, g)|;
      (n == 0 <==> total <= from) && (n > 0 ==> from + (n - 1) * g < total <= from + n * g)
    decreases total - from
  {
    if from < total {
      var n := |GroupSlices(iterdata, from, total, g)|;
      var m := |GroupSlices(iterdata, from + g, total, g)|;
      GroupSlicesCount(iterdata, from + g, total, g);
      assert n == m + 1;
      MulStep(n, g);
      MulStep(m, g);
    }
  }

  /** Group `k` holds the inputs from `from + k * g` on, at most `g` of them. */
  lemma {:induction false} GroupSlicesAt(iterdata: seq<Value>, from: nat, total: int, g: nat, k: nat)
    requires g > 0 && k < |GroupSlices(iterdata, from, total, g)|
    ensures GroupSlices(iterdata, from, total, g)[k] == Slice(iterdata, from + k * g, from + k * g + g)
    decreases k
  {
    var s := GroupSlices(iterdata, from, total, g);
    var rest := GroupSlices(iterdata, from + g, total, g);
    assert s == [Slice(iterdata, from, from + g)] + rest;
    if k == 0 {
      assert from + k * g == from;
    } else {
      assert s[k] == rest[k - 1];
      GroupSlicesAt(iterdata, from + g, total, g, k - 1);
      MulStep(k, g);
      assert from + g + (k - 1) * g == from + k * g;
    }
  }

  /** Lines 58-62: with groups of `groups`, one remote call per multiple of `groups`
      below `total`, whose single argument is the list of the inputs from that multiple
      on, at most `groups` of them; with no groups (0) one call gets the whole input, and
      a negative size makes an empty range. */
  function RemoteIterdata(iterdata: seq<Value>, total: int, groups: int): (r: seq<Value>)
    ensures groups == 0 ==> r == [VList(iterdata)]
    ensures groups < 0 ==> r == []
    ensures groups > 0 ==> (|r| == 0 <==> total <= 0)
    ensures groups > 0 && |r| > 0 ==> (|r| - 1) * groups < total <= |r| * groups
    ensures groups > 0 ==>
      forall k: nat :: k < |r| ==> r[k] == VList([VList(Slice(iterdata, k * groups, k * groups + groups))])
  {
    if groups > 0 then
      var slices := GroupSlices(iterdata, 0, total, groups);
      GroupSlicesCount(iterdata, 0, total, groups);
      forall k: nat | k < |slices|
        ensures slices[k] == Slice(iterdata, k * groups, k * groups + groups)
      {
        GroupSlicesAt(iterdata, 0, total, groups, k);
      }
      seq(|slices|, k requires 0 <= k < |slices| => VList([VList(slices[k])]))
    else if groups != 0 then []
    else [VList(iterdata)]
  }

  /** How a map job is laid out for `_create_job`. */
  datatype MapPlan = MapPlan(remoteInvocation: bool, iterdata: seq<Value>, invokePoolThreads: int)

  /** Lines 46-65: remote invocation is switched off for a single task or on a remote
      cluster; when it stays on, the original inputs are regrouped and one thread
      invokes the remote callers. */
  function MapJobPlan(iterdata: seq<Value>, mapIterdata: seq<Value>, remoteRequested: bool,
                      groups: int, invokePoolThreads: int, isRemoteCluster: bool): (p: MapPlan)
    ensures p.remoteInvocation <==> remoteRequested && |mapIterdata| != 1 && !isRemoteCluster
    ensures !p.remoteInvocation ==> p.iterdata == mapIterdata && p.invokePoolThreads == invokePoolThreads
    ensures p.remoteInvocation ==>
              p.iterdata == RemoteIterdata(iterdata, |mapIterdata|, groups) && p.invokePoolThreads == 1
  {
    var remote := remoteRequested && !(|mapIterdata| == 1 || isRemoteCluster);
    if remote then MapPlan(true, RemoteIterdata(iterdata, |mapIterdata|, groups), 1)
    else MapPlan(false, mapIterdata, invokePoolThreads)
  }

  /** Every group holds between 1 and `g` inputs, and every group but the last `g`. */
  predicate GroupsSized(slices: seq<seq<Value>>, g: nat) {
    (forall k :: 0 <= k < |slices| ==> 0 < |slices[k]| <= g) &&
    (forall k :: 0 <= k < |slices| - 1 ==> |slices[k]| == g)
  }

  /** Within the inputs, the groups of `g` are sized as `GroupsSized` says. */
  lemma {:induction false} GroupSlicesSizes(iterdata: seq<Value>, from: nat, g: nat)
    requires g > 0 && from <= |iterdata|
    ensures GroupsSized(GroupSlices(iterdata, from, |iterdata|, g), g)
    decreases |iterdata| - from
  {
    if from < |iterdata| {
      var slices := GroupSlices(iterdata, from, |iterdata|, g);
      var rest := GroupSlices(iterdata, from + g, |iterdata|, g);
      assert slices == [Slice(iterdata, from, from + g)] + rest;
      if from + g < |iterdata| {
        GroupSlicesSizes(iterdata, from + g, g);
        assert |slices[0]| == g;
        forall k | 1 <= k < |slices|
          ensures 0 < |slices[k]| <= g && (k < |slices| - 1 ==> |slices[k]| == g)
        {
          assert slices[k] == rest[k - 1];
        }
      }
    }
  }

  /** Together the groups hold every input from `from` on, once and in order. */
  lemma {:induction false} GroupSlicesConcat(iterdata: seq<Value>, from: nat, g: nat)
    requires g > 0 && from <= |iterdata|
    ensures Concat(GroupSlices(iterdata, from, |iterdata|, g)) == iterdata[from..]
    decreases |iterdata| - from
  {
    if from < |iterdata| {
      var slices := GroupSlices(iterdata, from, |iterdata|, g);
      var next := Min(from + g, |iterdata|);
      var rest := GroupSlices(iterdata, from + g, |iterdata|, g);
      if from + g < |iterdata| {
        GroupSlicesConcat(iterdata, from + g, g);
      } else {
        assert rest == [];
      }
      assert Concat(rest) == iterdata[next..];
      ConcatCons(slices);
      assert slices[0] == iterdata[from..next];
      assert slices[1..] == rest;
      assert iterdata[from..] == iterdata[from..next] + iterdata[next..];
    }
  }

  // ---------------------------------------------------------------------------
  // _create_job

  /** config.py line 32: the largest aggregated data `_create_job` accepts (exclusive). */
  const MaxAggDataSize: nat := 4000000

  datatype JobError = DataTooLarge

  /** An object `_create_job` stores: the aggregated data, and the function module. */
  datatype StoragePut = PutData(key: string, bytes: seq<byte>) | PutFunc(key: string, bytes: seq<byte>)

  /** The `job_description` dict `_create_job` returns. */
  datatype JobDescription = JobDescription(
    runtimeName: string,
    runtimeMemory: int,
    executionTimeout: int,
    funcName: string,
    extraEnv: map<string, Value>,
    totalCalls: nat,
    invokePoolThreads: int,
    jobId: string,
    remoteInvocation: bool,
    originalTotalCalls: Option<int>,
    dataKey: string,
    dataRanges: seq<(int, int)>,
    funcKey: string,
    dataSizeBytes: nat,
    funcModuleBytes: nat)

  /** What `_create_job` returns: `[]` when there is no data, or the description. */
  datatype JobOutcome = NoCalls | Job(description: JobDescription)

  /** Lines 173-176: the function name is the original one when that is given. */
  function FuncName(originalFuncName: Option<string>, ownName: string): string {
    if originalFuncName.Some? && originalFuncName.value != "" then originalFuncName.value else ownName
  }

  /** `out` is `env` with every bool value replaced by its string. */
  predicate BoolsConverted(env: map<string, Value>, out: map<string, Value>) {
    out.Keys == env.Keys && forall k :: k in env ==> out[k] == Utils.BoolAsString(env[k])
  }

  /** `ranges` are the ranges `_agg_data` assigns to `parts`. */
  predicate RangesOf(parts: seq<seq<byte>>, ranges: seq<(int, int)>) {
    |ranges| == |parts| && forall i :: 0 <= i < |parts| ==> ranges[i] == RangeOf(parts, i)
  }

  /** Lines 149-258, `_create_job`. `dataStrs` is what the serializer makes of `data`,
      one string per element, `funcModule` the pickled function module, and `dataKey`/`funcKey` the storage
      keys; `puts` are the objects stored, in order. */
  method CreateJob(runtimeName: string, configMemory: int, runtimeMemory: Option<int>,
                   originalFuncName: Option<string>, ownName: string,
                   extraEnv: Option<map<string, Value>>, data: seq<Value>,
                   dataStrs: seq<seq<byte>>, funcModule: seq<byte>,
                   invokePoolThreads: int, jobId: string, remoteInvocation: bool,
                   originalTotalTasks: Option<int>, executionTimeout: int,
                   dataKey: string, funcKey: string)
    returns (r: Result<JobOutcome, JobError>, puts: seq<StoragePut>)
    requires |dataStrs| == |data|
    ensures data == [] ==> r == Ok(NoCalls) && puts == []
    ensures data != [] && SumLengths(dataStrs) >= MaxAggDataSize ==> r == Err(DataTooLarge) && puts == []
    ensures data != [] && SumLengths(dataStrs) < MaxAggDataSize ==>
              r.Ok? && r.value.Job? &&
              var d := r.value.description;
              var env := if extraEnv.Some? then extraEnv.value else map[];
              d.totalCalls == |data| && |d.dataRanges| == d.totalCalls &&
              d.runtimeMemory == (if runtimeMemory.Some? then runtimeMemory.value else configMemory) &&
              d.runtimeName == runtimeName && d.funcName == FuncName(originalFuncName, ownName) &&
              BoolsConverted(env, d.extraEnv) &&
              d.invokePoolThreads == invokePoolThreads && d.remoteInvocation == remoteInvocation &&
              d.originalTotalCalls == originalTotalTasks && d.executionTimeout == executionTimeout &&
              d.dataKey == dataKey && d.funcKey == funcKey && d.jobId == jobId &&
              RangesOf(dataStrs, d.dataRanges) && d.dataSizeBytes == SumLengths(dataStrs) &&
              d.funcModuleBytes == |funcModule| &&
              puts == [PutData(dataKey, Concat(dataStrs)), PutFunc(funcKey, funcModule)]
  {
    var memory := if runtimeMemory.Some? then runtimeMemory.value else configMemory;
    var funcName := FuncName(originalFuncName, ownName);
    var env := if extraEnv.Some? then extraEnv.value else map[];
    if env != map[] {
      env := Utils.ConvertBoolsToString(env);
    }
    assert BoolsConverted(if extraEnv.Some? then extraEnv.value else map[], env);
    puts := [];
    if data == [] {
      return Ok(NoCalls), puts;
    }
    var dataSize := SumLengths(dataStrs);
    if dataSize >= MaxAggDataSize {
      return Err(DataTooLarge), puts;
    }
    var joined, ranges := AggData(dataStrs);
    assert RangesOf(dataStrs, ranges);
    puts := puts + [PutData(dataKey, joined)];
    puts := puts + [PutFunc(funcKey, funcModule)];
    var description := JobDescription(runtimeName, memory, executionTimeout, funcName, env, |data|,
                                      invokePoolThreads, jobId, remoteInvocation, originalTotalTasks,
                                      dataKey, ranges, funcKey, dataSize, |funcModule|);
    r := Ok(Job(description));
  }
}
