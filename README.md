# pywren-ibm-cloud: runtime lifecycle and invocation layer in Dafny

This project models the decision logic of pywren-ibm-cloud's compute and runtime layer
and proves properties of it. It covers:

- the Knative Serving backend (`KnativeServingBackend`): the service-name encoding of a
  runtime and its decoding, the runtime key, the per-instance host cache, the
  `list_runtimes` filter, the build watch (taskrun, then pod) and the service readiness
  watch over event streams, how invocation responses are classified, and the
  sequencing of runtime creation, listing and deletion;
- the `Compute` facade: the bounded retry loop around the backend's `invoke` and the
  wrappers that hand runtime operations to the backend;
- the helpers of `utils.py`: object-URL and path splitting, `version_str`,
  `convert_bools_to_string`, `format_data`, and the position state of the two
  streaming-body wrappers;
- the job data layout of `job.py`: `_agg_data`'s aggregate and inclusive byte ranges,
  per-object reduce partitioning, regrouping for remote invocation, and the structural
  rules of `_create_job`;
- configuration defaulting (`default_config`, the part after loading) and
  `extract_storage_config` / `extract_compute_config`;
- runtime orchestration in `runtime/utils.py` (create, update, build, delete, clean);
- the IBM Cloud Functions REST client: endpoint and namespace selection, URL assembly,
  classification of `invoke`, `list_actions` and `list_packages` answers, and the
  single retry on a transport failure.

The code keeps its own form:

- Objects whose fields the code updates are classes with `modifies` and `reads`
  frames: `Knative.KnativeServingBackend`, `Compute.Compute`,
  `Config.Configuration`, `RuntimeUtils.InternalStorage` and the two stream
  wrappers in `Streams`.
- Loops are methods with invariants. Each is proved against a specification
  function, and lemmas prove the properties of that function.

Every collaborator the code talks to is a parameter:

- the Kubernetes cluster, Docker Hub, the HTTP endpoint and the object store;
- random choice;
- the serializer.

The answers such a collaborator gives become arguments. These are lookup results,
event streams as sequences of records, HTTP outcomes, whether a build or a
creation raises, and upload success flags. The
requests the code issues are appended to a `calls` log, or stored in the modelled
object store.

Python values (JSON-like dicts, lists, scalars) are the datatype `PyValues.Value`, and
Python's string builtins (`find`, `rfind`, `split(sep, 1)`, `rsplit(sep, 1)`,
`replace`, slicing, `int()`, `str()`) are functions in module `PyStr`. Integers are
unbounded, as in Python.

Where the code and a naive reading differ, the model follows the code:

- **Knative readiness.** It is decided by the conditions at positions 0, 1 and 2, not by
  their type.
- **A 404 from Knative `invoke`.** It is caught and gives `None`, so `Compute.invoke`
  retries it.
- **Deleting a runtime.** It does not clear the host cache.
- **`seek` with a `whence` other than 1 or 2.** This includes the default 0. The
  position stays where it was.
- **`read` at the end of the stream.** The check at line 261 compares bytes with `""`,
  so it returns an empty chunk instead of raising.
- **The partition reader past `size`.** It indexes the chunk it just read at `size`
  (`retval[self.size:]`), not the stream position.
- **Remote grouping.** It slices the original `iterdata` in steps over
  `range(0, len(map_iterdata), g)`.
- **The missing-`pywren` check in `default_config` (line 102).** It comes after the
  update at line 100, which already fails on a missing section. Both are modelled as
  the same failure.

Sites that raise are modelled as "fails", with an error value named after the
condition, never by message.

## Model

| member | source | states |
|---|---|---|
| Knative.FormatServiceName | pywren_ibm_cloud/compute/backends/knative/knative.py:81-83 | a service name is never empty and holds neither '/' nor ':' |
| Knative.UnformatServiceName | pywren_ibm_cloud/compute/backends/knative/knative.py:85-89 | a name without "--" cannot be unpacked and is refused |
| Knative.ServiceNameRoundTrip | pywren_ibm_cloud/compute/backends/knative/knative.py:81-89 | decoding the service name of `user/repo` or `user/repo:tag` (parts that survive the encoding) and any memory n >= 0 gives back exactly that image and memory |
| Knative.DashFreeNamePart | pywren_ibm_cloud/compute/backends/knative/knative.py:81-89 | any non-empty part without '/', ':' or '-' meets the round trip's conditions |
| Knative.ServiceNameInjective | pywren_ibm_cloud/compute/backends/knative/knative.py:81-83 | two well-formed runtimes share a service name only if their images and memories are equal |
| Knative.ColonAndSlashCollide | pywren_ibm_cloud/compute/backends/knative/knative.py:81-89 | `a:b` and `a/b` get the same service name, and it decodes as `a/b` |
| Knative.SplitUrlScheme | pywren_ibm_cloud/compute/backends/knative/knative.py:538-539 | a scheme, when `urlparse` finds one, is the lower-cased text before the first ':', and the rest is what follows that ':'; with no scheme the rest is the whole string |
| Knative.ParseUrl | pywren_ibm_cloud/compute/backends/knative/knative.py:538-539 | a network location never holds '/', '?' or '#' and has balanced '[' and ']'; path, params and query hold no '#', and path and params no '?'; the only failure is `ValueError` for an invalid IPv6 location |
| Knative.ParseUrlNetloc | pywren_ibm_cloud/compute/backends/knative/knative.py:538-539 | `scheme://host...` parses, with the lower-cased scheme and network location `host`, when a '/', '?', '#' or the end follows `host` |
| Knative.ParseUrlNetlocNoScheme | pywren_ibm_cloud/compute/backends/knative/knative.py:538-539 | `//host...` parses with no scheme and network location `host`, when a '/', '?', '#' or the end follows `host` |
| Knative.ParseUrlOpaque | pywren_ibm_cloud/compute/backends/knative/knative.py:538-539 | `scheme:rest` without "//", where rest is not a port number and holds no '#', '?' or ';', has an empty network location and path `rest` |
| Knative.ParseUrlHostPort | pywren_ibm_cloud/compute/backends/knative/knative.py:538-539 | `host:port` with an all-digit port takes no scheme, so the whole string is the path |
| Knative.ArnClusterKey | pywren_ibm_cloud/compute/backends/knative/knative.py:538-540 | an EKS cluster given as `arn:aws:eks:<region>:<account>:cluster/<name>` has cluster key `aws:eks:<region>:<account>:cluster/<name>` |
| Knative.RuntimeKey | pywren_ibm_cloud/compute/backends/knative/knative.py:531-542 | it raises exactly when the cluster does not parse; for plain components the key is `cluster_key + "/" + namespace + "/" + service name` |
| Knative.RuntimeKeyLastSegment | pywren_ibm_cloud/compute/backends/knative/knative.py:537-540 | whenever the key exists, the text after its last '/' (or the whole key) is the service name |
| Knative.KnativeServingBackend.GetRuntimeKey | pywren_ibm_cloud/compute/backends/knative/knative.py:531-542 | the backend's runtime key ends with the runtime's service name, after its last '/'; it fails only with the invalid IPv6 error |
| Knative.FirstWithStatus | pywren_ibm_cloud/compute/backends/knative/knative.py:273-278 | the position returned is that of the first taskrun event with a status; every event before it has none |
| Knative.AwaitPodName | pywren_ibm_cloud/compute/backends/knative/knative.py:271-281 | the watch reads events up to the first one with a status and no further; the pod name is that event's, and no pod name is a failure |
| Knative.FirstFinalPhase | pywren_ibm_cloud/compute/backends/knative/knative.py:284-290 | the position returned is that of the first pod event in phase Succeeded or Failed |
| Knative.AwaitPodPhase | pywren_ibm_cloud/compute/backends/knative/knative.py:283-290 | the watch stops at the first final phase and fails exactly when an event it read is in phase Failed |
| Knative.ConditionsVerdict | pywren_ibm_cloud/compute/backends/knative/knative.py:353-354 | ready exactly when conditions 0, 1 and 2 all have status "True"; an empty list waits, and a missing index or key raises |
| Knative.LastUrl | pywren_ibm_cloud/compute/backends/knative/knative.py:349-352 | the URL remembered was reported by one of the events, and none is remembered only when no event reported one |
| Knative.FirstStop | pywren_ibm_cloud/compute/backends/knative/knative.py:343-358 | every event before the position returned leaves the watch waiting, and the event at it does not |
| Knative.AwaitServiceReady | pywren_ibm_cloud/compute/backends/knative/knative.py:343-358 | the watch reads up to the first event that is ready or raises; it returns the last URL seen up to there, fails on a raising event, and fails when no URL was seen |
| Knative.ServiceUrlWasReported | pywren_ibm_cloud/compute/backends/knative/knative.py:343-365 | a successful watch returns a URL that an event it read reported |
| Knative.ClassifyResponse | pywren_ibm_cloud/compute/backends/knative/knative.py:510-529 | a value comes back exactly for status 200/202 with a parsed body and, when no result is asked for, an activationId; it is the body or that id; 404 and all other failures give `None` |
| Knative.EndpointFromHttpHost | pywren_ibm_cloud/compute/backends/knative/knative.py:484-486 | for a service that reports an `http://` URL, the endpoint `invoke` rebuilds from the cached host is that URL |
| Knative.HttpsHostKeepsSlash | pywren_ibm_cloud/compute/backends/knative/knative.py:484-486 | for an `https://` URL the cached host starts with '/', and the rebuilt endpoint differs from the URL |
| Knative.RouteOf | pywren_ibm_cloud/compute/backends/knative/knative.py:490 | without a `service_route` the route is "/" |
| Knative.ListedMembership | pywren_ibm_cloud/compute/backends/knative/knative.py:463-476 | a runtime is listed exactly when some service labelled pywren-runtime decodes to it and its image equals the filter or the filter is "all" |
| Knative.ListedConcat | pywren_ibm_cloud/compute/backends/knative/knative.py:465-471 | listing keeps the services' order: the listing of two batches is the concatenation of their listings |
| Knative.ListedAllDecoded | pywren_ibm_cloud/compute/backends/knative/knative.py:465-471 | every runtime listed under "all" is the decoding of a listed service's name |
| Knative.KnativeServingBackend.constructor | pywren_ibm_cloud/compute/backends/knative/knative.py:34-39 | the endpoint is the configured one (or none), and the host cache starts empty |
| Knative.KnativeServingBackend.DefaultRuntimeImageName | pywren_ibm_cloud/compute/backends/knative/knative.py:91-100 | a default image exists exactly for Python 3.5, 3.6 and 3.7, and for each it is that version's template with the Docker user filled in; any other version fails |
| Knative.KnativeServingBackend.GetServiceHost | pywren_ibm_cloud/compute/backends/knative/knative.py:102-131 | a cache hit returns the stored host, asks the cluster nothing and changes nothing; a miss queries the cluster, and then caches and returns the URL without its first 7 characters, or fails |
| Knative.KnativeServingBackend.BuildImageFromGit | pywren_ibm_cloud/compute/backends/knative/knative.py:224-301 | with docker.io and a release version, a tag Docker Hub already has skips the build; otherwise the taskrun is created, watched for its pod and the pod for its final phase, and deleted only after a successful build |
| Knative.KnativeServingBackend.CreateService | pywren_ibm_cloud/compute/backends/knative/knative.py:303-365 | the old service is deleted and the new one created with image `repo/image:revision`, limit `<memory>Mi` and the timeout; the result is the readiness watch's outcome, and on success the host cache maps the service name to the URL without its first 7 characters |
| Knative.KnativeServingBackend.Invoke | pywren_ibm_cloud/compute/backends/knative/knative.py:478-529 | the Host header comes from the cache or a lookup (and only a failing lookup fails); an unset endpoint becomes `http://<host>`; the payload is posted to its route, and the result is the response's classification |
| Knative.KnativeServingBackend.GenerateRuntimeMeta | pywren_ibm_cloud/compute/backends/knative/knative.py:367-383 | route `/preinstalls` is probed, and the metadata is accepted exactly when it is truthy and holds `preinstalls` |
| Knative.KnativeServingBackend.DeployRuntime | pywren_ibm_cloud/compute/backends/knative/knative.py:357-404 | a failed watch fails and changes only the call log; a ready service is cached under its service name with the URL's host, becomes the endpoint only when none was set, and is probed with that host as `Host` header and without a new lookup; a bad probe result fails |
| Knative.KnativeServingBackend.CreateRuntime | pywren_ibm_cloud/compute/backends/knative/knative.py:385-406 | an unsupported Python fails with nothing done; the default image is built only for "default" or the default image name, and a failed build fails with the build's own error and leaves endpoint, host cache and header as they were; then the service is deployed as DeployRuntime states |
| Knative.KnativeServingBackend.DeleteRuntime | pywren_ibm_cloud/compute/backends/knative/knative.py:429-442 | exactly one deletion of the runtime's service is requested, and the host cache is unchanged |
| Knative.KnativeServingBackend.ListRuntimes | pywren_ibm_cloud/compute/backends/knative/knative.py:452-476 | the result is the specified listing, so `ListedMembership` and `ListedConcat` hold of it |
| Knative.KnativeServingBackend.DeleteAllRuntimes | pywren_ibm_cloud/compute/backends/knative/knative.py:444-450 | one service deletion per runtime listed under "all", in listing order, and nothing else changes |
| Compute.Compute.constructor | pywren_ibm_cloud/compute/compute.py:16-23 | the backend name, `invocation_retry`, `retry_sleeps` and `retries` are those of the configuration |
| Compute.Compute.Invoke | pywren_ibm_cloud/compute/compute.py:34-51 | the backend is called at least once and at most `max(1, retries)` times, exactly once without retries or after a truthy first answer; every answer before the last was falsy; a falsy result with retries on means `retries` calls were made; each sleep is a member of `retry_sleeps` |
| Compute.Compute.Build | pywren_ibm_cloud/compute/compute.py:53-58 | the build is handed to the backend with the same arguments, and a raising build is passed on |
| Compute.Compute.Create | pywren_ibm_cloud/compute/compute.py:60-65 | the creation is handed on with the same arguments (timeout 300000 by default); the backend's metadata is returned, or its raise passed on |
| Compute.Compute.Delete | pywren_ibm_cloud/compute/compute.py:67-71 | the deletion is handed on with the same arguments |
| Compute.Compute.DeleteAll | pywren_ibm_cloud/compute/compute.py:73-77 | the deletion of all runtimes is handed on |
| Compute.Compute.List | pywren_ibm_cloud/compute/compute.py:79-83 | the listing is handed on with its filter ("all" by default), and the backend's list is returned |
| Compute.Compute.RuntimeKey | pywren_ibm_cloud/compute/compute.py:85-91 | the key request is handed on with the same arguments, and the backend's key is returned |
| Utils.SplitScheme | pywren_ibm_cloud/utils.py:115-121 | without "://" the backend is `ibm_cos` and the path is the URL; with it, URL == scheme + "://" + path, `cos` is read as `ibm_cos`, and a second "://" fails |
| Utils.BucketAndKey | pywren_ibm_cloud/utils.py:123 | the bucket holds no '/', and bucket + "/" + key == path whenever the path holds a '/' |
| Utils.PrefixAndName | pywren_ibm_cloud/utils.py:125-132 | a key ending in '/' is all prefix; an empty key gives two empty parts; otherwise prefix + "/" + name == key with a name free of '/', or the whole key is the name |
| Utils.SplitObjectUrl | pywren_ibm_cloud/utils.py:114-134 | it succeeds exactly when the scheme split does; the backend is never `cos`, the bucket holds no '/', and a non-empty object name holds no '/' |
| Utils.DropLeadingSlash | pywren_ibm_cloud/utils.py:139-140 | exactly one leading '/' is dropped |
| Utils.SplitPath | pywren_ibm_cloud/utils.py:137-148 | when the first '/' of the stripped path is past index 0, bucket + "/" + key == path and the bucket holds no '/'; otherwise the key is `None` and the bucket is the whole path |
| Utils.VersionStr | pywren_ibm_cloud/utils.py:42-43 | the version string splits at its first '.' into the strings of the two numbers |
| Utils.VersionStrRoundTrip | pywren_ibm_cloud/utils.py:42-43 | the two parts of the version string parse back into the two numbers |
| Utils.ConvertBoolsToString | pywren_ibm_cloud/utils.py:78-86 | the keys are kept, bools become "True"/"False", and every other value is unchanged |
| Utils.AsList | pywren_ibm_cloud/utils.py:173-178 | a list is kept, a set or range becomes its items, and anything else is wrapped as `[x]` |
| Utils.MergedEach | pywren_ibm_cloud/utils.py:187-190 | each element is updated or extended with the extra parameters, position by position |
| Utils.WrappedEmptyIffNoScalar | pywren_ibm_cloud/utils.py:191-198 | nothing is wrapped exactly when every element is a list or a dict |
| Utils.WrappedEntries | pywren_ibm_cloud/utils.py:191-192 | every wrapped entry is a scalar of the input followed by the extra parameters |
| Utils.MergeExtra | pywren_ibm_cloud/utils.py:181-195 | it fails exactly when some element clashes with the extra parameters; otherwise it yields the wrapped scalars and the updated elements |
| Utils.FormatData | pywren_ibm_cloud/utils.py:166-200 | truthy extra parameters other than a list or dict raise; falsy ones leave the input as a list; otherwise a clash raises, any wrapped scalar makes the result only the wrapped scalars, and else the result is the updated elements |
| Streams.ReadAt | pywren_ibm_cloud/utils.py:260 | a read returns the next `min(n, remaining)` bytes at the cursor, or all that remain |
| Streams.LineLength | pywren_ibm_cloud/utils.py:268 | a line runs up to and including the first newline, or to the end when there is none |
| Streams.ReadLineAt | pywren_ibm_cloud/utils.py:266-272 | the line read is the bytes at the cursor, holds a newline only as its last byte, and ends in one unless it reaches the end |
| Streams.SeekTarget | pywren_ibm_cloud/utils.py:274-292 | whence 2 gives the size for offset 0 and raises for any other offset; whence 1 gives `min(pos + offset, size)`; any other whence keeps `pos` |
| Streams.WrappedStreamingBody.constructor | pywren_ibm_cloud/utils.py:246-252 | the position starts at 0 with the given size |
| Streams.WrappedStreamingBody.Read | pywren_ibm_cloud/utils.py:259-264 | the chunk returned is the body's next bytes, and `pos` and the cursor advance by its length |
| Streams.WrappedStreamingBody.ReadLine | pywren_ibm_cloud/utils.py:266-272 | the line returned is the body's next line, and `pos` and the cursor advance by its length |
| Streams.WrappedStreamingBody.Seek | pywren_ibm_cloud/utils.py:274-292 | `pos` becomes `SeekTarget`'s position, stays on error, and the body is not touched |
| Streams.PlusBytes | pywren_ibm_cloud/utils.py:321 | at most one extra byte, and none exactly when there is no range or it starts at 0 |
| Streams.SliceTo | pywren_ibm_cloud/utils.py:355 | Python slicing with a negative stop counted from the end |
| Streams.WrappedStreamingBodyPartition.constructor | pywren_ibm_cloud/utils.py:316-325 | the extra byte count follows the range, and the reader starts at position 0 and not at its end |
| Streams.WrappedStreamingBodyPartition.Read | pywren_ibm_cloud/utils.py:327-355 | after the end a read raises and changes nothing; otherwise it reads the leading byte(s) and a chunk, advances `pos` by the chunk, sets `eof` exactly when `pos` passes `size`, and returns the chunk's rows that belong to the partition |
| Streams.WrappedStreamingBodyPartition.Seek | pywren_ibm_cloud/utils.py:274-292 | the inherited seek moves only `pos` |
| Streams.FirstRowKept | pywren_ibm_cloud/utils.py:340-345 | without a leading byte, or with a newline as the leading byte, the rows start at the front; otherwise they start just after the chunk's first newline, or at the front when it has none |
| Streams.LastRowFinished | pywren_ibm_cloud/utils.py:347-353 | a read that passes `size` keeps the row that straddles `size` up to its newline and nothing after it |
| Streams.WithinSizeKeepsAll | pywren_ibm_cloud/utils.py:347-355 | a read that stays within `size` keeps the chunk to its end |
| Seqs.SumLengthsIsJoinedLength | pywren_ibm_cloud/job/job.py:213 | the measured data size is the length of the aggregate |
| Job.AggRangeSlice | pywren_ibm_cloud/job/job.py:142-146 | the inclusive slice of range i of the aggregate is input i |
| Job.AggRangeNext | pywren_ibm_cloud/job/job.py:143-145 | each range starts one past the end of the one before it |
| Job.AggRangesLayout | pywren_ibm_cloud/job/job.py:140-146 | the first range starts at 0, ranges are contiguous and inclusive, and range i slices input i out of the aggregate |
| Job.AggData | pywren_ibm_cloud/job/job.py:136-146 | the aggregate is the concatenation of the inputs, with exactly one range per input, as `AggRangesLayout` describes |
| Job.ObjectSlicesLength | pywren_ibm_cloud/job/job.py:96-97 | there is one reducer slice per object count |
| Job.ObjectSliceAt | pywren_ibm_cloud/job/job.py:94-98 | reducer i gets `map_futures[s_i : s_i + p_i]`, where `s_i` is the sum of the counts before i |
| Job.ObjectSlicesPartition | pywren_ibm_cloud/job/job.py:94-98 | when the counts add up to at most the number of futures, the slices together are the first `sum(counts)` futures, in order |
| Job.Singletons | pywren_ibm_cloud/job/job.py:97 | each slice becomes the single argument of one call |
| Job.ReduceIterdata | pywren_ibm_cloud/job/job.py:91-98 | one call over all futures, unless there are per-object counts and one reducer per object is asked for; then one call per object over its own futures |
| Job.MapJobPlan | pywren_ibm_cloud/job/job.py:46-64 | remote invocation stays on exactly when asked for, the task count is not 1 and the cluster is not remote; then the original inputs are regrouped and one invoke thread is used, otherwise the inputs and threads are kept |
| Job.GroupSlicesSizes | pywren_ibm_cloud/job/job.py:58-60 | every group holds 1 to g inputs, and every group but the last exactly g |
| Job.GroupSlicesConcat | pywren_ibm_cloud/job/job.py:58-60 | the groups together hold every input once, in order |
| Job.RemoteIterdata | pywren_ibm_cloud/job/job.py:58-62 | with groups of g there is one remote call per multiple of g below the task count, and call k gets the single argument `[iterdata[k*g:k*g+g]]`; with no groups one call gets all of `iterdata` |
| Job.CreateJob | pywren_ibm_cloud/job/job.py:149-258 | given one serialized string per data element, no data gives `[]` and stores nothing; a serialized size of at least `MAX_AGG_DATA_SIZE` raises before storing; otherwise `total_calls == len(data)` with one data range per call, memory and function name default as in the code, bools in `extra_env` become strings, the data ranges are `_agg_data`'s, and the aggregate and then the function module are stored |
| Config.DropRabbitmq | pywren_ibm_cloud/config.py:122-126 | the section is dropped exactly when it is `None`, lacks `amqp_url`, or has `amqp_url` `None` |
| Config.Defaulted | pywren_ibm_cloud/config.py:108-120 | the storage prefix is always "pywren.jobs", every other present setting is kept, and each absent default is added with its constant |
| Config.FillDefaults | pywren_ibm_cloud/config.py:108-120 | filling the six defaults one by one gives `Defaulted` |
| Config.DefaultingIsIdempotent | pywren_ibm_cloud/config.py:108-120 | defaulting a defaulted section changes nothing |
| Config.Merged | pywren_ibm_cloud/config.py:100 | the user's `pywren` settings override the loaded ones, and the loaded ones they do not mention are kept |
| Config.OverridesWin | pywren_ibm_cloud/config.py:100-120 | an overridden setting other than the storage prefix reaches the defaulted section unchanged |
| Config.SectionOf | pywren_ibm_cloud/config.py:148 | a section is read exactly when it is present and a dict |
| Config.StringSetting | pywren_ibm_cloud/config.py:143 | a backend name is read exactly when it is present and a string |
| Config.BackendSection | pywren_ibm_cloud/config.py:149-151 | the backend's section gets `user_agent`, and `region` only when the region setting is present; its other entries are kept |
| Config.WithoutUnusableRabbitmq | pywren_ibm_cloud/config.py:122-126 | only the `rabbitmq` section may be removed, exactly as `DropRabbitmq` decides, and every other section is kept |
| Config.DefaultedHasComputeSettings | pywren_ibm_cloud/config.py:109-120 | a defaulted section has every setting that the extractions read |
| Config.Configuration.constructor | pywren_ibm_cloud/config.py:100 | the configuration holds the loaded sections |
| Config.Configuration.ApplyDefaults | pywren_ibm_cloud/config.py:100-126 | a missing `pywren` section fails; a missing `storage_bucket` fails after the merge; otherwise the merged section is defaulted and `rabbitmq` dropped as `DropRabbitmq` decides |
| Config.Configuration.ExtractStorageConfig | pywren_ibm_cloud/config.py:141-153 | it succeeds exactly when the settings and the backend's dict section exist; the result holds backend, prefix, bucket and the backend's section, and that section, with its `user_agent` and `region`, is also written back into the configuration |
| Config.Configuration.ExtractComputeConfig | pywren_ibm_cloud/config.py:156-169 | it succeeds exactly when the settings and the backend's dict section exist; the result holds the backend, `invocation_retry`, `retry_sleeps`, `retries` and the backend's section, which is also written back |
| RuntimeUtils.InternalStorage.constructor | pywren_ibm_cloud/runtime/utils.py:33 | the modelled bucket starts with the given objects |
| RuntimeUtils.InternalStorage.PutRuntimeMeta | pywren_ibm_cloud/runtime/utils.py:44-47 | a successful upload writes the metadata to the runtime's metadata object; a failed one changes nothing and fails |
| RuntimeUtils.InternalStorage.DeleteRuntimeMeta | pywren_ibm_cloud/runtime/utils.py:93 | exactly the runtime's metadata object is removed |
| RuntimeUtils.InternalStorage.ListKeys | pywren_ibm_cloud/runtime/utils.py:118 | exactly the stored keys that start with the prefix |
| RuntimeUtils.InternalStorage.DeleteObjects | pywren_ibm_cloud/runtime/utils.py:120 | exactly the given objects are removed |
| RuntimeUtils.IntSetting | pywren_ibm_cloud/runtime/utils.py:37-38 | an integer setting is read exactly when present and an integer, and missing is a failure |
| RuntimeUtils.ResolveMemory | pywren_ibm_cloud/runtime/utils.py:37 | a given non-zero memory is used; none, or 0, falls back to the configured `runtime_memory` |
| RuntimeUtils.MetaObjectKey | pywren_ibm_cloud/runtime/utils.py:116-118 | every runtime's metadata object lies under "pywren.runtimes" |
| RuntimeUtils.MetaObjectKeyInjective | pywren_ibm_cloud/runtime/utils.py:62-93 | different runtime keys have different metadata objects |
| RuntimeUtils.MetaKeysOfMembers | pywren_ibm_cloud/runtime/utils.py:62-67 | an object is a listed runtime's metadata object exactly when some listed runtime has that key |
| RuntimeUtils.RecreateCallsAt | pywren_ibm_cloud/runtime/utils.py:62-64 | runtime i is paired with its key request at call 2i and its re-creation at call 2i + 1, with its own memory |
| RuntimeUtils.DeleteCallsAt | pywren_ibm_cloud/runtime/utils.py:90-92 | runtime i is paired with its deletion at call 2i and its key request at call 2i + 1 |
| RuntimeUtils.StoredKeys | pywren_ibm_cloud/runtime/utils.py:62-67 | after the updates the bucket holds its old objects and the metadata object of every listed runtime |
| RuntimeUtils.StoredAt | pywren_ibm_cloud/runtime/utils.py:62-67 | each runtime's new metadata is the content of its metadata object unless a later runtime has the same key |
| RuntimeUtils.RemovedKeys | pywren_ibm_cloud/runtime/utils.py:89-93 | deleting removes exactly the listed runtimes' metadata objects and keeps every other object |
| RuntimeUtils.CreateRuntime | pywren_ibm_cloud/runtime/utils.py:30-47 | a missing setting fails before any backend call; otherwise the key request and then the creation are made; a raising creation fails with no upload, and otherwise the returned metadata is stored in the runtime's metadata object unless the upload fails |
| RuntimeUtils.UpdateRuntime | pywren_ibm_cloud/runtime/utils.py:50-69 | after listing, every listed runtime is recreated with its own memory and its metadata stored, in order; the loop stops at the first creation that raises (with no upload) or the first failed upload, with that error |
| RuntimeUtils.BuildRuntime | pywren_ibm_cloud/runtime/utils.py:72-79 | the build request comes first and a raising build stops there; then the creation, whose failure stops the rest; then the whole update, starting from the bucket with the creation's metadata |
| RuntimeUtils.DeleteRuntime | pywren_ibm_cloud/runtime/utils.py:82-93 | after listing, each listed runtime is deleted and its metadata object removed, in list order |
| RuntimeUtils.CleanRuntimes | pywren_ibm_cloud/runtime/utils.py:116-122 | exactly the stored objects under "pywren.runtimes" are deleted, so no runtime has metadata left, and then all runtimes of the backend are deleted |
| CloudFunctions.NewClient | pywren_ibm_cloud/libs/ibm_cloudfunctions/client.py:30-51 | every `http:` of the endpoint becomes `https:`; an API key selects `namespace` and Basic authentication, else a token manager selects `namespace_id` and a bearer token, and with neither the constructor fails |
| CloudFunctions.ClientEndpointIsSecure | pywren_ibm_cloud/libs/ibm_cloudfunctions/client.py:35 | no `http:` is left anywhere in a constructed client's endpoint |
| CloudFunctions.SecureEndpoint | pywren_ibm_cloud/libs/ibm_cloudfunctions/client.py:35 | after the replacement no `http:` occurs at any index |
| CloudFunctions.ResourceUrl | pywren_ibm_cloud/libs/ibm_cloudfunctions/client.py:112 | a URL is built exactly when there is an effective namespace, by joining endpoint, `api/v1/namespaces`, namespace and the segments with '/' |
| CloudFunctions.ActionUrlShape | pywren_ibm_cloud/libs/ibm_cloudfunctions/client.py:194 | the invoke URL is `<endpoint>/api/v1/namespaces/<ns>/actions/<package>/<action>` |
| CloudFunctions.ListActionsUrlShape | pywren_ibm_cloud/libs/ibm_cloudfunctions/client.py:112 | the action listing URL is `<endpoint>/api/v1/namespaces/<ns>/actions/<package>/` |
| CloudFunctions.ClassifyInvoke | pywren_ibm_cloud/libs/ibm_cloudfunctions/client.py:219-230 | an id comes back exactly for status 202 with an `activationId`; 429 gives no id and the throttling message; 401, 404, and every other status raise, including 200 and a 202 without an id |
| CloudFunctions.Invoke | pywren_ibm_cloud/libs/ibm_cloudfunctions/client.py:190-230 | without a namespace it fails; an answer to the current request is classified; a failed retry returns no id and the failure's reason, and no id always comes with a reason |
| CloudFunctions.InvokeRetriesOnce | pywren_ibm_cloud/libs/ibm_cloudfunctions/client.py:190-230 | an answer to the first request is classified without a retry; a transport failure leads to exactly one retry; a second failure returns no id and its reason |
| CloudFunctions.InvokeWithoutNamespace | pywren_ibm_cloud/libs/ibm_cloudfunctions/client.py:194 | without an effective namespace `invoke` fails before sending anything |
| CloudFunctions.ListActions | pywren_ibm_cloud/libs/ibm_cloudfunctions/client.py:107-117 | status 200 gives the body, any other status an empty list, and a transport failure propagates |
| CloudFunctions.ListPackages | pywren_ibm_cloud/libs/ibm_cloudfunctions/client.py:145-158 | status 200 gives the body and every other status raises |
| CloudFunctions.ListingsDisagreeOnFailure | pywren_ibm_cloud/libs/ibm_cloudfunctions/client.py:114-117 | on the same non-200 status `list_actions` answers `[]` while `list_packages` raises |

## Left out

- Loading the configuration file and the environment, and loading backends with
  `importlib`, are not modelled: that is I/O and module loading. This covers
  `config.py` lines 41-97 and 128-136, and the backend construction of
  `compute.py` lines 25-32.
- `Config.Configuration.ApplyDefaults`: `dict.update` with a sequence of pairs is not
  modelled. Both `pywren` sections must be dicts, and anything else is a failure.
- `Config.Configuration.ApplyDefaults`: line 102 can never fire after line 100, which
  already raises on a missing section. Both are the one `MissingKey("pywren")` failure.
- The Kubernetes resource setup, the account and build resources, the YAML templates
  and the ingress discovery of the Knative constructor (`knative.py` lines 40-79 and
  133-222) are absent. Each is at most one abstract request in `calls`.
- Knative's `build_runtime` (`knative.py` lines 408-427) is not modelled: it builds
  with a docker shell command.
- The Python version is given to the Knative backend as two integers. `sys.version_info`
  is not read.
- `Knative.KnativeServingBackend.Invoke`: the transport, JSON decoding and `conn.close()`
  are folded into one `HttpOutcome`. The `conn.close()` in the `except` at line 526
  raises `NameError` when the connection was never made. That case is not modelled.
- `Knative.KnativeServingBackend.BuildImageFromGit`: a taskrun status without a
  `podName` key raises `KeyError`. The model treats it like a `null` pod name, and both
  fail.
- `Knative.ConditionsVerdict`: a `conditions` key whose value is `null` is not
  distinguished from an empty list. Both wait.
- The watch streams are finite sequences. A stream that ends without a stop event
  falls through, as the code's `for` loop does.
- `time.sleep`, `time.time` and round-trip timing are not modelled. A retry sleep is
  the member of `retry_sleeps` that a `pick` oracle selects, in place of
  `random.choice`.
- `Compute.Compute.Invoke` does not pass `runtime_name` and `memory` to the backend
  oracle. Each answer depends only on the attempt number.
- Logging and the messages of exceptions are not modelled. The `raise(<string>)` sites
  of `knative.py` line 125 and `runtime/utils.py` lines 47 and 69 are only failures.
- The Cloud Functions client's HTTP session, its `User-Agent` header and the base64
  encoding inside the Basic credential are not modelled. The credential carries the
  API key itself.
- The rest of the Cloud Functions client is not modelled: `create_action`,
  `get_action`, `delete_action`, `update_memory`, `delete_package`,
  `create_package` and `invoke_with_result`. They are outside the decision logic
  covered here.
- `CloudFunctions.Invoke`: `is_remote_cluster` is not modelled, so both transports are
  one `Transport` answer. The `conn.close()` edge case in the `except` at line 214 is
  not modelled either.
- `Job.MapJobPlan`: `verify_args` (job.py line 63) is not applied to the regrouped
  inputs, because it inspects the function's signature. Partitioning by
  `create_partitions` is not modelled either.
- `Job.CreateJob`: serialization, pickling, the module data and the storage key layout
  are parameters. `runtime_meta['preinstalls']` and the include/exclude module lists are
  not modelled. `int(runtime_memory)` is taken as an integer already.
- The partition reader's `readline` (`utils.py` lines 357-375) and `__getattr__`
  forwarding are not modelled.
- `Utils.FormatData`: Python aliasing is not modelled. A list or dict that occurs twice
  in the input is updated twice by the code, and the model updates each position once.
  An element updated before a clash raises stays updated in the caller's data. The model
  only reports the failure.
- `RuntimeUtils.CleanRuntimes`: removing the local cache directories
  (`runtime/utils.py` lines 104-114) is not modelled, because it is filesystem I/O.
- `RuntimeUtils.CreateRuntime`: `runtime_memory` and `runtime_timeout` that are not
  integers count as failures. Python would pass any value through.
- `RuntimeUtils.UpdateRuntime`: the first creation that raises, or the first failed
  metadata upload, ends the loop, as the exception does. Metadata already stored stays
  stored.
- `RuntimeUtils.InternalStorage`: the storage module is not part of this model. A
  runtime's metadata object is taken to be `pywren.runtimes/<runtime key>.meta.json`.
  The contracts rely only on two facts: it lies under the runtimes prefix, and it
  differs for different runtime keys. Object contents are JSON values.
- `Compute.Compute.List`, `Compute.Compute.RuntimeKey`, `Compute.Compute.Delete` and
  `Compute.Compute.DeleteAll`: a backend that raises is not modelled for these; each
  always returns the backend's answer. Only `Build`, `Create` and `Invoke` pass a raise
  on.
- `PyStr.ParseInt`: it accepts an optional sign followed by ASCII digits. Python's `int()`
  also accepts surrounding whitespace, `_` between digits and non-ASCII decimal digits;
  these refuse here. The memory part of a service name never holds them.
- `PyValues.VRange`: a range has a start and a stop but no step, so `format_data` on a
  `range` with a step other than 1 cannot be represented.
- `Knative.ServiceNameRoundTrip`: stated for memory n >= 0 only. A negative memory
  gives a name such as `img---5mb`, whose last "--" split leaves a trailing '-' in the
  image.
- `Knative.RuntimeKey`: the `os.path.join` shape is stated for plain components only.
  These are a non-empty cluster key without a trailing '/', and a namespace without a
  leading or trailing '/'. `Knative.RuntimeKeyLastSegment` holds for every cluster that
  parses.
- `Knative.ParseUrl`: it follows `urllib.parse` of Python 3.7, including the rule that a
  port number after the first ':' is not a scheme; later Python versions changed that
  rule. The check `_checknetloc` is not modelled: it raises for some non-ASCII network
  locations that change under NFKC normalization, and there is no Unicode normalization
  here. The parse cache is left out as well, since it does not change any result.
