/** Configuration defaulting and extraction (`pywren_ibm_cloud/config.py`). A loaded
    configuration is a dict of sections; the `pywren` section holds the settings that
    `default_config` completes with defaults. */
module Config {
  import opened Wrappers
  import opened PyValues

  const ComputeBackendDefault: string := "ibm_cf"
  const StorageBackendDefault: string := "ibm_cos"
  const StoragePrefixDefault: string := "pywren.jobs"
  const RuntimesPrefixDefault: string := "pywren.runtimes"
  const DataCleanerDefault: bool := false
  const InvocationRetryDefault: bool := true
  const RetriesDefault: int := 5

  /** `RETRY_SLEEPS_DEFAULT` as the list value a section holds. */
  const RetrySleepsValue: Value := VList([VInt(4), VInt(8), VInt(16), VInt(24)])

  /** Why a configuration step raised: a section or setting is missing, a section is
      not a dict, or `in` was applied to a value that is not a container. */
  datatype ConfigError =
    | MissingKey(key: string)
    | NotADict(key: string)
    | NotAContainer(key: string)
    | NotABackendName(key: string)

  /** Lines 109-120: the settings `default_config` fills in when they are absent. */
  function Defaults(): map<string, Value> {
    map[
      "storage_backend" := VStr(StorageBackendDefault),
      "data_cleaner" := VBool(DataCleanerDefault),
      "invocation_retry" := VBool(InvocationRetryDefault),
      "retry_sleeps" := RetrySleepsValue,
      "retries" := VInt(RetriesDefault),
      "compute_backend" := VStr(ComputeBackendDefault)
    ]
  }

  /** Lines 122-126: whether the `rabbitmq` section is deleted: when it is `None`, has no
      `amqp_url`, or its `amqp_url` is `None`. `in` on a non-container raises, and so does
      indexing a container that is not a dict. */
  function DropRabbitmq(section: Value): (r: Result<bool, ConfigError>)
    ensures section.VDict? ==>
              r == Ok("amqp_url" !in section.entries || section.entries["amqp_url"] == VNone)
    ensures section == VNone ==> r == Ok(true)
    ensures r.Err? ==> section != VNone && !section.VDict?
  {
    if section == VNone then Ok(true)
    else
      match ContainsKey(section, "amqp_url")
      case Err(_) => Err(NotAContainer("rabbitmq"))
      case Ok(false) => Ok(true)
      case Ok(true) =>
        match GetItem(section, "amqp_url")
        case None => Err(NotADict("rabbitmq"))
        case Some(url) => Ok(url == VNone)
  }

  /** What lines 108-120 make of the merged `pywren` section `merged`: the storage
      prefix forced, every other present setting kept, and the absent defaults added. */
  function Defaulted(merged: map<string, Value>): (section: map<string, Value>)
    ensures section.Keys == merged.Keys + Defaults().Keys + {"storage_prefix"}
    ensures section["storage_prefix"] == VStr(StoragePrefixDefault)
    ensures forall k :: k in merged && k != "storage_prefix" ==> section[k] == merged[k]
    ensures forall k :: k in Defaults() && k !in merged ==> section[k] == Defaults()[k]
  {
    (Defaults() + merged)["storage_prefix" := VStr(StoragePrefixDefault)]
  }

  /** One `if key not in section: section[key] = value` step of lines 109-120. */
  function WithDefault(section: map<string, Value>, key: string, value: Value): map<string, Value> {
    if key in section then section else section[key := value]
  }

  /** Filling in `key` over `filled + forced` adds `key` to the defaults `filled`. */
  lemma FillStep(filled: map<string, Value>, forced: map<string, Value>, key: string, value: Value)
    requires key !in filled
    ensures WithDefault(filled + forced, key, value) == filled[key := value] + forced
  {
  }

  /** With all six defaults filled in under the forced prefix, the section is `Defaulted`. */
  lemma FilledAll(merged: map<string, Value>, forced: map<string, Value>)
    requires forced == merged["storage_prefix" := VStr(StoragePrefixDefault)]
    ensures Defaults() + forced == Defaulted(merged)
  {
  }

  /** Lines 108-120: force the storage prefix and fill in each absent default. */
  method FillDefaults(merged: map<string, Value>) returns (section: map<string, Value>)
    ensures section == Defaulted(merged)
  {
    var forced := merged["storage_prefix" := VStr(StoragePrefixDefault)];
    ghost var filled: map<string, Value> := map[];
    assert forced == filled + forced;
    section := forced;
    FillStep(filled, forced, "storage_backend", VStr(StorageBackendDefault));
    section := WithDefault(section, "storage_backend", VStr(StorageBackendDefault));
    filled := filled["storage_backend" := VStr(StorageBackendDefault)];
    FillStep(filled, forced, "data_cleaner", VBool(DataCleanerDefault));
    section := WithDefault(section, "data_cleaner", VBool(DataCleanerDefault));
    filled := filled["data_cleaner" := VBool(DataCleanerDefault)];
    FillStep(filled, forced, "invocation_retry", VBool(InvocationRetryDefault));
    section := WithDefault(section, "invocation_retry", VBool(InvocationRetryDefault));
    filled := filled["invocation_retry" := VBool(InvocationRetryDefault)];
    FillStep(filled, forced, "retry_sleeps", RetrySleepsValue);
    section := WithDefault(section, "retry_sleeps", RetrySleepsValue);
    filled := filled["retry_sleeps" := RetrySleepsValue];
    FillStep(filled, forced, "retries", VInt(RetriesDefault));
    section := WithDefault(section, "retries", VInt(RetriesDefault));
    filled := filled["retries" := VInt(RetriesDefault)];
    FillStep(filled, forced, "compute_backend", VStr(ComputeBackendDefault));
    section := WithDefault(section, "compute_backend", VStr(ComputeBackendDefault));
    filled := filled["compute_backend" := VStr(ComputeBackendDefault)];
    assert filled == Defaults();
    FilledAll(merged, forced);
  }

  /** Defaulting a section that is already defaulted changes nothing. */
  lemma DefaultingIsIdempotent(merged: map<string, Value>)
    ensures Defaulted(Defaulted(merged)) == Defaulted(merged)
  {
  }

  /** The `user_agent` the extracted sections carry. */
  function UserAgent(version: string): string {
    "pywren-ibm-cloud/" + version
  }

  /** A section of `config` that is a dict: its entries, or why it is not one. */
  function SectionOf(config: map<string, Value>, key: string): (r: Result<map<string, Value>, ConfigError>)
    ensures r.Ok? <==> key in config && config[key].VDict?
    ensures r.Ok? ==> r.value == config[key].entries
  {
    if key !in config then Err(MissingKey(key))
    else if !config[key].VDict? then Err(NotADict(key))
    else Ok(config[key].entries)
  }

  /** A backend name setting of the `pywren` section: it must be a string to name a
      section of the configuration. */
  function StringSetting(settings: map<string, Value>, key: string): (r: Result<string, ConfigError>)
    ensures r.Ok? <==> key in settings && settings[key].VStr?
    ensures r.Ok? ==> r.value == settings[key].s
  {
    if key !in settings then Err(MissingKey(key))
    else if !settings[key].VStr? then Err(NotABackendName(key))
    else Ok(settings[key].s)
  }

  /** A backend's section with the `user_agent` set and, when the `pywren` section has
      `regionKey`, the `region` set from it. */
  function BackendSection(section: map<string, Value>, settings: map<string, Value>,
                          regionKey: string, version: string): (r: map<string, Value>)
    ensures r.Keys == section.Keys + {"user_agent"} + (if regionKey in settings then {"region"} else {})
    ensures r["user_agent"] == VStr(UserAgent(version))
    ensures regionKey in settings ==> r["region"] == settings[regionKey]
    ensures forall k :: k in section && k != "user_agent" && k != "region" ==> r[k] == section[k]
    ensures regionKey !in settings ==> forall k :: k in section && k != "user_agent" ==> r[k] == section[k]
  {
    var withAgent := section["user_agent" := VStr(UserAgent(version))];
    if regionKey in settings then withAgent["region" := settings[regionKey]] else withAgent
  }

  /** Lines 122-126: `config` without its `rabbitmq` section when `DropRabbitmq` says so;
      every other section is kept as it is. */
  function WithoutUnusableRabbitmq(config: map<string, Value>): (r: Result<map<string, Value>, ConfigError>)
    ensures r.Err? <==> "rabbitmq" in config && DropRabbitmq(config["rabbitmq"]).Err?
    ensures r.Ok? ==>
              r.value.Keys <= config.Keys && r.value.Keys - {"rabbitmq"} == config.Keys - {"rabbitmq"} &&
              (forall k :: k in r.value ==> r.value[k] == config[k]) &&
              ("rabbitmq" in r.value <==> "rabbitmq" in config && DropRabbitmq(config["rabbitmq"]) == Ok(false))
  {
    if "rabbitmq" !in config then Ok(config)
    else
      match DropRabbitmq(config["rabbitmq"])
      case Err(e) => Err(e)
      case Ok(drop) => Ok(if drop then config - {"rabbitmq"} else config)
  }

  /** `config_data['pywren']` and `config_overwrite['pywren']` are both dicts. */
  predicate CanMerge(data: map<string, Value>, overwrite: map<string, Value>) {
    "pywren" in data && data["pywren"].VDict? && "pywren" in overwrite && overwrite["pywren"].VDict?
  }

  /** The `pywren` section after line 100 applies the user's overrides. */
  function Merged(data: map<string, Value>, overwrite: map<string, Value>): (r: map<string, Value>)
    requires CanMerge(data, overwrite)
    ensures r.Keys == data["pywren"].entries.Keys + overwrite["pywren"].entries.Keys
    ensures forall k :: k in overwrite["pywren"].entries ==> r[k] == overwrite["pywren"].entries[k]
    ensures forall k :: k in data["pywren"].entries && k !in overwrite["pywren"].entries ==>
              r[k] == data["pywren"].entries[k]
  {
    data["pywren"].entries + overwrite["pywren"].entries
  }

  /** Line 100: a setting the user overrides reaches the defaulted section unchanged,
      except the storage prefix, which line 108 forces. */
  lemma OverridesWin(data: map<string, Value>, overwrite: map<string, Value>)
    requires CanMerge(data, overwrite)
    ensures forall k :: k in overwrite["pywren"].entries && k != "storage_prefix" ==>
              Defaulted(Merged(data, overwrite))[k] == overwrite["pywren"].entries[k]
  {
  }

  /** A loaded configuration, a dict of sections that `default_config` and the
      extractions update in place. */
  class Configuration {
    var data: map<string, Value>

    constructor (data: map<string, Value>)
      ensures this.data == data
    {
      this.data := data;
    }

    /** Lines 100-126 of `default_config`: merge the user's `pywren` overrides into the
        `pywren` section, require a storage bucket, force the storage prefix, fill in the
        absent defaults and delete an unusable `rabbitmq` section. A step that raises
        leaves the updates made before it in place. */
    method ApplyDefaults(overwrite: map<string, Value>) returns (r: Result<(), ConfigError>)
      modifies this
      ensures !CanMerge(old(data), overwrite) ==> r.Err? && data == old(data)
      ensures CanMerge(old(data), overwrite) && "storage_bucket" !in Merged(old(data), overwrite) ==>
                r == Err(MissingKey("storage_bucket")) &&
                data == old(data)["pywren" := VDict(Merged(old(data), overwrite))]
      ensures CanMerge(old(data), overwrite) && "storage_bucket" in Merged(old(data), overwrite) ==>
                var defaulted := old(data)["pywren" := VDict(Defaulted(Merged(old(data), overwrite)))];
                (r.Ok? <==> WithoutUnusableRabbitmq(defaulted).Ok?) &&
                (r.Ok? ==> data == WithoutUnusableRabbitmq(defaulted).value) &&
                (r.Err? ==> data == defaulted)
    {
      if !CanMerge(data, overwrite) {
        return Err(if "pywren" !in data || "pywren" !in overwrite then MissingKey("pywren") else NotADict("pywren"));
      }
      var merged := Merged(data, overwrite);
      data := data["pywren" := VDict(merged)];
      if "storage_bucket" !in merged {
        return Err(MissingKey("storage_bucket"));
      }
      var section := FillDefaults(merged);
      data := data["pywren" := VDict(section)];
      assert data == old(data)["pywren" := VDict(Defaulted(Merged(old(data), overwrite)))];
      var pruned :- WithoutUnusableRabbitmq(data);
      data := pruned;
      r := Ok(());
    }

    /** Lines 141-153, `extract_storage_config`: the storage backend's name, prefix and
        bucket, and the backend's own section, which is shared with `data`: the
        `user_agent` (and `region`, when `storage_backend_region` is set) written into the
        extracted section appear in `data` as well. */
    method ExtractStorageConfig(version: string) returns (r: Result<map<string, Value>, ConfigError>)
      modifies this
      ensures r.Err? ==> data == old(data)
      ensures r.Ok? ==>
                "pywren" in old(data) && old(data)["pywren"].VDict? &&
                var settings := old(data)["pywren"].entries;
                "storage_backend" in settings && settings["storage_backend"].VStr? &&
                var sb := settings["storage_backend"].s;
                "storage_prefix" in settings && "storage_bucket" in settings &&
                sb in old(data) && old(data)[sb].VDict? &&
                var section := BackendSection(old(data)[sb].entries, settings, "storage_backend_region", version);
                r.value.Keys == {"backend", "prefix", "bucket", sb} &&
                r.value[sb] == VDict(section) &&
                (sb != "backend" ==> r.value["backend"] == VStr(sb)) &&
                (sb != "prefix" ==> r.value["prefix"] == settings["storage_prefix"]) &&
                (sb != "bucket" ==> r.value["bucket"] == settings["storage_bucket"]) &&
                data == old(data)[sb := VDict(section)]
      ensures r.Err? <==>
                "pywren" !in old(data) || !old(data)["pywren"].VDict? ||
                var settings := old(data)["pywren"].entries;
                "storage_backend" !in settings || !settings["storage_backend"].VStr? ||
                "storage_prefix" !in settings || "storage_bucket" !in settings ||
                settings["storage_backend"].s !in old(data) || !old(data)[settings["storage_backend"].s].VDict?
    {
      var settings :- SectionOf(data, "pywren");
      var sb :- StringSetting(settings, "storage_backend");
      if "storage_prefix" !in settings {
        return Err(MissingKey("storage_prefix"));
      }
      if "storage_bucket" !in settings {
        return Err(MissingKey("storage_bucket"));
      }
      var backend :- SectionOf(data, sb);
      var section := BackendSection(backend, settings, "storage_backend_region", version);
      data := data[sb := VDict(section)];
      r := Ok(map["backend" := VStr(sb), "prefix" := settings["storage_prefix"],
                  "bucket" := settings["storage_bucket"]][sb := VDict(section)]);
    }

    /** Lines 156-169, `extract_compute_config`: the compute backend's name, its retry
        settings, and the backend's own section, shared with `data` as in
        `ExtractStorageConfig` (`region` comes from `compute_backend_region`). */
    method ExtractComputeConfig(version: string) returns (r: Result<map<string, Value>, ConfigError>)
      modifies this
      ensures r.Err? ==> data == old(data)
      ensures r.Ok? ==>
                "pywren" in old(data) && old(data)["pywren"].VDict? &&
                var settings := old(data)["pywren"].entries;
                "compute_backend" in settings && settings["compute_backend"].VStr? &&
                var cb := settings["compute_backend"].s;
                ComputeSettings <= settings.Keys &&
                cb in old(data) && old(data)[cb].VDict? &&
                var section := BackendSection(old(data)[cb].entries, settings, "compute_backend_region", version);
                r.value.Keys == ComputeSettings + {"backend", cb} &&
                r.value[cb] == VDict(section) &&
                (cb != "backend" ==> r.value["backend"] == VStr(cb)) &&
                (forall k :: k in ComputeSettings && k != cb ==> r.value[k] == settings[k]) &&
                data == old(data)[cb := VDict(section)]
      ensures r.Err? <==>
                "pywren" !in old(data) || !old(data)["pywren"].VDict? ||
                var settings := old(data)["pywren"].entries;
                "compute_backend" !in settings || !settings["compute_backend"].VStr? ||
                !(ComputeSettings <= settings.Keys) ||
                settings["compute_backend"].s !in old(data) || !old(data)[settings["compute_backend"].s].VDict?
    {
      var settings :- SectionOf(data, "pywren");
      var cb :- StringSetting(settings, "compute_backend");
      if "invocation_retry" !in settings {
        return Err(MissingKey("invocation_retry"));
      }
      if "retry_sleeps" !in settings {
        return Err(MissingKey("retry_sleeps"));
      }
      if "retries" !in settings {
        return Err(MissingKey("retries"));
      }
      var backend :- SectionOf(data, cb);
      var section := BackendSection(backend, settings, "compute_backend_region", version);
      data := data[cb := VDict(section)];
      r := Ok(map["backend" := VStr(cb), "invocation_retry" := settings["invocation_retry"],
                  "retry_sleeps" := settings["retry_sleeps"], "retries" := settings["retries"]][cb := VDict(section)]);
    }
  }

  /** The settings `extract_compute_config` copies. */
  const ComputeSettings: set<string> := {"invocation_retry", "retry_sleeps", "retries"}

  /** A section `default_config` completed has every setting `extract_compute_config`
      copies. */
  lemma DefaultedHasComputeSettings(merged: map<string, Value>)
    ensures ComputeSettings <= Defaulted(merged).Keys
    ensures "compute_backend" in Defaulted(merged) && "storage_backend" in Defaulted(merged)
  {
  }
}
