/** The configuration of service instances: the user's file, templates
    removed, deep-merged over the automatically tuned file when the system
    configuration enables that for the instance type. */
module Overlay {
  import opened Results
  import opened PyStrings
  import opened Values
  import opened Collaborators
  import opened SystemConfig
  import opened Instances
  import opened Seqs

  /** `enabled_types.get(instance_type)` is truthy. */
  predicate AutoEnabled(sc: SystemPaastaConfig, instanceType: string)
  {
    var enabled := GetAutoConfigInstanceTypesEnabled(sc);
    enabled.Obj? && Truthy(GetOr(enabled.entries, instanceType, Null))
  }

  /** The file name of the automatically tuned configuration. */
  function AutoConfFile(ext: Externals, instanceType: string, cluster: string): string
  {
    ext.autoSubdir + "/" + ConfFile(instanceType, cluster)
  }

  /** load_service_instance_auto_configs.  An enabled map that is not a dict
      has no `get`. */
  function LoadServiceInstanceAutoConfigs(env: Env, service: string, instanceType: string, cluster: string)
    : (r: Result<Dict, Error>)
    ensures env.system.Err? ==> r == Err(env.system.error)
    ensures r.Ok? <==> env.system.Ok? && GetAutoConfigInstanceTypesEnabled(env.system.value).Obj?
    ensures r.Ok? && !AutoEnabled(env.system.value, instanceType) ==> r.value == []
    ensures r.Ok? && AutoEnabled(env.system.value, instanceType) ==>
      r.value == ReadExtraServiceInformation(env.soa, service, AutoConfFile(env.ext, instanceType, cluster))
  {
    match env.system
    case Err(e) => Err(e)
    case Ok(sc) =>
      match GetAutoConfigInstanceTypesEnabled(sc)
      case Obj(enabled) =>
        if Truthy(GetOr(enabled, instanceType, Null))
        then Ok(ReadExtraServiceInformation(env.soa, service, AutoConfFile(env.ext, instanceType, cluster)))
        else Ok([])
      case _ => Err(WrongShape("auto_config_instance_types_enabled"))
  }

  /** `auto_configs.get(instance_name, {})` */
  function AutoConfigFor(auto: Dict, instance: string): Value
  {
    GetOr(auto, instance, Obj([]))
  }

  /** `deep_merge_dictionaries(overrides=user, defaults=auto)` with the
      default duplicate-key policy. */
  function MergeInstance(ext: Externals, user: Value, auto: Value): (r: Result<Dict, Error>)
    ensures r.Ok? <==> ext.deepMerge(user, auto, ext.mergeDefaultAllowsDuplicates).Merged?
    ensures r.Ok? ==> ext.deepMerge(user, auto, ext.mergeDefaultAllowsDuplicates) == Merged(r.value)
  {
    match ext.deepMerge(user, auto, ext.mergeDefaultAllowsDuplicates)
    case Merged(d) => Ok(d)
    case MergeError(m) => Err(MergeFailed(m))
  }

  /** The message of the InvalidJobNameError for a template-like instance name. */
  function TemplateNameMessage(service: string, instance: string, instanceType: string): string
  {
    "Unable to load " + instanceType + " config for " + service + "." + instance
    + " as instance name starts with '_'"
  }

  /** The message of the NoConfigurationForServiceError for a missing instance. */
  function MissingInstanceMessage(env: Env, service: string, instance: string, instanceType: string, cluster: string): string
  {
    instance + " not found in config file " + env.soaDir + "/" + service + "/" + ConfFile(instanceType, cluster) + ".yaml."
  }

  /** `read_extra_service_information(...).get(instance)`: absent and an
      explicit null both read as `Null`. */
  function UserConfig(env: Env, service: string, instance: string, instanceType: string, cluster: string): Value
  {
    GetOr(ReadExtraServiceInformation(env.soa, service, ConfFile(instanceType, cluster)), instance, Null)
  }

  /** load_service_instance_config */
  function LoadServiceInstanceConfig(env: Env, service: string, instance: string, instanceType: string, cluster: string)
    : (r: Result<Dict, Error>)
    ensures StartsWith(instance, "_") ==>
      r == Err(InvalidJobName(TemplateNameMessage(service, instance, instanceType)))
    ensures !StartsWith(instance, "_") && UserConfig(env, service, instance, instanceType, cluster) == Null ==>
      r == Err(NoConfigurationForService(MissingInstanceMessage(env, service, instance, instanceType, cluster)))
    ensures r.Ok? ==>
      !StartsWith(instance, "_")
      && UserConfig(env, service, instance, instanceType, cluster) != Null
      && LoadServiceInstanceAutoConfigs(env, service, instanceType, cluster).Ok?
      && env.ext.deepMerge(
           UserConfig(env, service, instance, instanceType, cluster),
           AutoConfigFor(LoadServiceInstanceAutoConfigs(env, service, instanceType, cluster).value, instance),
           env.ext.mergeDefaultAllowsDuplicates) == Merged(r.value)
  {
    if StartsWith(instance, "_") then Err(InvalidJobName(TemplateNameMessage(service, instance, instanceType)))
    else
      var user := UserConfig(env, service, instance, instanceType, cluster);
      if user == Null then
        Err(NoConfigurationForService(MissingInstanceMessage(env, service, instance, instanceType, cluster)))
      else
        match LoadServiceInstanceAutoConfigs(env, service, instanceType, cluster)
        case Err(e) => Err(e)
        case Ok(auto) => MergeInstance(env.ext, user, AutoConfigFor(auto, instance))
  }

  /** The `merged` dict after the given user instances. */
  function MergeAll(ext: Externals, users: Dict, auto: Dict): Result<Dict, Error>
  {
    if users == [] then Ok([])
    else MergeStep(ext, MergeAll(ext, users[..|users| - 1], auto), auto, users[|users| - 1])
  }

  /** One round of the loop: `merged[instance_name] = ...` */
  function MergeStep(ext: Externals, merged: Result<Dict, Error>, auto: Dict, user: (string, Value)): Result<Dict, Error>
  {
    match merged
    case Err(e) => Err(e)
    case Ok(acc) =>
      match MergeInstance(ext, user.1, AutoConfigFor(auto, user.0))
      case Err(e) => Err(e)
      case Ok(d) => Ok(Put(acc, user.0, Obj(d)))
  }

  lemma MergeSnoc(ext: Externals, users: Dict, auto: Dict, user: (string, Value))
    ensures MergeAll(ext, users + [user], auto) == MergeStep(ext, MergeAll(ext, users, auto), auto, user)
  {
    assert (users + [user])[..|users|] == users;
  }

  /** What load_service_instance_configs returns. */
  function LoadedConfigs(env: Env, service: string, instanceType: string, cluster: string): Result<Dict, Error>
  {
    match LoadServiceInstanceAutoConfigs(env, service, instanceType, cluster)
    case Err(e) => Err(e)
    case Ok(auto) => MergeAll(env.ext, UserConfigs(env.soa, service, instanceType, cluster), auto)
  }

  lemma {:induction false} MergeErrorAbsorbs(ext: Externals, users: Dict, more: Dict, auto: Dict)
    requires MergeAll(ext, users, auto).Err?
    ensures MergeAll(ext, users + more, auto) == MergeAll(ext, users, auto)
    decreases |more|
  {
    if more != [] {
      MergeErrorAbsorbs(ext, users, more[..|more| - 1], auto);
      SnocSplit(users, more);
      MergeSnoc(ext, users + more[..|more| - 1], auto, more[|more| - 1]);
    } else {
      assert users + more == users;
    }
  }

  /** load_service_instance_configs: the loop filling `merged`. */
  method LoadServiceInstanceConfigs(env: Env, service: string, instanceType: string, cluster: string)
    returns (r: Result<Dict, Error>)
    ensures r == LoadedConfigs(env, service, instanceType, cluster)
  {
    var userConfigs := UserConfigs(env.soa, service, instanceType, cluster);
    var autoConfigs := LoadServiceInstanceAutoConfigs(env, service, instanceType, cluster);
    if autoConfigs.Err? {
      return Err(autoConfigs.error);
    }
    var merged: Dict := [];
    for i := 0 to |userConfigs|
      invariant MergeAll(env.ext, userConfigs[..i], autoConfigs.value) == Ok(merged)
    {
      PrefixSnoc(userConfigs, i);
      MergeSnoc(env.ext, userConfigs[..i], autoConfigs.value, userConfigs[i]);
      var instanceName := userConfigs[i].0;
      var m := MergeInstance(env.ext, userConfigs[i].1, AutoConfigFor(autoConfigs.value, instanceName));
      if m.Err? {
        MergeErrorAbsorbs(env.ext, userConfigs[..i + 1], userConfigs[i + 1..], autoConfigs.value);
        PrefixAndRest(userConfigs, i + 1);
        return Err(m.error);
      }
      merged := Put(merged, instanceName, Obj(m.value));
    }
    TakeAll(userConfigs);
    r := Ok(merged);
  }

  lemma DistinctKeysPrefix(d: Dict, n: nat)
    requires DistinctKeys(d) && n <= |d|
    ensures DistinctKeys(d[..n])
  {
    assert forall i :: 0 <= i < n ==> d[..n][i] == d[i];
  }

  /** The instance names of a user dict are distinct from its last one. */
  lemma LastKeyIsNew(users: Dict)
    requires DistinctKeys(users) && users != []
    ensures users[|users| - 1].0 !in Keys(users[..|users| - 1])
    ensures Keys(users) == Keys(users[..|users| - 1]) + [users[|users| - 1].0]
  {
    var n := |users| - 1;
    var init := users[..n];
    SnocSplit([], users);
    KeysSnoc(init, users[n]);
    forall j | 0 <= j < n ensures Keys(init)[j] != users[n].0 {
      assert init[j] == users[j];
    }
  }

  /** With distinct instance names, the merged dict has exactly the user's
      instance names, in the user's order. */
  lemma {:induction false} MergeAllKeys(ext: Externals, users: Dict, auto: Dict)
    requires DistinctKeys(users)
    requires MergeAll(ext, users, auto).Ok?
    ensures Keys(MergeAll(ext, users, auto).value) == Keys(users)
  {
    if users != [] {
      var n := |users| - 1;
      DistinctKeysPrefix(users, n);
      MergeAllKeys(ext, users[..n], auto);
      LastKeyIsNew(users);
    }
  }

  /** In `merged`, the instance of `entry` maps to the merge of its user
      config over its auto config. */
  predicate HoldsMerge(ext: Externals, merged: Dict, auto: Dict, entry: (string, Value))
  {
    var m := MergeInstance(ext, entry.1, AutoConfigFor(auto, entry.0));
    m.Ok? && Get(merged, entry.0) == Some(Obj(m.value))
  }

  lemma PutKeepsHoldsMerge(ext: Externals, merged: Dict, auto: Dict, entry: (string, Value), k: string, d: Dict)
    requires HoldsMerge(ext, merged, auto, entry) && entry.0 != k
    ensures HoldsMerge(ext, Put(merged, k, Obj(d)), auto, entry)
  {
    PutGet(merged, k, Obj(d), entry.0);
  }

  /** With distinct instance names, the name at position `i` maps to its own merge. */
  lemma {:induction false} MergeAllValueAt(ext: Externals, users: Dict, auto: Dict, i: nat)
    requires DistinctKeys(users)
    requires MergeAll(ext, users, auto).Ok?
    requires i < |users|
    ensures HoldsMerge(ext, MergeAll(ext, users, auto).value, auto, users[i])
    decreases |users|
  {
    var n := |users| - 1;
    var init := users[..n];
    var last := users[n];
    var acc := MergeAll(ext, init, auto).value;
    var d := MergeInstance(ext, last.1, AutoConfigFor(auto, last.0)).value;
    assert MergeAll(ext, users, auto).value == Put(acc, last.0, Obj(d));
    if i == n {
      PutGet(acc, last.0, Obj(d), last.0);
    } else {
      DistinctKeysPrefix(users, n);
      MergeAllValueAt(ext, init, auto, i);
      assert init[i] == users[i];
      PutKeepsHoldsMerge(ext, acc, auto, users[i], last.0, d);
    }
  }

  /** With distinct instance names, each name maps to its own merge. */
  lemma MergeAllValues(ext: Externals, users: Dict, auto: Dict)
    requires DistinctKeys(users)
    requires MergeAll(ext, users, auto).Ok?
    ensures forall i :: 0 <= i < |users| ==> HoldsMerge(ext, MergeAll(ext, users, auto).value, auto, users[i])
  {
    forall i | 0 <= i < |users| ensures HoldsMerge(ext, MergeAll(ext, users, auto).value, auto, users[i]) {
      MergeAllValueAt(ext, users, auto, i);
    }
  }

  /** The result of load_service_instance_configs has exactly the instance
      names of the user file that do not start with "_", and each is the
      user's entry merged as `overrides` over the auto entry (or `{}`) as
      `defaults`. */
  lemma LoadedConfigsSpec(env: Env, service: string, instanceType: string, cluster: string)
    requires DistinctKeys(ReadExtraServiceInformation(env.soa, service, ConfFile(instanceType, cluster)))
    requires LoadedConfigs(env, service, instanceType, cluster).Ok?
    ensures var users := ReadExtraServiceInformation(env.soa, service, ConfFile(instanceType, cluster));
      forall k :: k in Keys(LoadedConfigs(env, service, instanceType, cluster).value) <==>
        k in Keys(users) && !StartsWith(k, "_")
    ensures var users := UserConfigs(env.soa, service, instanceType, cluster);
      var auto := LoadServiceInstanceAutoConfigs(env, service, instanceType, cluster).value;
      forall i :: 0 <= i < |users| ==>
        exists d ::
          env.ext.deepMerge(users[i].1, AutoConfigFor(auto, users[i].0), env.ext.mergeDefaultAllowsDuplicates) == Merged(d)
          && Get(LoadedConfigs(env, service, instanceType, cluster).value, users[i].0) == Some(Obj(d))
  {
    var raw := ReadExtraServiceInformation(env.soa, service, ConfFile(instanceType, cluster));
    var users := UserConfigs(env.soa, service, instanceType, cluster);
    var auto := LoadServiceInstanceAutoConfigs(env, service, instanceType, cluster).value;
    FilterTemplatesDistinct(raw);
    FilterTemplatesKeys(raw);
    MergeAllKeys(env.ext, users, auto);
    MergeAllValues(env.ext, users, auto);
    forall i | 0 <= i < |users|
      ensures exists d ::
        env.ext.deepMerge(users[i].1, AutoConfigFor(auto, users[i].0), env.ext.mergeDefaultAllowsDuplicates) == Merged(d)
        && Get(LoadedConfigs(env, service, instanceType, cluster).value, users[i].0) == Some(Obj(d))
    {
      var d := MergeInstance(env.ext, users[i].1, AutoConfigFor(auto, users[i].0)).value;
      assert env.ext.deepMerge(users[i].1, AutoConfigFor(auto, users[i].0), env.ext.mergeDefaultAllowsDuplicates) == Merged(d);
    }
  }

  /** The bulk loader and the single loader agree on every instance with a
      non-null user entry. */
  lemma BulkAgreesWithSingle(env: Env, service: string, instance: string, instanceType: string, cluster: string)
    requires DistinctKeys(ReadExtraServiceInformation(env.soa, service, ConfFile(instanceType, cluster)))
    requires LoadedConfigs(env, service, instanceType, cluster).Ok?
    requires instance in Keys(LoadedConfigs(env, service, instanceType, cluster).value)
    requires UserConfig(env, service, instance, instanceType, cluster) != Null
    ensures LoadServiceInstanceConfig(env, service, instance, instanceType, cluster).Ok?
    ensures Get(LoadedConfigs(env, service, instanceType, cluster).value, instance)
      == Some(Obj(LoadServiceInstanceConfig(env, service, instance, instanceType, cluster).value))
  {
    var raw := ReadExtraServiceInformation(env.soa, service, ConfFile(instanceType, cluster));
    var users := UserConfigs(env.soa, service, instanceType, cluster);
    var auto := LoadServiceInstanceAutoConfigs(env, service, instanceType, cluster).value;
    FilterTemplatesDistinct(raw);
    FilterTemplatesKeys(raw);
    MergeAllKeys(env.ext, users, auto);
    assert instance in Keys(users);
    var i :| 0 <= i < |users| && Keys(users)[i] == instance;
    MergeAllValueAt(env.ext, users, auto, i);
    GetAt(users, i);
    FilterTemplatesMembers(raw);
    assert users[i] in raw;
    var j :| 0 <= j < |raw| && raw[j] == users[i];
    GetAt(raw, j);
    assert UserConfig(env, service, instance, instanceType, cluster) == users[i].1;
  }

  /** When the type is not enabled, every instance is merged over `{}`. */
  lemma DisabledMeansEmptyDefaults(env: Env, service: string, instance: string, instanceType: string, cluster: string)
    requires env.system.Ok? && !AutoEnabled(env.system.value, instanceType)
    requires LoadServiceInstanceConfig(env, service, instance, instanceType, cluster).Ok?
    ensures env.ext.deepMerge(UserConfig(env, service, instance, instanceType, cluster), Obj([]),
      env.ext.mergeDefaultAllowsDuplicates) == Merged(LoadServiceInstanceConfig(env, service, instance, instanceType, cluster).value)
  {
  }
}
