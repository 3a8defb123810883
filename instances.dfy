/** Which instances a service defines: template filtering, the expansion of
    a config file into `(service, instance)` pairs, the scan over instance
    types, and the owner lookup of `validate_service_instance`. */
module Instances {
  import opened Results
  import opened PyStrings
  import opened Values
  import opened Collaborators
  import opened SystemConfig
  import opened Seqs

  /** What the loaders and enumerators read: the constants and helpers of
      other modules, the directory name `soa_dir` and the files under it, and
      the outcome of load_system_paasta_config(). */
  datatype Env = Env(ext: Externals, soaDir: string, soa: SoaTree, system: Result<SystemPaastaConfig, Error>)

  type ServiceInstance = (string, string)

  /** `f"{instance_type}-{cluster}"` */
  function ConfFile(instanceType: string, cluster: string): string
  {
    instanceType + "-" + cluster
  }

  /** filter_templates_from_config: drop every key starting with "_". */
  function FilterTemplatesFromConfig(config: Dict): (r: Dict)
    ensures |r| <= |config|
  {
    if config == [] then []
    else (if StartsWith(config[0].0, "_") then [] else [config[0]]) + FilterTemplatesFromConfig(config[1..])
  }

  /** The filter keeps exactly the entries whose key does not start with "_". */
  lemma {:induction false} FilterTemplatesMembers(config: Dict)
    ensures forall e :: e in FilterTemplatesFromConfig(config) <==> e in config && !StartsWith(e.0, "_")
  {
    if config != [] {
      FilterTemplatesMembers(config[1..]);
      assert forall e :: e in config <==> e == config[0] || e in config[1..];
    }
  }

  /** The filter works entry by entry, so it keeps the order of the input. */
  lemma {:induction false} FilterTemplatesAppend(a: Dict, b: Dict)
    ensures FilterTemplatesFromConfig(a + b) == FilterTemplatesFromConfig(a) + FilterTemplatesFromConfig(b)
  {
    if a != [] {
      FilterTemplatesAppend(a[1..], b);
      assert (a + b)[1..] == a[1..] + b;
    } else {
      assert a + b == b;
    }
  }

  /** Filtering twice is filtering once. */
  lemma {:induction false} FilterTemplatesIdempotent(config: Dict)
    ensures FilterTemplatesFromConfig(FilterTemplatesFromConfig(config)) == FilterTemplatesFromConfig(config)
  {
    if config != [] {
      FilterTemplatesIdempotent(config[1..]);
      var rest := FilterTemplatesFromConfig(config[1..]);
      if !StartsWith(config[0].0, "_") {
        var r := [config[0]] + rest;
        assert FilterTemplatesFromConfig(config) == r;
        assert r[0] == config[0] && r[1..] == rest;
        assert FilterTemplatesFromConfig(r) == [config[0]] + FilterTemplatesFromConfig(rest);
      } else {
        assert FilterTemplatesFromConfig(config) == [] + rest == rest;
      }
    }
  }

  /** A filtered dict still has distinct keys. */
  lemma {:induction false} FilterTemplatesDistinct(config: Dict)
    requires DistinctKeys(config)
    ensures DistinctKeys(FilterTemplatesFromConfig(config))
  {
    if config != [] {
      var tail := config[1..];
      assert DistinctKeys(tail) by {
        forall a, b | 0 <= a < b < |tail| ensures tail[a].0 != tail[b].0 {
          assert tail[a] == config[a + 1] && tail[b] == config[b + 1];
        }
      }
      FilterTemplatesDistinct(tail);
      FilterTemplatesMembers(tail);
      var rest := FilterTemplatesFromConfig(tail);
      if !StartsWith(config[0].0, "_") {
        var r := [config[0]] + rest;
        forall j | 0 <= j < |rest| ensures rest[j].0 != config[0].0 {
          assert rest[j] in rest;
          var m :| 0 <= m < |tail| && tail[m] == rest[j];
          assert config[m + 1] == rest[j];
        }
        forall a, b | 0 <= a < b < |r| ensures r[a].0 != r[b].0 {
          assert r[b] == rest[b - 1];
          if a > 0 { assert r[a] == rest[a - 1]; }
        }
      }
    }
  }

  /** The keys of a filtered dict are the keys of the input that do not
      start with "_". */
  lemma FilterTemplatesKeys(config: Dict)
    ensures forall k :: k in Keys(FilterTemplatesFromConfig(config)) <==> k in Keys(config) && !StartsWith(k, "_")
  {
    var r := FilterTemplatesFromConfig(config);
    FilterTemplatesMembers(config);
    forall k ensures k in Keys(r) <==> k in Keys(config) && !StartsWith(k, "_") {
      InKeys(r, k);
      InKeys(config, k);
    }
  }

  /** The action names of one tron job: `list(job.get("actions", {}).keys())`.
      A job or an actions value that is not a dict has no `get`/`keys`. */
  function ActionNames(job: Value): (r: Result<seq<string>, Error>)
    ensures r.Ok? <==> job.Obj? && GetOr(job.entries, "actions", Obj([])).Obj?
    ensures r.Ok? ==> r.value == Keys(GetOr(job.entries, "actions", Obj([])).entries)
  {
    if !job.Obj? then Err(WrongShape("job"))
    else
      match GetOr(job.entries, "actions", Obj([]))
      case Obj(actions) => Ok(Keys(actions))
      case _ => Err(WrongShape("actions"))
  }

  /** The pairs one tron job contributes, in action order. */
  function ActionPairs(service: string, jobName: string, actions: seq<string>): (r: seq<ServiceInstance>)
    ensures |r| == |actions|
    ensures forall k :: 0 <= k < |actions| ==> r[k] == (service, jobName + "." + actions[k])
  {
    seq(|actions|, k requires 0 <= k < |actions| => (service, jobName + "." + actions[k]))
  }

  lemma ActionPairsSnoc(service: string, jobName: string, actions: seq<string>, k: nat)
    requires k < |actions|
    ensures ActionPairs(service, jobName, actions[..k + 1])
      == ActionPairs(service, jobName, actions[..k]) + [(service, jobName + "." + actions[k])]
  {
    var a := ActionPairs(service, jobName, actions[..k + 1]);
    var b := ActionPairs(service, jobName, actions[..k]) + [(service, jobName + "." + actions[k])];
    forall m | 0 <= m < |a| ensures a[m] == b[m] {
      assert actions[..k + 1][m] == actions[m];
      if m < k { assert actions[..k][m] == actions[m]; }
    }
  }

  /** The pairs of the tron jobs, job by job. */
  function TronInstanceNames(service: string, jobs: Dict): Result<seq<ServiceInstance>, Error>
  {
    if jobs == [] then Ok([])
    else TronStep(service, TronInstanceNames(service, jobs[..|jobs| - 1]), jobs[|jobs| - 1])
  }

  /** One round of the loop over the tron jobs. */
  function TronStep(service: string, pairs: Result<seq<ServiceInstance>, Error>, job: (string, Value))
    : Result<seq<ServiceInstance>, Error>
  {
    match pairs
    case Err(e) => Err(e)
    case Ok(p) =>
      match ActionNames(job.1)
      case Err(e) => Err(e)
      case Ok(names) => Ok(p + ActionPairs(service, job.0, names))
  }

  lemma TronSnoc(service: string, jobs: Dict, job: (string, Value))
    ensures TronInstanceNames(service, jobs + [job]) == TronStep(service, TronInstanceNames(service, jobs), job)
  {
    assert (jobs + [job])[..|jobs|] == jobs;
  }

  lemma TronStepAfter(service: string, earlier: seq<ServiceInstance>, pairs: seq<ServiceInstance>, job: (string, Value))
    requires TronStep(service, Ok(pairs), job).Ok?
    ensures TronStep(service, Ok(earlier + pairs), job) == Ok(earlier + TronStep(service, Ok(pairs), job).value)
  {
    var more := ActionPairs(service, job.0, ActionNames(job.1).value);
    assert earlier + pairs + more == earlier + (pairs + more);
  }

  /** The pairs of a non-tron config: one per key. */
  function KeyPairs(service: string, config: Dict): (r: seq<ServiceInstance>)
    ensures |r| == |config|
    ensures forall i :: 0 <= i < |config| ==> r[i] == (service, config[i].0)
  {
    seq(|config|, i requires 0 <= i < |config| => (service, config[i].0))
  }

  lemma KeyPairsSnoc(service: string, config: Dict, i: nat)
    requires i < |config|
    ensures KeyPairs(service, config[..i + 1]) == KeyPairs(service, config[..i]) + [(service, config[i].0)]
  {
    var a := KeyPairs(service, config[..i + 1]);
    var b := KeyPairs(service, config[..i]) + [(service, config[i].0)];
    forall m | 0 <= m < |a| ensures a[m] == b[m] {
      assert config[..i + 1][m] == config[m];
      if m < i { assert config[..i][m] == config[m]; }
    }
  }

  /** What read_service_instance_names returns for an already filtered config. */
  function InstanceNames(service: string, instanceType: string, config: Dict): Result<seq<ServiceInstance>, Error>
  {
    if instanceType == "tron" then TronInstanceNames(service, config) else Ok(KeyPairs(service, config))
  }

  /** The user config of one instance type, templates removed. */
  function UserConfigs(soa: SoaTree, service: string, instanceType: string, cluster: string): Dict
  {
    FilterTemplatesFromConfig(ReadExtraServiceInformation(soa, service, ConfFile(instanceType, cluster)))
  }

  /** Once a tron job is malformed, later jobs change nothing. */
  lemma {:induction false} TronErrorAbsorbs(service: string, jobs: Dict, more: Dict)
    requires TronInstanceNames(service, jobs).Err?
    ensures TronInstanceNames(service, jobs + more) == TronInstanceNames(service, jobs)
    decreases |more|
  {
    if more != [] {
      TronErrorAbsorbs(service, jobs, more[..|more| - 1]);
      assert (jobs + more)[..|jobs + more| - 1] == jobs + more[..|more| - 1];
    } else {
      assert jobs + more == jobs;
    }
  }

  /** Job-then-action order: the pairs of two runs of jobs are the pairs of
      the first run followed by those of the second. */
  lemma {:induction false} TronInstanceNamesAppend(service: string, a: Dict, b: Dict)
    requires TronInstanceNames(service, a + b).Ok?
    ensures TronInstanceNames(service, a).Ok? && TronInstanceNames(service, b).Ok?
    ensures TronInstanceNames(service, a + b).value
      == TronInstanceNames(service, a).value + TronInstanceNames(service, b).value
    decreases |b|
  {
    if b == [] {
      assert a + b == a;
    } else {
      var init := b[..|b| - 1];
      var last := b[|b| - 1];
      SnocSplit(a, b);
      TronSnoc(service, a + init, last);
      TronSnoc(service, init, last);
      TronInstanceNamesAppend(service, a, init);
      TronStepAfter(service, TronInstanceNames(service, a).value, TronInstanceNames(service, init).value, last);
    }
  }

  /** One job yields one pair per action, named `job.action`. */
  lemma OneTronJob(service: string, jobName: string, job: Value)
    ensures ActionNames(job).Err? ==> TronInstanceNames(service, [(jobName, job)]) == Err(ActionNames(job).error)
    ensures ActionNames(job).Ok? ==>
      TronInstanceNames(service, [(jobName, job)]) == Ok(ActionPairs(service, jobName, ActionNames(job).value))
  {
    var jobs := [(jobName, job)];
    assert jobs[..0] == [] && jobs[0] == (jobName, job);
    if ActionNames(job).Ok? {
      assert [] + ActionPairs(service, jobName, ActionNames(job).value) == ActionPairs(service, jobName, ActionNames(job).value);
    }
  }

  /** Every pair names the service that was asked for. */
  lemma {:induction false} InstanceNamesOfService(service: string, instanceType: string, config: Dict)
    requires InstanceNames(service, instanceType, config).Ok?
    ensures forall p :: p in InstanceNames(service, instanceType, config).value ==> p.0 == service
    decreases |config|
  {
    if instanceType == "tron" && config != [] {
      InstanceNamesOfService(service, instanceType, config[..|config| - 1]);
    }
  }

  /** read_service_instance_names: the loop appending to `instance_list`. */
  method ReadServiceInstanceNames(soa: SoaTree, service: string, instanceType: string, cluster: string)
    returns (r: Result<seq<ServiceInstance>, Error>)
    ensures r == InstanceNames(service, instanceType, UserConfigs(soa, service, instanceType, cluster))
  {
    var config := UserConfigs(soa, service, instanceType, cluster);
    r := CollectInstanceNames(service, instanceType, config);
  }

  /** The loops of read_service_instance_names over the filtered config. */
  method CollectInstanceNames(service: string, instanceType: string, config: Dict)
    returns (r: Result<seq<ServiceInstance>, Error>)
    ensures r == InstanceNames(service, instanceType, config)
  {
    var instanceList: seq<ServiceInstance> := [];
    if instanceType == "tron" {
      for i := 0 to |config|
        invariant TronInstanceNames(service, config[..i]) == Ok(instanceList)
      {
        var jobName := config[i].0;
        var job := config[i].1;
        PrefixSnoc(config, i);
        TronSnoc(service, config[..i], config[i]);
        var actions := ActionNames(job);
        if actions.Err? {
          TronErrorAbsorbs(service, config[..i + 1], config[i + 1..]);
          PrefixAndRest(config, i + 1);
          return Err(actions.error);
        }
        var actionNames := actions.value;
        ghost var before := instanceList;
        var k := 0;
        while k < |actionNames|
          invariant 0 <= k <= |actionNames|
          invariant instanceList == before + ActionPairs(service, jobName, actionNames[..k])
        {
          ActionPairsSnoc(service, jobName, actionNames, k);
          instanceList := instanceList + [(service, jobName + "." + actionNames[k])];
          k := k + 1;
        }
        TakeAll(actionNames);
      }
      TakeAll(config);
    } else {
      for i := 0 to |config|
        invariant instanceList == KeyPairs(service, config[..i])
      {
        KeyPairsSnoc(service, config, i);
        instanceList := instanceList + [(service, config[i].0)];
      }
      TakeAll(config);
    }
    r := Ok(instanceList);
  }

  /** The instance types get_service_instance_list_no_cache scans. */
  function SelectedTypes(ext: Externals, instanceType: Option<string>): (r: seq<string>)
    ensures instanceType.Some? && instanceType.value in ext.instanceTypes ==> r == [instanceType.value]
    ensures !(instanceType.Some? && instanceType.value in ext.instanceTypes) ==> r == ext.instanceTypes
  {
    if instanceType.Some? && instanceType.value in ext.instanceTypes then [instanceType.value] else ext.instanceTypes
  }

  /** `if not cluster: cluster = load_system_paasta_config().get_cluster()`. */
  function EffectiveCluster(env: Env, cluster: Option<string>): (r: Result<string, Error>)
    ensures cluster.Some? && cluster.value != "" ==> r == Ok(cluster.value)
    ensures (cluster.None? || cluster.value == "") ==>
      (env.system.Err? ==> r == Err(env.system.error))
      && (env.system.Ok? ==> r == match GetCluster(env.system.value)
                                  case Ok(c) => Ok(Show(c))
                                  case Err(e) => Err(e))
  {
    if cluster.Some? && cluster.value != "" then Ok(cluster.value)
    else
      match env.system
      case Err(e) => Err(e)
      case Ok(sc) =>
        match GetCluster(sc)
        case Err(e) => Err(e)
        case Ok(c) => Ok(Show(c))
  }

  /** What read_service_instance_names returns for one instance type. */
  function TypeNames(soa: SoaTree, service: string, cluster: string, t: string): Result<seq<ServiceInstance>, Error>
  {
    InstanceNames(service, t, UserConfigs(soa, service, t, cluster))
  }

  /** The instance lists of the given types, concatenated in that order. */
  function ScanTypes(soa: SoaTree, service: string, cluster: string, types: seq<string>)
    : Result<seq<ServiceInstance>, Error>
  {
    if types == [] then Ok([])
    else ScanStep(ScanTypes(soa, service, cluster, types[..|types| - 1]), TypeNames(soa, service, cluster, types[|types| - 1]))
  }

  /** One round of the loop over the instance types. */
  function ScanStep(pairs: Result<seq<ServiceInstance>, Error>, more: Result<seq<ServiceInstance>, Error>)
    : Result<seq<ServiceInstance>, Error>
  {
    match pairs
    case Err(e) => Err(e)
    case Ok(p) =>
      match more
      case Err(e) => Err(e)
      case Ok(m) => Ok(p + m)
  }

  lemma ScanSnoc(soa: SoaTree, service: string, cluster: string, types: seq<string>, t: string)
    ensures ScanTypes(soa, service, cluster, types + [t])
      == ScanStep(ScanTypes(soa, service, cluster, types), TypeNames(soa, service, cluster, t))
  {
    assert (types + [t])[..|types|] == types;
  }

  /** What get_service_instance_list_no_cache (and so the cached
      get_service_instance_list) returns. */
  function ServiceInstanceList(env: Env, service: string, cluster: Option<string>, instanceType: Option<string>)
    : Result<seq<ServiceInstance>, Error>
  {
    match EffectiveCluster(env, cluster)
    case Err(e) => Err(e)
    case Ok(c) => ScanTypes(env.soa, service, c, SelectedTypes(env.ext, instanceType))
  }

  lemma {:induction false} ScanErrorAbsorbs(soa: SoaTree, service: string, cluster: string, types: seq<string>, more: seq<string>)
    requires ScanTypes(soa, service, cluster, types).Err?
    ensures ScanTypes(soa, service, cluster, types + more) == ScanTypes(soa, service, cluster, types)
    decreases |more|
  {
    if more != [] {
      ScanErrorAbsorbs(soa, service, cluster, types, more[..|more| - 1]);
      SnocSplit(types, more);
      ScanSnoc(soa, service, cluster, types + more[..|more| - 1], more[|more| - 1]);
    } else {
      assert types + more == types;
    }
  }

  /** Scanning one type gives that type's instance list. */
  lemma ScanOneType(soa: SoaTree, service: string, cluster: string, t: string)
    ensures ScanTypes(soa, service, cluster, [t]) == TypeNames(soa, service, cluster, t)
  {
    ScanSnoc(soa, service, cluster, [], t);
    assert [] + [t] == [t];
    var names := TypeNames(soa, service, cluster, t);
    if names.Ok? {
      assert [] + names.value == names.value;
    }
  }

  /** A successful scan read every scanned type successfully. */
  lemma {:induction false} ScanTypesAllRead(soa: SoaTree, service: string, cluster: string, types: seq<string>)
    requires ScanTypes(soa, service, cluster, types).Ok?
    ensures forall k :: 0 <= k < |types| ==> TypeNames(soa, service, cluster, types[k]).Ok?
  {
    if types != [] {
      var init := types[..|types| - 1];
      ScanSnoc(soa, service, cluster, init, types[|types| - 1]);
      SnocSplit([], types);
      ScanTypesAllRead(soa, service, cluster, init);
      assert forall k :: 0 <= k < |init| ==> types[k] == init[k];
    }
  }

  /** A pair is in a successful scan exactly when one of the scanned types
      lists it. */
  lemma {:induction false} ScanTypesMembers(soa: SoaTree, service: string, cluster: string, types: seq<string>)
    requires ScanTypes(soa, service, cluster, types).Ok?
    ensures forall p :: p in ScanTypes(soa, service, cluster, types).value <==>
      exists k :: 0 <= k < |types| && TypeNames(soa, service, cluster, types[k]).Ok?
        && p in TypeNames(soa, service, cluster, types[k]).value
  {
    if types != [] {
      var init := types[..|types| - 1];
      var t := types[|types| - 1];
      SnocSplit([], types);
      ScanSnoc(soa, service, cluster, init, t);
      ScanTypesMembers(soa, service, cluster, init);
      var before := ScanTypes(soa, service, cluster, init).value;
      var last := TypeNames(soa, service, cluster, t).value;
      assert ScanTypes(soa, service, cluster, types).value == before + last;
      forall p ensures p in before + last <==>
        exists k :: 0 <= k < |types| && TypeNames(soa, service, cluster, types[k]).Ok?
          && p in TypeNames(soa, service, cluster, types[k]).value
      {
        if p in before {
          var k :| 0 <= k < |init| && TypeNames(soa, service, cluster, init[k]).Ok?
            && p in TypeNames(soa, service, cluster, init[k]).value;
          assert types[k] == init[k];
        } else if p in last {
          assert p in TypeNames(soa, service, cluster, types[|types| - 1]).value;
        } else {
          forall k | 0 <= k < |types| && TypeNames(soa, service, cluster, types[k]).Ok?
            ensures p !in TypeNames(soa, service, cluster, types[k]).value
          {
            if k < |init| { assert types[k] == init[k]; }
          }
        }
      }
    }
  }

  /** get_service_instance_list_no_cache: the loop extending `instance_list`. */
  method GetServiceInstanceListNoCache(env: Env, service: string, cluster: Option<string>, instanceType: Option<string>)
    returns (r: Result<seq<ServiceInstance>, Error>)
    ensures r == ServiceInstanceList(env, service, cluster, instanceType)
  {
    var c := EffectiveCluster(env, cluster);
    if c.Err? {
      return Err(c.error);
    }
    var types := SelectedTypes(env.ext, instanceType);
    var instanceList: seq<ServiceInstance> := [];
    for i := 0 to |types|
      invariant ScanTypes(env.soa, service, c.value, types[..i]) == Ok(instanceList)
    {
      PrefixSnoc(types, i);
      ScanSnoc(env.soa, service, c.value, types[..i], types[i]);
      var names := ReadServiceInstanceNames(env.soa, service, types[i], c.value);
      if names.Err? {
        ScanErrorAbsorbs(env.soa, service, c.value, types[..i + 1], types[i + 1..]);
        PrefixAndRest(types, i + 1);
        return Err(names.error);
      }
      instanceList := instanceList + names.value;
    }
    TakeAll(types);
    r := Ok(instanceList);
  }

  /** suggest_possibilities with its default of three suggestions. */
  function SuggestPossibilities(ext: Externals, word: string, possibilities: seq<string>): (r: string)
    ensures var s := ext.closeMatches(word, set p | p in possibilities, 3);
      (r == "" <==> |s| == 0)
      && (|s| == 1 ==> r == "\nDid you mean: " + s[0] + "?")
      && (|s| >= 2 ==> r == "\nDid you mean one of: " + Join(", ", s) + "?")
  {
    var suggestions := ext.closeMatches(word, set p | p in possibilities, 3);
    if |suggestions| == 1 then "\nDid you mean: " + suggestions[0] + "?"
    else if |suggestions| >= 1 then "\nDid you mean one of: " + Join(", ", suggestions) + "?"
    else ""
  }

  /** The instance names of a list of pairs. */
  function InstancesOf(sis: seq<ServiceInstance>): (r: seq<string>)
    ensures |r| == |sis|
    ensures forall k :: 0 <= k < |sis| ==> r[k] == sis[k].1
  {
    seq(|sis|, k requires 0 <= k < |sis| => sis[k].1)
  }

  /** The instance list of one instance type, as validate_service_instance
      asks for it. */
  function TypeList(env: Env, service: string, cluster: string, t: string): Result<seq<ServiceInstance>, Error>
  {
    ServiceInstanceList(env, service, Some(cluster), Some(t))
  }

  /** The NoConfigurationForServiceError message. */
  function NotConfiguredHere(env: Env, service: string, instance: string, cluster: string, possibilities: seq<string>): string
  {
    "Error: " + env.ext.composeJobId(service, instance)
    + " doesn't look like it has been configured to run on the " + cluster + " cluster."
    + SuggestPossibilities(env.ext, instance, possibilities)
  }

  /** The search of validate_service_instance from type `i` on, with the
      instance names of the types before `i` collected in `possibilities`. */
  function OwnerSearch(env: Env, service: string, instance: string, cluster: string, i: nat, possibilities: seq<string>)
    : Result<string, Error>
    requires i <= |env.ext.instanceTypes|
    decreases |env.ext.instanceTypes| - i
  {
    if i == |env.ext.instanceTypes| then
      Err(NoConfigurationForService(NotConfiguredHere(env, service, instance, cluster, possibilities)))
    else
      match TypeList(env, service, cluster, env.ext.instanceTypes[i])
      case Err(e) => Err(e)
      case Ok(sis) =>
        if (service, instance) in sis then Ok(env.ext.instanceTypes[i])
        else OwnerSearch(env, service, instance, cluster, i + 1, possibilities + InstancesOf(sis))
  }

  /** validate_service_instance: the for/else over INSTANCE_TYPES. */
  method ValidateServiceInstance(env: Env, service: string, instance: string, cluster: string)
    returns (r: Result<string, Error>)
    ensures r == OwnerSearch(env, service, instance, cluster, 0, [])
  {
    var types := env.ext.instanceTypes;
    var possibilities: seq<string> := [];
    for i := 0 to |types|
      invariant OwnerSearch(env, service, instance, cluster, 0, []) == OwnerSearch(env, service, instance, cluster, i, possibilities)
    {
      var sis := GetServiceInstanceListNoCache(env, service, Some(cluster), Some(types[i]));
      if sis.Err? {
        return Err(sis.error);
      }
      if (service, instance) in sis.value {
        return Ok(types[i]);
      }
      possibilities := possibilities + InstancesOf(sis.value);
    }
    r := Err(NoConfigurationForService(NotConfiguredHere(env, service, instance, cluster, possibilities)));
  }

  /** Type `k` lists the pair. */
  predicate Owns(env: Env, service: string, instance: string, cluster: string, k: nat)
    requires k < |env.ext.instanceTypes|
  {
    var l := TypeList(env, service, cluster, env.ext.instanceTypes[k]);
    l.Ok? && (service, instance) in l.value
  }

  /** A type that lists its instances but not the pair passes the search on. */
  lemma OwnerSearchSkips(env: Env, service: string, instance: string, cluster: string, i: nat, possibilities: seq<string>)
    requires i < |env.ext.instanceTypes|
    requires TypeList(env, service, cluster, env.ext.instanceTypes[i]).Ok?
    requires !Owns(env, service, instance, cluster, i)
    ensures OwnerSearch(env, service, instance, cluster, i, possibilities)
      == OwnerSearch(env, service, instance, cluster, i + 1,
           possibilities + InstancesOf(TypeList(env, service, cluster, env.ext.instanceTypes[i]).value))
  {
  }

  /** Types `i` to `k` (exclusive) list their instances without the pair. */
  predicate NoneOwnBetween(env: Env, service: string, instance: string, cluster: string, i: nat, k: nat)
    requires k <= |env.ext.instanceTypes|
  {
    forall j :: i <= j < k ==>
      TypeList(env, service, cluster, env.ext.instanceTypes[j]).Ok? && !Owns(env, service, instance, cluster, j)
  }

  /** A type found by the search is the first type that lists the pair. */
  lemma {:induction false} OwnerIsFirst(env: Env, service: string, instance: string, cluster: string, i: nat, possibilities: seq<string>)
    requires i <= |env.ext.instanceTypes|
    requires OwnerSearch(env, service, instance, cluster, i, possibilities).Ok?
    ensures exists k ::
      i <= k < |env.ext.instanceTypes|
      && env.ext.instanceTypes[k] == OwnerSearch(env, service, instance, cluster, i, possibilities).value
      && Owns(env, service, instance, cluster, k)
      && NoneOwnBetween(env, service, instance, cluster, i, k)
    decreases |env.ext.instanceTypes| - i
  {
    assert i < |env.ext.instanceTypes|;
    var l := TypeList(env, service, cluster, env.ext.instanceTypes[i]);
    assert l.Ok?;
    if Owns(env, service, instance, cluster, i) {
      assert NoneOwnBetween(env, service, instance, cluster, i, i);
    } else {
      var next := possibilities + InstancesOf(l.value);
      OwnerSearchSkips(env, service, instance, cluster, i, possibilities);
      OwnerIsFirst(env, service, instance, cluster, i + 1, next);
      var k :| i + 1 <= k < |env.ext.instanceTypes|
        && env.ext.instanceTypes[k] == OwnerSearch(env, service, instance, cluster, i + 1, next).value
        && Owns(env, service, instance, cluster, k)
        && NoneOwnBetween(env, service, instance, cluster, i + 1, k);
      assert NoneOwnBetween(env, service, instance, cluster, i, k);
    }
  }

  /** The first type that lists the pair, after types that list their
      instances without it, is the type the search returns. */
  lemma {:induction false} OwnerFound(env: Env, service: string, instance: string, cluster: string, i: nat, k: nat, possibilities: seq<string>)
    requires i <= k < |env.ext.instanceTypes|
    requires Owns(env, service, instance, cluster, k)
    requires NoneOwnBetween(env, service, instance, cluster, i, k)
    ensures OwnerSearch(env, service, instance, cluster, i, possibilities) == Ok(env.ext.instanceTypes[k])
    decreases k - i
  {
    if i == k {
      OwnerSearchHit(env, service, instance, cluster, i, possibilities);
    } else {
      var l := TypeList(env, service, cluster, env.ext.instanceTypes[i]);
      NoneOwnBetweenStep(env, service, instance, cluster, i, k);
      OwnerSearchSkips(env, service, instance, cluster, i, possibilities);
      OwnerFound(env, service, instance, cluster, i + 1, k, possibilities + InstancesOf(l.value));
    }
  }

  lemma OwnerSearchHit(env: Env, service: string, instance: string, cluster: string, i: nat, possibilities: seq<string>)
    requires i < |env.ext.instanceTypes|
    requires Owns(env, service, instance, cluster, i)
    ensures OwnerSearch(env, service, instance, cluster, i, possibilities) == Ok(env.ext.instanceTypes[i])
  {
  }

  lemma NoneOwnBetweenStep(env: Env, service: string, instance: string, cluster: string, i: nat, k: nat)
    requires i < k <= |env.ext.instanceTypes|
    requires NoneOwnBetween(env, service, instance, cluster, i, k)
    ensures TypeList(env, service, cluster, env.ext.instanceTypes[i]).Ok? && !Owns(env, service, instance, cluster, i)
    ensures NoneOwnBetween(env, service, instance, cluster, i + 1, k)
  {
  }

  /** The instance names of the types from `i` on, in order. */
  function NamesFrom(env: Env, service: string, cluster: string, i: nat): seq<string>
    requires i <= |env.ext.instanceTypes|
    decreases |env.ext.instanceTypes| - i
  {
    if i == |env.ext.instanceTypes| then []
    else
      var l := TypeList(env, service, cluster, env.ext.instanceTypes[i]);
      (if l.Ok? then InstancesOf(l.value) else []) + NamesFrom(env, service, cluster, i + 1)
  }

  lemma NamesFromStep(env: Env, service: string, cluster: string, i: nat)
    requires i < |env.ext.instanceTypes|
    requires TypeList(env, service, cluster, env.ext.instanceTypes[i]).Ok?
    ensures NamesFrom(env, service, cluster, i)
      == InstancesOf(TypeList(env, service, cluster, env.ext.instanceTypes[i]).value) + NamesFrom(env, service, cluster, i + 1)
  {
  }

  /** When every type lists its instances and none lists the pair, the error
      suggests among the instance names of all types. */
  lemma {:induction false} NoOwner(env: Env, service: string, instance: string, cluster: string, i: nat, possibilities: seq<string>)
    requires i <= |env.ext.instanceTypes|
    requires NoneOwnBetween(env, service, instance, cluster, i, |env.ext.instanceTypes|)
    ensures OwnerSearch(env, service, instance, cluster, i, possibilities) ==
      Err(NoConfigurationForService(NotConfiguredHere(env, service, instance, cluster,
        possibilities + NamesFrom(env, service, cluster, i))))
    decreases |env.ext.instanceTypes| - i
  {
    if i == |env.ext.instanceTypes| {
      assert possibilities + [] == possibilities;
    } else {
      NoneOwnBetweenStep(env, service, instance, cluster, i, |env.ext.instanceTypes|);
      var sis := TypeList(env, service, cluster, env.ext.instanceTypes[i]).value;
      var rest := NamesFrom(env, service, cluster, i + 1);
      NamesFromStep(env, service, cluster, i);
      OwnerSearchSkips(env, service, instance, cluster, i, possibilities);
      NoOwner(env, service, instance, cluster, i + 1, possibilities + InstancesOf(sis));
      assert possibilities + InstancesOf(sis) + rest == possibilities + (InstancesOf(sis) + rest);
    }
  }
}
