/** An instance's configuration (`InstanceConfig`): the interpolation done
    on construction, the getters the checks rely on, the `check_*` methods,
    their dispatch and `validate`. */
module InstanceConfigs {
  import opened Results
  import opened PyStrings
  import opened Values
  import opened Collaborators
  import opened Naming
  import opened Pipeline
  import opened Seqs

  datatype InstanceConfig = InstanceConfig(
    cluster: string,
    instance: string,
    service: string,
    configDict: Dict,
    branchDict: Option<Dict>,
    soaDir: string)

  /** The keys of `config_dict` whose string values are `str.format`ted. */
  const InterpolationKeys: seq<string> := ["deploy_group"]

  /** The names a formatted value may refer to. */
  function InterpolationFacts(cluster: string, instance: string, service: string): map<string, string>
  {
    map["cluster" := cluster, "instance" := instance, "service" := service]
  }

  /** One round of the constructor's loop: a present, non-`None` value is
      formatted (only a string has `format`) and stored back under its key. */
  function InterpolateKey(ext: Externals, facts: map<string, string>, d: Dict, key: string): Result<Dict, Error>
  {
    match Get(d, key)
    case None => Ok(d)
    case Some(Null) => Ok(d)
    case Some(Str(template)) =>
      (match ext.format(template, facts)
       case None => Err(FormatFailed(template))
       case Some(s) => Ok(Put(d, key, Str(s))))
    case Some(_) => Err(WrongShape(key))
  }

  /** The configuration after interpolating `keys` in order; the first
      failure is raised. */
  function Interpolated(ext: Externals, facts: map<string, string>, d: Dict, keys: seq<string>): Result<Dict, Error>
    decreases |keys|
  {
    if keys == [] then Ok(d)
    else
      match Interpolated(ext, facts, d, keys[..|keys| - 1])
      case Err(e) => Err(e)
      case Ok(d') => InterpolateKey(ext, facts, d', keys[|keys| - 1])
  }

  lemma {:induction false} InterpolatedErrorAbsorbs(ext: Externals, facts: map<string, string>, d: Dict, keys: seq<string>, n: nat)
    requires n <= |keys|
    requires Interpolated(ext, facts, d, keys[..n]).Err?
    ensures Interpolated(ext, facts, d, keys) == Interpolated(ext, facts, d, keys[..n])
    decreases |keys| - n
  {
    if n == |keys| {
      assert keys[..n] == keys;
    } else {
      assert keys[..n + 1][..n] == keys[..n];
      InterpolatedErrorAbsorbs(ext, facts, d, keys, n + 1);
    }
  }

  /** `InstanceConfig.__init__`: stores its arguments and interpolates
      `deploy_group` with the cluster, instance and service. */
  method NewInstanceConfig(
    ext: Externals, cluster: string, instance: string, service: string,
    configDict: Dict, branchDict: Option<Dict>, soaDir: string)
    returns (r: Result<InstanceConfig, Error>)
    ensures r.Ok? ==>
      r.value.cluster == cluster && r.value.instance == instance && r.value.service == service
      && r.value.branchDict == branchDict && r.value.soaDir == soaDir
      && Interpolated(ext, InterpolationFacts(cluster, instance, service), configDict, InterpolationKeys)
         == Ok(r.value.configDict)
    ensures r.Err? ==>
      Interpolated(ext, InterpolationFacts(cluster, instance, service), configDict, InterpolationKeys)
      == Err(r.error)
  {
    var facts := InterpolationFacts(cluster, instance, service);
    var config := configDict;
    for i := 0 to |InterpolationKeys|
      invariant Interpolated(ext, facts, configDict, InterpolationKeys[..i]) == Ok(config)
    {
      var key := InterpolationKeys[i];
      assert InterpolationKeys[..i + 1][..i] == InterpolationKeys[..i];
      var current := Get(config, key);
      if current.Some? && current.value != Null {
        if !current.value.Str? {
          InterpolatedErrorAbsorbs(ext, facts, configDict, InterpolationKeys, i + 1);
          return Err(WrongShape(key));
        }
        var formatted := ext.format(current.value.s, facts);
        if formatted.None? {
          InterpolatedErrorAbsorbs(ext, facts, configDict, InterpolationKeys, i + 1);
          return Err(FormatFailed(current.value.s));
        }
        config := Put(config, key, Str(formatted.value));
      }
    }
    assert InterpolationKeys[..|InterpolationKeys|] == InterpolationKeys;
    return Ok(InstanceConfig(cluster, instance, service, config, branchDict, soaDir));
  }

  /** Interpolation leaves an absent or `None` deploy group alone, replaces a
      string one by its formatting, fails on any other value, and changes no
      other key. */
  lemma InterpolationSpec(ext: Externals, facts: map<string, string>, d: Dict)
    ensures var r := Interpolated(ext, facts, d, InterpolationKeys);
      (Get(d, "deploy_group").None? || Get(d, "deploy_group") == Some(Null)) ==> r == Ok(d)
    ensures var r := Interpolated(ext, facts, d, InterpolationKeys);
      forall t :: Get(d, "deploy_group") == Some(Str(t)) ==>
        (ext.format(t, facts).None? ==> r == Err(FormatFailed(t)))
        && (ext.format(t, facts).Some? ==> r.Ok? && Get(r.value, "deploy_group") == Some(Str(ext.format(t, facts).value)))
    ensures var r := Interpolated(ext, facts, d, InterpolationKeys);
      (Get(d, "deploy_group").Some? && !Get(d, "deploy_group").value.Null? && !Get(d, "deploy_group").value.Str?)
      ==> r == Err(WrongShape("deploy_group"))
    ensures var r := Interpolated(ext, facts, d, InterpolationKeys);
      r.Ok? ==> Keys(r.value) == Keys(d) && forall k :: k != "deploy_group" ==> Get(r.value, k) == Get(d, k)
  {
    assert InterpolationKeys[..0] == [];
    var r := Interpolated(ext, facts, d, InterpolationKeys);
    match Get(d, "deploy_group")
    case Some(Str(t)) =>
      if ext.format(t, facts).Some? {
        var s := ext.format(t, facts).value;
        assert r == Ok(Put(d, "deploy_group", Str(s)));
        forall k ensures Get(r.value, k) == if k == "deploy_group" then Some(Str(s)) else Get(d, k) {
          PutGet(d, "deploy_group", Str(s), k);
        }
      }
    case _ =>
  }

  /** get_branch */
  function GetBranch(ext: Externals, ic: InstanceConfig): string
  {
    GetPaastaBranch(ext.spacer, ic.cluster, ic.instance)
  }

  /** get_deploy_group: the configured `deploy_group`, else the branch. */
  function GetDeployGroup(ext: Externals, ic: InstanceConfig): (r: Value)
    ensures "deploy_group" !in Keys(ic.configDict) ==> r == Str(ic.cluster + ext.spacer + ic.instance)
    ensures "deploy_group" in Keys(ic.configDict) ==> Get(ic.configDict, "deploy_group") == Some(r)
  {
    GetOr(ic.configDict, "deploy_group", Str(GetBranch(ext, ic)))
  }

  /** get_container_type: "MESOS" when gpus are configured (not `None`),
      "DOCKER" otherwise. */
  function GetContainerType(ic: InstanceConfig): (r: string)
    ensures r == "MESOS" || r == "DOCKER"
    ensures r == "MESOS" <==>
      Get(ic.configDict, "gpus").Some? && Get(ic.configDict, "gpus").value != Null
  {
    if GetOr(ic.configDict, "gpus", Null) != Null then "MESOS" else "DOCKER"
  }

  const CmdAndArgsMessage: string := "Instance configuration can specify cmd or args, but not both."

  /** get_args: `args` (default `[]`) when there is no `cmd`; with a `cmd`,
      `None` unless `args` is also given, which is an error. */
  function GetArgs(ic: InstanceConfig): (r: Result<Value, Error>)
    ensures r.Err? <==> GetOr(ic.configDict, "cmd", Null) != Null && GetOr(ic.configDict, "args", Null) != Null
    ensures r.Err? ==> r.error == InvalidInstanceConfig(CmdAndArgsMessage)
    ensures GetOr(ic.configDict, "cmd", Null) == Null ==>
      r == Ok(if "args" in Keys(ic.configDict) then Get(ic.configDict, "args").value else List([]))
    ensures GetOr(ic.configDict, "cmd", Null) != Null && r.Ok? ==> r == Ok(Null)
  {
    if GetOr(ic.configDict, "cmd", Null) == Null then Ok(GetOr(ic.configDict, "args", List([])))
    else
      var args := GetOr(ic.configDict, "args", Null);
      if args == Null then Ok(args) else Err(InvalidInstanceConfig(CmdAndArgsMessage))
  }

  /** The `(bool, str)` a `check_*` method returns. */
  datatype CheckResult = Pass | Fail(message: string)

  function NotANumberMessage(key: string, v: Value): string
  {
    "The specified " + key + " value \"" + Show(v) + "\" is not a valid float or int."
  }

  /** The shared shape of check_cpus, check_mem and check_disk: the value
      (with its getter's default) passes when it is `None`, an int (a bool
      is one) or a float. */
  function CheckNumber(d: Dict, key: string, default: Value): (r: CheckResult)
    requires IsNumber(default)
    ensures key !in Keys(d) ==> r == Pass
    ensures key in Keys(d) ==>
      (r.Fail? <==> Get(d, key).value != Null && !IsNumber(Get(d, key).value))
    ensures r.Fail? ==> r.message == NotANumberMessage(key, Get(d, key).value)
  {
    var v := GetOr(d, key, default);
    if v != Null && !IsNumber(v) then Fail(NotANumberMessage(key, v)) else Pass
  }

  /** check_cpus (get_cpus defaults to 1) */
  function CheckCpus(ic: InstanceConfig): CheckResult
  {
    CheckNumber(ic.configDict, "cpus", Int(1))
  }

  /** check_mem (get_mem defaults to 4096) */
  function CheckMem(ic: InstanceConfig): CheckResult
  {
    CheckNumber(ic.configDict, "mem", Int(4096))
  }

  /** check_disk (get_disk defaults to 1024) */
  function CheckDisk(ic: InstanceConfig): CheckResult
  {
    CheckNumber(ic.configDict, "disk", Int(1024))
  }

  predicate InboundValid(v: Value)
  {
    v == Null || v == Str("allow") || v == Str("reject")
  }

  predicate OutboundValid(v: Value)
  {
    v == Null || v == Str("block") || v == Str("monitor")
  }

  predicate IsFirewallKey(k: string)
  {
    k == "inbound_firewall" || k == "outbound_firewall"
  }

  /** `set(security.keys()) - {"inbound_firewall", "outbound_firewall"}`,
      in dict order. */
  function UnknownSecurityKeys(keys: seq<string>): (r: seq<string>)
    ensures forall k :: k in r <==> k in keys && !IsFirewallKey(k)
  {
    if keys == [] then []
    else (if IsFirewallKey(keys[0]) then [] else [keys[0]]) + UnknownSecurityKeys(keys[1..])
  }

  /** check_security */
  function CheckSecurity(ic: InstanceConfig): (r: Result<CheckResult, Error>)
    ensures GetOr(ic.configDict, "security", Null) == Null ==> r == Ok(Pass)
    ensures r.Err? <==> GetOr(ic.configDict, "security", Null) != Null && !GetOr(ic.configDict, "security", Null).Obj?
    ensures GetOr(ic.configDict, "security", Null).Obj? ==>
      var security := GetOr(ic.configDict, "security", Null).entries;
      var inbound := GetOr(security, "inbound_firewall", Null);
      var outbound := GetOr(security, "outbound_firewall", Null);
      (inbound == Null && outbound == Null ==> r == Ok(Pass))
      && (r == Ok(Pass) <==>
            (inbound == Null && outbound == Null)
            || (InboundValid(inbound) && OutboundValid(outbound)
                && forall k :: k in Keys(security) ==> IsFirewallKey(k)))
      && (inbound != Null && !InboundValid(inbound) ==>
            r == Ok(Fail("Unrecognized inbound_firewall value \"" + Show(inbound) + "\"")))
      && (InboundValid(inbound) && !OutboundValid(outbound) ==>
            r == Ok(Fail("Unrecognized outbound_firewall value \"" + Show(outbound) + "\"")))
  {
    var security := GetOr(ic.configDict, "security", Null);
    if security == Null then Ok(Pass)
    else if !security.Obj? then Err(WrongShape("security"))
    else
      var inbound := GetOr(security.entries, "inbound_firewall", Null);
      var outbound := GetOr(security.entries, "outbound_firewall", Null);
      if inbound == Null && outbound == Null then Ok(Pass)
      else if !InboundValid(inbound) then
        Ok(Fail("Unrecognized inbound_firewall value \"" + Show(inbound) + "\""))
      else if !OutboundValid(outbound) then
        Ok(Fail("Unrecognized outbound_firewall value \"" + Show(outbound) + "\""))
      else
        var unknown := UnknownSecurityKeys(Keys(security.entries));
        assert unknown == [] <==> forall k :: k in Keys(security.entries) ==> IsFirewallKey(k) by {
          if unknown != [] {
            assert unknown[0] in unknown;
          }
        }
        if unknown != [] then
          Ok(Fail("Unrecognized items in security dict of service config: \"" + Join(",", unknown) + "\""))
        else Ok(Pass)
  }

  /** `reference in dependencies`: key membership in a dict, element
      membership in a list, a substring of a string.  Looking up a list or
      dict in a dict, a non-string in a string, or anything in a scalar
      raises a TypeError. */
  function Membership(reference: Value, dependencies: Value): (r: Result<bool, Error>)
    ensures dependencies.Obj? && reference.Str? ==> r == Ok(reference.s in Keys(dependencies.entries))
    ensures dependencies.List? ==> r == Ok(reference in dependencies.items)
    ensures dependencies.Str? && reference.Str? ==> r == Ok(Contains(dependencies.s, reference.s))
    ensures !(dependencies.Obj? || dependencies.List? || dependencies.Str?) ==> r.Err?
  {
    match dependencies
    case Obj(entries) =>
      if reference.Str? then Ok(reference.s in Keys(entries))
      else if reference.List? || reference.Obj? then Err(WrongShape("dependencies_reference"))
      else Ok(false)
    case List(items) => Ok(reference in items)
    case Str(s) =>
      if reference.Str? then Ok(Contains(s, reference.s)) else Err(WrongShape("dependencies_reference"))
    case _ => Err(WrongShape("dependencies"))
  }

  function NoDependenciesMessage(reference: Value): string
  {
    "dependencies_reference \"" + Show(reference) + "\" declared but no dependencies found"
  }

  function ReferenceNotFoundMessage(reference: Value): string
  {
    "dependencies_reference \"" + Show(reference) + "\" not found in dependencies dictionary"
  }

  /** check_dependencies_reference */
  function CheckDependenciesReference(ic: InstanceConfig): (r: Result<CheckResult, Error>)
    ensures var reference := GetOr(ic.configDict, "dependencies_reference", Null);
      reference == Null ==> r == Ok(Pass)
    ensures var reference := GetOr(ic.configDict, "dependencies_reference", Null);
      var dependencies := GetOr(ic.configDict, "dependencies", Null);
      reference != Null && dependencies == Null ==> r == Ok(Fail(NoDependenciesMessage(reference)))
    ensures var reference := GetOr(ic.configDict, "dependencies_reference", Null);
      var dependencies := GetOr(ic.configDict, "dependencies", Null);
      reference != Null && dependencies != Null ==>
        (r.Err? <==> Membership(reference, dependencies).Err?)
        && (r == Ok(Pass) <==> Membership(reference, dependencies) == Ok(true))
        && (Membership(reference, dependencies) == Ok(false) ==> r == Ok(Fail(ReferenceNotFoundMessage(reference))))
  {
    var reference := GetOr(ic.configDict, "dependencies_reference", Null);
    if reference == Null then Ok(Pass)
    else
      var dependencies := GetOr(ic.configDict, "dependencies", Null);
      if dependencies == Null then Ok(Fail(NoDependenciesMessage(reference)))
      else
        match Membership(reference, dependencies)
        case Err(e) => Err(e)
        case Ok(found) => if found then Ok(Pass) else Ok(Fail(ReferenceNotFoundMessage(reference)))
  }

  function UnknownDeployGroupMessage(ext: Externals, ic: InstanceConfig): string
  {
    ic.service + "." + ic.instance + " uses deploy_group " + Show(GetDeployGroup(ext, ic))
    + ", but it is not deploy.yaml"
  }

  /** check_deploy_group: the effective deploy group must be one of the
      deploy groups of the service's pipeline (`serviceConfiguration` is
      what read_service_configuration returns for the service). */
  function CheckDeployGroup(ext: Externals, ic: InstanceConfig, serviceConfiguration: Dict): (r: Result<CheckResult, Error>)
    ensures GetDeployGroup(ext, ic) == Null ==> r == Ok(Pass)
    ensures GetDeployGroup(ext, ic) != Null ==>
      (r.Err? <==> GetPipelineDeployGroups(ext, serviceConfiguration).Err?)
    ensures r.Ok? && r.value.Fail? ==> r.value == Fail(UnknownDeployGroupMessage(ext, ic))
  {
    var deployGroup := GetDeployGroup(ext, ic);
    if deployGroup == Null then Ok(Pass)
    else
      match GetPipelineDeployGroups(ext, serviceConfiguration)
      case Err(e) => Err(e)
      case Ok(groups) =>
        if deployGroup.Str? && deployGroup.s in groups then Ok(Pass)
        else Ok(Fail(UnknownDeployGroupMessage(ext, ic)))
  }

  /** With a readable pipeline, check_deploy_group passes exactly when the
      effective deploy group (the explicit one, else the branch) is `None`
      or a step of the pipeline that is a deploy step. */
  lemma CheckDeployGroupSpec(ext: Externals, ic: InstanceConfig, serviceConfiguration: Dict, steps: seq<string>)
    requires GetPipelineConfig(serviceConfiguration).Ok?
    requires PipelineSteps(GetPipelineConfig(serviceConfiguration).value) == Ok(steps)
    ensures var dg := GetDeployGroup(ext, ic);
      CheckDeployGroup(ext, ic, serviceConfiguration) == Ok(Pass) <==>
        dg == Null
        || (dg.Str? && dg.s in steps && dg.s !in ext.nonDeploySteps && !StartsWith(dg.s, "command-"))
    ensures "deploy_group" !in Keys(ic.configDict) ==>
      var branch := ic.cluster + ext.spacer + ic.instance;
      (CheckDeployGroup(ext, ic, serviceConfiguration) == Ok(Pass) <==>
        branch in steps && branch !in ext.nonDeploySteps && !StartsWith(branch, "command-"))
  {
    DeployStepsMembers(ext, steps);
  }

  function UnsupportedMessage(param: string): string
  {
    "Your service config specifies \"" + param + "\", an unsupported parameter."
  }

  predicate Supported(param: string)
  {
    param == "cpus" || param == "mem" || param == "security"
    || param == "dependencies_reference" || param == "deploy_group"
  }

  /** check: the dispatch table has cpus, mem, security,
      dependencies_reference and deploy_group; every other name, "disk"
      included, is an unsupported parameter. */
  function Check(ext: Externals, ic: InstanceConfig, serviceConfiguration: Dict, param: string): (r: Result<CheckResult, Error>)
    ensures !Supported(param) ==> r == Ok(Fail(UnsupportedMessage(param)))
    ensures r.Err? ==> param == "security" || param == "dependencies_reference" || param == "deploy_group"
    ensures param == "cpus" ==> r == Ok(CheckCpus(ic))
    ensures param == "mem" ==> r == Ok(CheckMem(ic))
    ensures param == "security" ==> r == CheckSecurity(ic)
    ensures param == "dependencies_reference" ==> r == CheckDependenciesReference(ic)
    ensures param == "deploy_group" ==> r == CheckDeployGroup(ext, ic, serviceConfiguration)
  {
    if param == "cpus" then Ok(CheckCpus(ic))
    else if param == "mem" then Ok(CheckMem(ic))
    else if param == "security" then CheckSecurity(ic)
    else if param == "dependencies_reference" then CheckDependenciesReference(ic)
    else if param == "deploy_group" then CheckDeployGroup(ext, ic, serviceConfiguration)
    else Ok(Fail(UnsupportedMessage(param)))
  }

  /** check("disk") does not reach check_disk. */
  lemma DiskIsUnsupported(ext: Externals, ic: InstanceConfig, serviceConfiguration: Dict)
    ensures Check(ext, ic, serviceConfiguration, "disk") == Ok(Fail(UnsupportedMessage("disk")))
  {
  }

  /** The parameters `validate` checks when given none. */
  const DefaultParams: seq<string> := ["cpus", "mem", "security", "dependencies_reference", "deploy_group"]

  /** The messages of the failing checks of `params`, in order; an error
      raised by a check propagates. */
  function Validation(ext: Externals, ic: InstanceConfig, serviceConfiguration: Dict, params: seq<string>): Result<seq<string>, Error>
    decreases |params|
  {
    if params == [] then Ok([])
    else
      match Validation(ext, ic, serviceConfiguration, params[..|params| - 1])
      case Err(e) => Err(e)
      case Ok(messages) => AddOutcome(messages, Check(ext, ic, serviceConfiguration, params[|params| - 1]))
  }

  /** One round of `validate`'s loop: a failure adds its message. */
  function AddOutcome(messages: seq<string>, outcome: Result<CheckResult, Error>): Result<seq<string>, Error>
  {
    match outcome
    case Err(e) => Err(e)
    case Ok(Pass) => Ok(messages)
    case Ok(Fail(m)) => Ok(messages + [m])
  }

  lemma AddOutcomeAfter(earlier: seq<string>, messages: seq<string>, outcome: Result<CheckResult, Error>)
    requires AddOutcome(messages, outcome).Ok?
    ensures AddOutcome(earlier + messages, outcome) == Ok(earlier + AddOutcome(messages, outcome).value)
  {
    if outcome.value.Fail? {
      assert earlier + (messages + [outcome.value.message]) == (earlier + messages) + [outcome.value.message];
    }
  }

  lemma {:induction false} ValidationErrorAbsorbs(ext: Externals, ic: InstanceConfig, sc: Dict, params: seq<string>, n: nat)
    requires n <= |params|
    requires Validation(ext, ic, sc, params[..n]).Err?
    ensures Validation(ext, ic, sc, params) == Validation(ext, ic, sc, params[..n])
    decreases |params| - n
  {
    if n == |params| {
      assert params[..n] == params;
    } else {
      assert params[..n + 1][..n] == params[..n];
      ValidationErrorAbsorbs(ext, ic, sc, params, n + 1);
    }
  }

  /** validate */
  method Validate(ext: Externals, ic: InstanceConfig, serviceConfiguration: Dict, params: seq<string>)
    returns (r: Result<seq<string>, Error>)
    ensures r == Validation(ext, ic, serviceConfiguration, params)
  {
    var errorMessages := [];
    for i := 0 to |params|
      invariant Validation(ext, ic, serviceConfiguration, params[..i]) == Ok(errorMessages)
    {
      PrefixSnoc(params, i);
      ValidationSnoc(ext, ic, serviceConfiguration, params[..i], params[i]);
      var outcome := Check(ext, ic, serviceConfiguration, params[i]);
      if outcome.Err? {
        ValidationErrorAbsorbs(ext, ic, serviceConfiguration, params, i + 1);
        return Err(outcome.error);
      }
      if outcome.value.Fail? {
        errorMessages := errorMessages + [outcome.value.message];
      }
    }
    TakeAll(params);
    return Ok(errorMessages);
  }

  /** Validating one parameter yields its failure message, nothing, or its
      error. */
  lemma ValidationSingle(ext: Externals, ic: InstanceConfig, sc: Dict, param: string)
    ensures Check(ext, ic, sc, param) == Ok(Pass) ==> Validation(ext, ic, sc, [param]) == Ok([])
    ensures forall m :: Check(ext, ic, sc, param) == Ok(Fail(m)) ==> Validation(ext, ic, sc, [param]) == Ok([m])
    ensures Check(ext, ic, sc, param).Err? ==> Validation(ext, ic, sc, [param]) == Err(Check(ext, ic, sc, param).error)
  {
    assert [param][..0] == [];
    assert Validation(ext, ic, sc, []) == Ok([]);
    forall m | Check(ext, ic, sc, param) == Ok(Fail(m))
      ensures Validation(ext, ic, sc, [param]) == Ok([m])
    {
      assert [] + [m] == [m];
    }
  }

  /** An error raised while validating `a` is raised for `a + b` too. */
  lemma {:induction false} ValidationErrorFirst(ext: Externals, ic: InstanceConfig, sc: Dict, a: seq<string>, b: seq<string>)
    requires Validation(ext, ic, sc, a).Err?
    ensures Validation(ext, ic, sc, a + b) == Validation(ext, ic, sc, a)
  {
    assert (a + b)[..|a|] == a;
    ValidationErrorAbsorbs(ext, ic, sc, a + b, |a|);
  }

  lemma ValidationSnoc(ext: Externals, ic: InstanceConfig, sc: Dict, params: seq<string>, p: string)
    ensures Validation(ext, ic, sc, params).Err? ==>
      Validation(ext, ic, sc, params + [p]) == Validation(ext, ic, sc, params)
    ensures Validation(ext, ic, sc, params).Ok? ==>
      Validation(ext, ic, sc, params + [p]) == AddOutcome(Validation(ext, ic, sc, params).value, Check(ext, ic, sc, p))
  {
    assert (params + [p])[..|params|] == params;
  }

  /** Validation does not stop at a failing check: validating `a + b` gives
      the messages of `a` followed by those of `b`. */
  lemma {:induction false} ValidationAppend(ext: Externals, ic: InstanceConfig, sc: Dict, a: seq<string>, b: seq<string>)
    requires Validation(ext, ic, sc, a).Ok? && Validation(ext, ic, sc, b).Ok?
    ensures Validation(ext, ic, sc, a + b) == Ok(Validation(ext, ic, sc, a).value + Validation(ext, ic, sc, b).value)
    decreases |b|
  {
    var ma := Validation(ext, ic, sc, a).value;
    if b == [] {
      assert a + b == a;
      assert ma + [] == ma;
    } else {
      var b' := b[..|b| - 1];
      var p := b[|b| - 1];
      SnocSplit(a, b);
      ValidationSnoc(ext, ic, sc, b', p);
      ValidationSnoc(ext, ic, sc, a + b', p);
      ValidationAppend(ext, ic, sc, a, b');
      AddOutcomeAfter(ma, Validation(ext, ic, sc, b').value, Check(ext, ic, sc, p));
    }
  }

  /** An error raised by validation is the error of one of the checks it ran. */
  lemma {:induction false} ValidationErrorHasCause(ext: Externals, ic: InstanceConfig, sc: Dict, params: seq<string>)
    requires Validation(ext, ic, sc, params).Err?
    ensures exists k :: 0 <= k < |params| && Check(ext, ic, sc, params[k]) == Err(Validation(ext, ic, sc, params).error)
    decreases |params|
  {
    var init := params[..|params| - 1];
    if Validation(ext, ic, sc, init).Err? {
      ValidationErrorHasCause(ext, ic, sc, init);
      var k :| 0 <= k < |init| && Check(ext, ic, sc, init[k]) == Err(Validation(ext, ic, sc, init).error);
      assert params[k] == init[k];
    } else {
      assert Check(ext, ic, sc, params[|params| - 1]) == Err(Validation(ext, ic, sc, params).error);
    }
  }

  /** With the default parameters, validation raises only what
      check_security, check_dependencies_reference or check_deploy_group
      raises. */
  lemma DefaultValidationErrors(ext: Externals, ic: InstanceConfig, sc: Dict)
    requires Validation(ext, ic, sc, DefaultParams).Err?
    ensures var raised: Result<CheckResult, Error> := Err(Validation(ext, ic, sc, DefaultParams).error);
      raised == CheckSecurity(ic) || raised == CheckDependenciesReference(ic) || raised == CheckDeployGroup(ext, ic, sc)
  {
    ValidationErrorHasCause(ext, ic, sc, DefaultParams);
  }
}
