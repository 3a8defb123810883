/** The deploy pipeline of a service (its `deploy.yaml`) and the deploy
    groups it names. */
module Pipeline {
  import opened Results
  import opened PyStrings
  import opened Values
  import opened Collaborators

  /** is_deploy_step: not a predefined step type and not a `command-` step. */
  predicate IsDeployStep(ext: Externals, step: string)
  {
    !(step in ext.nonDeploySteps || StartsWith(step, "command-"))
  }

  /** get_pipeline_config: `service_configuration.get("deploy", {}).get("pipeline", [])`.
      A `deploy` value that is not a dict has no `get`. */
  function GetPipelineConfig(serviceConfiguration: Dict): (r: Result<Value, Error>)
    ensures "deploy" !in Keys(serviceConfiguration) ==> r == Ok(List([]))
    ensures r.Ok? ==> GetOr(serviceConfiguration, "deploy", Obj([])).Obj?
    ensures r.Ok? ==> r.value == GetOr(GetOr(serviceConfiguration, "deploy", Obj([])).entries, "pipeline", List([]))
  {
    match GetOr(serviceConfiguration, "deploy", Obj([]))
    case Obj(deploy) => Ok(GetOr(deploy, "pipeline", List([])))
    case _ => Err(WrongShape("deploy"))
  }

  /** `step["step"]` of a pipeline entry that is a dict with a string step. */
  function StepName(entry: Value): Option<string>
  {
    if entry.Obj? then
      match Get(entry.entries, "step")
      case Some(Str(s)) => Some(s)
      case _ => None
    else None
  }

  /** `[step["step"] for step in pipeline]`.  Iterating an empty dict or an
      empty string gives no steps; a non-empty one gives keys or characters,
      which cannot be indexed by "step".  Any other non-list value, an entry
      that is not a dict with a "step", and a step that is not a string
      (which has no `startswith` in is_deploy_step) all raise. */
  function PipelineSteps(pipeline: Value): (r: Result<seq<string>, Error>)
    ensures pipeline == Obj([]) || pipeline == Str("") ==> r == Ok([])
    ensures !pipeline.List? && pipeline != Obj([]) && pipeline != Str("") ==> r.Err?
    ensures pipeline.List? ==>
      (r.Ok? <==> forall k :: 0 <= k < |pipeline.items| ==> StepName(pipeline.items[k]).Some?)
    ensures pipeline.List? && r.Ok? ==>
      |r.value| == |pipeline.items|
      && forall k :: 0 <= k < |pipeline.items| ==> StepName(pipeline.items[k]) == Some(r.value[k])
  {
    if pipeline == Obj([]) || pipeline == Str("") then Ok([])
    else if !pipeline.List? then Err(WrongShape("pipeline"))
    else StepNames(pipeline.items)
  }

  function StepNames(items: seq<Value>): (r: Result<seq<string>, Error>)
    ensures r.Ok? <==> forall k :: 0 <= k < |items| ==> StepName(items[k]).Some?
    ensures r.Ok? ==>
      |r.value| == |items|
      && forall k :: 0 <= k < |items| ==> StepName(items[k]) == Some(r.value[k])
  {
    if items == [] then Ok([])
    else
      assert forall k :: 1 <= k < |items| ==> items[k] == items[1..][k - 1];
      match (StepName(items[0]), StepNames(items[1..]))
      case (Some(s), Ok(rest)) => Ok([s] + rest)
      case (None, _) => Err(WrongShape("pipeline"))
      case (Some(_), Err(e)) => Err(e)
  }

  /** `[step for step in pipeline_steps if is_deploy_step(step)]` */
  function DeploySteps(ext: Externals, steps: seq<string>): seq<string>
  {
    if steps == [] then []
    else (if IsDeployStep(ext, steps[0]) then [steps[0]] else []) + DeploySteps(ext, steps[1..])
  }

  /** get_pipeline_deploy_groups: the deploy steps of the pipeline, in
      pipeline order. */
  function GetPipelineDeployGroups(ext: Externals, serviceConfiguration: Dict): (r: Result<seq<string>, Error>)
    ensures r.Ok? <==>
      GetPipelineConfig(serviceConfiguration).Ok?
      && PipelineSteps(GetPipelineConfig(serviceConfiguration).value).Ok?
    ensures r.Ok? ==> forall s :: s in r.value <==>
      s in PipelineSteps(GetPipelineConfig(serviceConfiguration).value).value && IsDeployStep(ext, s)
    ensures r.Ok? ==> r.value == DeploySteps(ext, PipelineSteps(GetPipelineConfig(serviceConfiguration).value).value)
  {
    match GetPipelineConfig(serviceConfiguration)
    case Err(e) => Err(e)
    case Ok(pipeline) =>
      match PipelineSteps(pipeline)
      case Err(e) => Err(e)
      case Ok(steps) =>
        DeployStepsMembers(ext, steps);
        Ok(DeploySteps(ext, steps))
  }

  /** A step is a deploy group exactly when it is in the pipeline, is not a
      predefined non-deploy step and does not start with "command-". */
  lemma {:induction false} DeployStepsMembers(ext: Externals, steps: seq<string>)
    ensures forall s :: s in DeploySteps(ext, steps) <==>
      s in steps && s !in ext.nonDeploySteps && !StartsWith(s, "command-")
  {
    if steps != [] {
      DeployStepsMembers(ext, steps[1..]);
      assert forall s :: s in steps <==> s == steps[0] || s in steps[1..];
    }
  }

  /** Filtering keeps the pipeline order: it works step by step. */
  lemma {:induction false} DeployStepsAppend(ext: Externals, a: seq<string>, b: seq<string>)
    ensures DeploySteps(ext, a + b) == DeploySteps(ext, a) + DeploySteps(ext, b)
  {
    if a != [] {
      DeployStepsAppend(ext, a[1..], b);
      assert (a + b)[1..] == a[1..] + b;
    } else {
      assert a + b == b;
    }
  }
}
