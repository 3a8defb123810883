/** `SystemPaastaConfig`, its mandatory-key accessors, and the loading of
    the system configuration directory: every JSON fragment is deep-merged
    over what the fragments before it produced. */
module SystemConfig {
  import opened Results
  import opened Values
  import opened PyStrings
  import opened Collaborators
  import opened DockerVolumes

  datatype SystemPaastaConfig = SystemPaastaConfig(config: Dict, directory: string)

  /** The PaastaNotConfiguredError a mandatory accessor raises. */
  function NotFound(what: string, directory: string): Error
  {
    NotConfigured("Could not find " + what + " in configuration directory: " + directory)
  }

  /** `self.config_dict[key]`, turning the KeyError into
      PaastaNotConfiguredError that names `what`. */
  function Mandatory(sc: SystemPaastaConfig, key: string, what: string): (r: Result<Value, Error>)
    ensures r.Ok? <==> key in Keys(sc.config)
    ensures r.Ok? ==> Get(sc.config, key) == Some(r.value)
    ensures r.Err? ==> r.error == NotFound(what, sc.directory)
  {
    match Get(sc.config, key)
    case Some(v) => Ok(v)
    case None => Err(NotFound(what, sc.directory))
  }

  /** get_cluster */
  function GetCluster(sc: SystemPaastaConfig): (r: Result<Value, Error>)
    ensures r.Err? <==> "cluster" !in Keys(sc.config)
    ensures r.Ok? ==> Get(sc.config, "cluster") == Some(r.value)
    ensures r.Err? ==> r.error == NotFound("cluster", sc.directory)
  {
    Mandatory(sc, "cluster", "cluster")
  }

  /** get_system_docker_registry */
  function GetSystemDockerRegistry(sc: SystemPaastaConfig): (r: Result<Value, Error>)
    ensures r.Err? <==> "docker_registry" !in Keys(sc.config)
    ensures r.Ok? ==> Get(sc.config, "docker_registry") == Some(r.value)
    ensures r.Err? ==> r.error == NotFound("docker registry", sc.directory)
  {
    Mandatory(sc, "docker_registry", "docker registry")
  }

  /** get_volumes */
  function GetVolumes(sc: SystemPaastaConfig): (r: Result<Value, Error>)
    ensures r.Err? <==> "volumes" !in Keys(sc.config)
    ensures r.Ok? ==> Get(sc.config, "volumes") == Some(r.value)
    ensures r.Err? ==> r.error == NotFound("volumes", sc.directory)
  {
    Mandatory(sc, "volumes", "volumes")
  }

  /** get_log_writer */
  function GetLogWriter(sc: SystemPaastaConfig): (r: Result<Value, Error>)
    ensures r.Err? <==> "log_writer" !in Keys(sc.config)
    ensures r.Ok? ==> Get(sc.config, "log_writer") == Some(r.value)
    ensures r.Err? ==> r.error == NotFound("log_writer", sc.directory)
  {
    Mandatory(sc, "log_writer", "log_writer")
  }

  /** get_log_reader */
  function GetLogReader(sc: SystemPaastaConfig): (r: Result<Value, Error>)
    ensures r.Err? <==> "log_reader" !in Keys(sc.config)
    ensures r.Ok? ==> Get(sc.config, "log_reader") == Some(r.value)
    ensures r.Err? ==> r.error == NotFound("log_reader", sc.directory)
  {
    Mandatory(sc, "log_reader", "log_reader")
  }

  /** get_zk_hosts: the zookeeper connection string without a leading
      "zk://".  A value that is not a string has no `startswith`. */
  function GetZkHosts(sc: SystemPaastaConfig): (r: Result<string, Error>)
    ensures "zookeeper" !in Keys(sc.config) <==>
      r == Err(NotFound("zookeeper connection string", sc.directory))
    ensures r.Ok? <==> exists hosts :: Get(sc.config, "zookeeper") == Some(Str(hosts))
    ensures forall h :: Get(sc.config, "zookeeper") == Some(Str("zk://" + h)) ==> r == Ok(h)
    ensures forall h :: Get(sc.config, "zookeeper") == Some(Str(h)) && !StartsWith(h, "zk://") ==> r == Ok(h)
  {
    match Mandatory(sc, "zookeeper", "zookeeper connection string")
    case Err(e) => Err(e)
    case Ok(Str(hosts)) =>
      assert forall h :: hosts == "zk://" + h ==> hosts[|"zk://"|..] == h;
      if StartsWith(hosts, "zk://") then Ok(hosts[|"zk://"|..]) else Ok(hosts)
    case Ok(_) => Err(WrongShape("zookeeper"))
  }

  /** A DockerVolume dict: exactly the three string fields. */
  function ToDockerVolume(v: Value): (r: Option<DockerVolume>)
    ensures r.Some? ==>
      v.Obj? && |v.entries| == 3
      && Get(v.entries, "containerPath") == Some(Str(r.value.containerPath))
      && Get(v.entries, "hostPath") == Some(Str(r.value.hostPath))
      && Get(v.entries, "mode") == Some(Str(r.value.mode))
  {
    if !v.Obj? || |v.entries| != 3 then None
    else
      match (Get(v.entries, "containerPath"), Get(v.entries, "hostPath"), Get(v.entries, "mode"))
      case (Some(Str(c)), Some(Str(h)), Some(Str(m))) => Some(DockerVolume(c, h, m))
      case _ => None
  }

  /** Every item as a DockerVolume, or None when one is malformed. */
  function ToDockerVolumes(items: seq<Value>): Option<seq<DockerVolume>>
  {
    AllSome(ToDockerVolume, items)
  }

  /** The conversion succeeds exactly when every item is a well-formed
      volume, and then converts item by item. */
  lemma ToDockerVolumesSpec(items: seq<Value>)
    ensures ToDockerVolumes(items).Some? <==> forall k :: 0 <= k < |items| ==> ToDockerVolume(items[k]).Some?
    ensures ToDockerVolumes(items).Some? ==>
      |ToDockerVolumes(items).value| == |items|
      && forall k :: 0 <= k < |items| ==> ToDockerVolume(items[k]) == Some(ToDockerVolumes(items).value[k])
  {
    AllSomeSpec(ToDockerVolume, items);
  }

  /** get_hacheck_sidecar_volumes: the configured volumes deduplicated and
      sorted by `_reorder_docker_volumes`. */
  function GetHacheckSidecarVolumes(sc: SystemPaastaConfig): (r: Result<seq<DockerVolume>, Error>)
    ensures "hacheck_sidecar_volumes" !in Keys(sc.config) <==>
      r == Err(NotFound("hacheck_sidecar_volumes", sc.directory))
    ensures Get(sc.config, "hacheck_sidecar_volumes") in {Some(Obj([])), Some(Str(""))} ==> r == Ok([])
    ensures r.Ok? ==> Sorted(r.value) && DockerVolumes.KeysDistinct(r.value)
    ensures r.Ok? && Get(sc.config, "hacheck_sidecar_volumes") !in {Some(Obj([])), Some(Str(""))} ==>
      exists vs :: Get(sc.config, "hacheck_sidecar_volumes") == Some(List(vs))
        && ToDockerVolumes(vs).Some?
        && forall v :: v in r.value <==> Survives(ToDockerVolumes(vs).value, v)
    ensures forall vs :: Get(sc.config, "hacheck_sidecar_volumes") == Some(List(vs)) && ToDockerVolumes(vs).Some? ==>
      r == Ok(ReorderDockerVolumes(ToDockerVolumes(vs).value))
  {
    match Mandatory(sc, "hacheck_sidecar_volumes", "hacheck_sidecar_volumes")
    case Err(e) => Err(e)
    case Ok(volumes) =>
      if volumes == Obj([]) || volumes == Str("") then Ok([])
      else if !volumes.List? then Err(WrongShape("hacheck_sidecar_volumes"))
      else
        match ToDockerVolumes(volumes.items)
        case Some(vs) =>
          ReorderDockerVolumesSpec(vs);
          Ok(ReorderDockerVolumes(vs))
        case None => Err(WrongShape("hacheck_sidecar_volumes"))
  }

  /** get_metrics_provider: `deployd_metrics_provider` when it is set and not
      None, else `metrics_provider`; `Null` stands for None. */
  function GetMetricsProvider(sc: SystemPaastaConfig): (r: Value)
    ensures (exists p :: p != Null && Get(sc.config, "deployd_metrics_provider") == Some(p)) ==>
      Get(sc.config, "deployd_metrics_provider") == Some(r)
    ensures Get(sc.config, "deployd_metrics_provider") in {None, Some(Null)} ==>
      r == (if "metrics_provider" in Keys(sc.config) then Get(sc.config, "metrics_provider").value else Null)
  {
    var deployd := GetOr(sc.config, "deployd_metrics_provider", Null);
    if deployd != Null then deployd else GetOr(sc.config, "metrics_provider", Null)
  }

  /** get_auto_config_instance_types_enabled */
  function GetAutoConfigInstanceTypesEnabled(sc: SystemPaastaConfig): (r: Value)
    ensures "auto_config_instance_types_enabled" !in Keys(sc.config) ==> r == Obj([])
    ensures "auto_config_instance_types_enabled" in Keys(sc.config) ==>
      Get(sc.config, "auto_config_instance_types_enabled") == Some(r)
  {
    GetOr(sc.config, "auto_config_instance_types_enabled", Obj([]))
  }

  /** What opening and `json.load`ing one fragment gives. */
  datatype FragmentRead = Parsed(json: Value) | IOFailure(strerror: string) | ParseFailure(reason: string)

  datatype Fragment = Fragment(filename: string, read: FragmentRead)

  /** The system configuration directory as the filesystem presents it: its
      readable `*.json` files in the order they are visited. */
  datatype ConfigDirectory = Missing | Unreadable | Present(fragments: seq<Fragment>)

  /** One iteration of the loop in parse_system_paasta_config: the fragment
      overrides the accumulated config and duplicate keys are refused. */
  function FoldStep(ext: Externals, acc: Dict, f: Fragment): Result<Dict, Error>
  {
    match f.read
    case IOFailure(e) => Err(IOFailed(f.filename, e))
    case ParseFailure(why) => Err(MalformedFragment(f.filename, why))
    case Parsed(json) =>
      match ext.deepMerge(json, Obj(acc), false)
      case Merged(d) => Ok(d)
      case MergeError(m) => Err(MergeFailed(m))
  }

  /** The accumulated config after the given fragments, or the first exception. */
  function FoldFragments(ext: Externals, fs: seq<Fragment>): Result<Dict, Error>
  {
    if fs == [] then Ok([])
    else
      match FoldFragments(ext, fs[..|fs| - 1])
      case Err(e) => Err(e)
      case Ok(acc) => FoldStep(ext, acc, fs[|fs| - 1])
  }

  /** parse_system_paasta_config: the loop reassigning `config`. */
  method ParseSystemPaastaConfig(ext: Externals, fs: seq<Fragment>, path: string)
    returns (r: Result<SystemPaastaConfig, Error>)
    ensures FoldFragments(ext, fs).Ok? ==> r == Ok(SystemPaastaConfig(FoldFragments(ext, fs).value, path))
    ensures FoldFragments(ext, fs).Err? ==> r == Err(FoldFragments(ext, fs).error)
  {
    var config: Dict := [];
    for i := 0 to |fs|
      invariant FoldFragments(ext, fs[..i]) == Ok(config)
    {
      assert fs[..i + 1][..i] == fs[..i];
      var next := FoldStep(ext, config, fs[i]);
      if next.Err? {
        FoldErrorAbsorbs(ext, fs[..i + 1], fs[i + 1..]);
        assert fs[..i + 1] + fs[i + 1..] == fs;
        return Err(next.error);
      }
      config := next.value;
    }
    assert fs[..|fs|] == fs;
    r := Ok(SystemPaastaConfig(config, path));
  }

  /** Once a fragment fails, later fragments change nothing. */
  lemma {:induction false} FoldErrorAbsorbs(ext: Externals, fs: seq<Fragment>, more: seq<Fragment>)
    requires FoldFragments(ext, fs).Err?
    ensures FoldFragments(ext, fs + more) == FoldFragments(ext, fs)
    decreases |more|
  {
    if more != [] {
      var init := more[..|more| - 1];
      FoldErrorAbsorbs(ext, fs, init);
      assert (fs + more)[..|fs + more| - 1] == fs + init;
    } else {
      assert fs + more == fs;
    }
  }

  /** A successful fold read and parsed every fragment. */
  lemma {:induction false} FoldOkMeansAllParsed(ext: Externals, fs: seq<Fragment>)
    requires FoldFragments(ext, fs).Ok?
    ensures forall k :: 0 <= k < |fs| ==> fs[k].read.Parsed?
  {
    if fs != [] {
      var init := fs[..|fs| - 1];
      FoldOkMeansAllParsed(ext, init);
      assert forall k :: 0 <= k < |init| ==> fs[k] == init[k];
    }
  }

  /** The fold only ever calls deep_merge_dictionaries with
      `allow_duplicate_keys=False`: mergers that agree on those calls give
      the same config. */
  lemma {:induction false} FoldUsesStrictMerge(e1: Externals, e2: Externals, fs: seq<Fragment>)
    requires forall json, acc :: e1.deepMerge(json, acc, false) == e2.deepMerge(json, acc, false)
    ensures FoldFragments(e1, fs) == FoldFragments(e2, fs)
  {
    if fs != [] {
      FoldUsesStrictMerge(e1, e2, fs[..|fs| - 1]);
    }
  }

  /** A single fragment is merged over the empty dict. */
  lemma SingleFragment(ext: Externals, filename: string, json: Value)
    ensures FoldFragments(ext, [Fragment(filename, Parsed(json))]) ==
      match ext.deepMerge(json, Obj([]), false)
      case Merged(d) => Ok(d)
      case MergeError(m) => Err(MergeFailed(m))
  {
    assert [Fragment(filename, Parsed(json))][..0] == [];
  }

  /** The error load_system_paasta_config raises for a failed fold: an
      unreadable file becomes PaastaNotConfiguredError, anything else
      propagates unchanged. */
  function LoadError(e: Error): (r: Error)
    ensures e.IOFailed? ==> r == NotConfigured("Could not load system paasta config file " + e.filename + ": " + e.strerror)
    ensures !e.IOFailed? ==> r == e
  {
    match e
    case IOFailed(fn, reason) => NotConfigured("Could not load system paasta config file " + fn + ": " + reason)
    case other => other
  }

  /** load_system_paasta_config.  Only IOError becomes
      PaastaNotConfiguredError; a parse or merge error propagates. */
  function LoadSystemPaastaConfig(ext: Externals, dir: ConfigDirectory, path: string)
    : (r: Result<SystemPaastaConfig, Error>)
    ensures dir.Missing? ==>
      r == Err(NotConfigured("Could not find system paasta configuration directory: " + path))
    ensures dir.Unreadable? ==>
      r == Err(NotConfigured("Could not read from system paasta configuration directory: " + path))
    ensures r.Ok? ==>
      dir.Present? && r.value.directory == path
      && FoldFragments(ext, dir.fragments) == Ok(r.value.config)
      && forall k :: 0 <= k < |dir.fragments| ==> dir.fragments[k].read.Parsed?
    ensures dir.Present? && FoldFragments(ext, dir.fragments).Ok? ==>
      r == Ok(SystemPaastaConfig(FoldFragments(ext, dir.fragments).value, path))
    ensures dir.Present? && FoldFragments(ext, dir.fragments).Err? ==>
      r == Err(LoadError(FoldFragments(ext, dir.fragments).error))
  {
    match dir
    case Missing => Err(NotConfigured("Could not find system paasta configuration directory: " + path))
    case Unreadable => Err(NotConfigured("Could not read from system paasta configuration directory: " + path))
    case Present(fs) =>
      var folded := FoldFragments(ext, fs);
      if folded.Ok? then
        FoldOkMeansAllParsed(ext, fs);
        Ok(SystemPaastaConfig(folded.value, path))
      else
        Err(LoadError(folded.error))
  }

  /** A readable directory with no fragment files loads as an empty config. */
  lemma EmptyDirectoryLoads(ext: Externals, path: string)
    ensures LoadSystemPaastaConfig(ext, Present([]), path) == Ok(SystemPaastaConfig([], path))
  {
    assert FoldFragments(ext, []) == Ok([]);
  }

  /** optionally_load_system_paasta_config: PaastaNotConfiguredError gives an
      empty config; every other outcome passes through. */
  function OptionallyLoadSystemPaastaConfig(ext: Externals, dir: ConfigDirectory, path: string)
    : (r: Result<SystemPaastaConfig, Error>)
    ensures r.Err? ==> !r.error.NotConfigured? && r == LoadSystemPaastaConfig(ext, dir, path)
    ensures LoadSystemPaastaConfig(ext, dir, path).Ok? ==> r == LoadSystemPaastaConfig(ext, dir, path)
    ensures (dir.Missing? || dir.Unreadable?) ==> r == Ok(SystemPaastaConfig([], ""))
    ensures LoadSystemPaastaConfig(ext, dir, path).Err? && LoadSystemPaastaConfig(ext, dir, path).error.NotConfigured? ==>
      r == Ok(SystemPaastaConfig([], ""))
  {
    match LoadSystemPaastaConfig(ext, dir, path)
    case Err(NotConfigured(_)) => Ok(SystemPaastaConfig([], ""))
    case other => other
  }
}
