# paasta configuration loading, in Dafny

A model of the configuration core of paasta (`paasta_tools/util/config_loading.py`).
This is the code that turns a service's soa-configs files and the host's
system configuration directory into instance lists, merged instance
configurations and validation messages. The model covers:

- **Template filtering and instance enumeration.** `filter_templates_from_config`
  drops keys starting with `_`. `read_service_instance_names` turns a config
  file into `(service, instance)` pairs; a tron job `j` with action `a` becomes
  `j.a`. `get_service_instance_list_no_cache` picks the instance types to scan
  and concatenates their lists. `validate_service_instance` searches
  `INSTANCE_TYPES` in order and raises `NoConfigurationForServiceError` with
  `suggest_possibilities` text when no type owns the pair.
- **Overlay assembly.** `load_service_instance_config(s)` merge each user entry
  as `overrides` over the automatically tuned entry as `defaults`.
  `load_service_instance_auto_configs` reads that file only when the
  system map `auto_config_instance_types_enabled` enables the instance type.
- **The system configuration fold.** `parse_system_paasta_config` deep-merges
  every fragment over the accumulated config without allowing duplicate keys.
  `load_system_paasta_config` turns a missing or unreadable directory and an
  unreadable file into `PaastaNotConfiguredError`.
  `optionally_load_system_paasta_config` turns that error into an empty config.
- **`InstanceConfig`.**
  - Its constructor `str.format`s `deploy_group`.
  - The getters the checks use: branch, deploy group, container type, args,
    deploy constraints.
  - `check_cpus`, `check_mem`, `check_disk`, `check_security`,
    `check_dependencies_reference` and `check_deploy_group`.
  - The `check` dispatch table, which has no `"disk"` entry, so `check("disk")`
    reports an unsupported parameter exactly as the code does.
  - `validate`, which collects every failure message in parameter order.
- **Pipeline helpers.** `get_pipeline_config`, `is_deploy_step` and
  `get_pipeline_deploy_groups`.
- **Small transforms.**
  - Deploy blacklist and whitelist to constraints.
  - `stringify_constraints`.
  - `_reorder_docker_volumes`: deduplicate on container path plus host path,
    trailing `/` stripped, later entry wins, then sort.
  - `get_git_sha_from_dockerurl` and `get_code_sha_from_dockerurl`.
  - `get_paasta_branch`.
  - The mandatory-key accessors of `SystemPaastaConfig`, and its
    `get_zk_hosts`, `get_hacheck_sidecar_volumes` and `get_metrics_provider`.

Configuration documents are a `Value` datatype (`None`, bool, int, float,
string, list, dict). A dict is an association list in insertion order, because
Python dicts keep that order and the enumerators expose it. Raised exceptions
are `Err` values of `Result`. The code the core calls from modules that are not
part of this model is bundled in `Collaborators.Externals` and passed in as
parameters:

- `deep_merge_dictionaries`;
- `compose_job_id`;
- `difflib.get_close_matches`;
- `str.format`;
- the constants `INSTANCE_TYPES`, `DEPLOY_PIPELINE_NON_DEPLOY_STEPS`, `SPACER`
  and `AUTO_SOACONFIG_SUBDIR`.

The files under the soa directory are a map from (service, file name) to their
parsed content. The system configuration directory, and what opening and
parsing each of its fragments gives, is a `ConfigDirectory` value.

The model follows the source's own form. It has methods with loops and
invariants where the code accumulates step by step:

- `Constraints.DeployBlacklistToConstraints`;
- `Instances.ReadServiceInstanceNames`;
- `Instances.GetServiceInstanceListNoCache`;
- `Instances.ValidateServiceInstance`;
- `Overlay.LoadServiceInstanceConfigs`;
- `SystemConfig.ParseSystemPaastaConfig`;
- `InstanceConfigs.NewInstanceConfig`;
- `InstanceConfigs.Validate`.

Each such method is proved equal to a recursive specification function, and
the properties the code promises are lemmas about that function. The rest is
functions.

## Model

| member | source | states |
|---|---|---|
| Constraints.BlacklistConstraints | paasta_tools/util/config_loading.py:112-126 | one constraint per blacklisted location, in order, each `[type, "UNLIKE", location]` |
| Constraints.DeployBlacklistToConstraints | paasta_tools/util/config_loading.py:122-126 | the appending loop returns exactly the per-location UNLIKE constraints, in blacklist order |
| Constraints.DeployWhitelistToConstraints | paasta_tools/util/config_loading.py:129-144 | no whitelist gives no constraint; a whitelist gives one `[type, "LIKE", …]` constraint |
| Constraints.WhitelistRegionsRecoverable | paasta_tools/util/config_loading.py:139-142 | splitting the LIKE value on "\|" gives back the allowed regions when no region contains "\|" |
| Constraints.GetDeployConstraints | paasta_tools/util/config_loading.py:575-590 | instance blacklist, instance whitelist, system blacklist, system whitelist, concatenated in that order |
| Constraints.DeployConstraintOperators | paasta_tools/util/config_loading.py:575-590 | every deploy constraint has three cells; its operator is UNLIKE exactly at the positions of the two blacklists, LIKE elsewhere |
| Constraints.StringifyConstraint | paasta_tools/util/config_loading.py:903-904 | every cell becomes its `str`, same length |
| Constraints.StringifyConstraints | paasta_tools/util/config_loading.py:907-912 | `None` stays `None`; otherwise every constraint is stringified, same length and order |
| Constraints.StringifyKeepsStrings | paasta_tools/util/config_loading.py:903-912 | constraints already made of strings come back unchanged |
| DockerVolumes.SurvivorsSpec | paasta_tools/util/config_loading.py:147-150 | a volume survives the deduplicating comprehension exactly when no later entry has the same stripped container-plus-host key |
| DockerVolumes.SurvivorsKeysDistinct | paasta_tools/util/config_loading.py:147-150 | no two survivors share a deduplication key |
| DockerVolumes.Sort | paasta_tools/util/config_loading.py:81-85 | `sort_dicts` result is ordered by (containerPath, hostPath, mode) and is a permutation of its input |
| DockerVolumes.ReorderDockerVolumes | paasta_tools/util/config_loading.py:147-151 | the result is sorted and is a permutation of the surviving volumes |
| DockerVolumes.ReorderDockerVolumesSpec | paasta_tools/util/config_loading.py:147-151 | a volume is in the result exactly when no later entry overrides it, and the result has distinct keys |
| DockerVolumes.BeforeTotal | paasta_tools/util/config_loading.py:81-85 | the `sort_dicts` key order is total on volumes |
| DockerVolumes.BeforeTransitive | paasta_tools/util/config_loading.py:81-85 | the `sort_dicts` key order is transitive |
| Naming.GetPaastaBranch | paasta_tools/util/config_loading.py:196-197 | the branch is cluster, SPACER, instance |
| Naming.GitShaSpec | paasta_tools/util/config_loading.py:200-207 | the long sha is a suffix of the url with no "/" or "-", preceded by one of them unless it is the whole url |
| Naming.ShortShaSpec | paasta_tools/util/config_loading.py:200-207 | without `long` the sha is the first min(8, len) characters of the long sha |
| Naming.GetCodeShaFromDockerurl | paasta_tools/util/config_loading.py:210-219 | "git" followed by the short sha, 3 to 11 characters |
| PyStrings.SplitFieldsAvoidSeparator | paasta_tools/util/config_loading.py:200-207 | no field of `s.split(c)` contains `c` |
| PyStrings.SplitJoin | paasta_tools/util/config_loading.py:139-142 | `"\|".join` then split gives the parts back when no part contains the separator |
| PyStrings.JoinSplit | paasta_tools/util/config_loading.py:200-207 | joining the fields of a split with the separator gives the input back |
| PyStrings.LastFieldSpec | paasta_tools/util/config_loading.py:204-206 | `s.split(c)[-1]` is the longest suffix of `s` free of `c` |
| PyStrings.RStripSpec | paasta_tools/util/config_loading.py:148-149 | `rstrip("/")` removes exactly the trailing run of "/" |
| Values.Get | paasta_tools/util/config_loading.py:1610-1621 | `d.get(k)` finds a value exactly when `k` is a key, and the value found is paired with `k` in the dict |
| Values.Show | paasta_tools/util/config_loading.py:903-904 | `str` of a string is the string itself |
| Values.PutGet | paasta_tools/util/config_loading.py:1588-1590 | after `d[k] = v`, `k` maps to `v` and every other key is unchanged |
| SystemConfig.Mandatory | paasta_tools/util/config_loading.py:989-999 | a mandatory key is returned when present; otherwise PaastaNotConfiguredError naming the value and directory |
| SystemConfig.GetCluster | paasta_tools/util/config_loading.py:989-999 | the `cluster` value, or "Could not find cluster in configuration directory: …" |
| SystemConfig.GetSystemDockerRegistry | paasta_tools/util/config_loading.py:950-961 | the `docker_registry` value, or the "docker registry" error |
| SystemConfig.GetVolumes | paasta_tools/util/config_loading.py:977-987 | the `volumes` value, or the "volumes" error |
| SystemConfig.GetLogWriter | paasta_tools/util/config_loading.py:1084-1095 | the `log_writer` value, or the "log_writer" error |
| SystemConfig.GetLogReader | paasta_tools/util/config_loading.py:1097-1108 | the `log_reader` value, or the "log_reader" error |
| SystemConfig.GetZkHosts | paasta_tools/util/config_loading.py:931-948 | absent gives the error; a "zk://" prefix is stripped; other strings are returned whole; a non-string raises |
| SystemConfig.ToDockerVolume | paasta_tools/util/config_loading.py:963-975 | a converted volume comes from a dict with exactly the keys containerPath, hostPath and mode, whose string values are its three fields |
| SystemConfig.ToDockerVolumesSpec | paasta_tools/util/config_loading.py:963-975 | the configured list converts exactly when every entry is a dict with string containerPath, hostPath and mode, entry by entry |
| SystemConfig.GetHacheckSidecarVolumes | paasta_tools/util/config_loading.py:963-975 | absent gives the error; `{}` or `""` gives `[]`, as `list()` of them does; otherwise sorted, keys distinct, and exactly the configured volumes no later one overrides; a list of well-formed volumes always loads, as their reordering |
| SystemConfig.GetMetricsProvider | paasta_tools/util/config_loading.py:1110-1118 | `deployd_metrics_provider` when set and not None, else `metrics_provider` |
| SystemConfig.GetAutoConfigInstanceTypesEnabled | paasta_tools/util/config_loading.py:1014-1015 | the configured map, `{}` when absent |
| SystemConfig.ParseSystemPaastaConfig | paasta_tools/util/config_loading.py:1516-1527 | the loop gives the config of the fragment fold, or the first fragment's exception |
| SystemConfig.FoldErrorAbsorbs | paasta_tools/util/config_loading.py:1521-1526 | once a fragment raises, later fragments change nothing |
| SystemConfig.FoldOkMeansAllParsed | paasta_tools/util/config_loading.py:1521-1526 | a successful fold opened and parsed every fragment |
| SystemConfig.FoldUsesStrictMerge | paasta_tools/util/config_loading.py:1523-1525 | the fold depends on deep_merge_dictionaries only through calls with `allow_duplicate_keys=False` |
| SystemConfig.SingleFragment | paasta_tools/util/config_loading.py:1521-1526 | one fragment is merged as overrides over `{}` |
| SystemConfig.LoadSystemPaastaConfig | paasta_tools/util/config_loading.py:1530-1558 | missing and unreadable directories raise their PaastaNotConfiguredError; an IOError becomes "Could not load system paasta config file …"; other errors propagate; a readable directory whose fragments all load gives their fold with the directory path; success means every fragment parsed |
| SystemConfig.EmptyDirectoryLoads | paasta_tools/util/config_loading.py:1516-1558 | a readable directory with no fragment files loads as an empty config with its path |
| SystemConfig.OptionallyLoadSystemPaastaConfig | paasta_tools/util/config_loading.py:1561-1571 | PaastaNotConfiguredError gives an empty config with directory ""; every other outcome passes through |
| Instances.FilterTemplatesFromConfig | paasta_tools/util/config_loading.py:1483-1487 | the filtered dict is no longer than the input |
| Instances.FilterTemplatesMembers | paasta_tools/util/config_loading.py:1483-1487 | an entry survives exactly when it is in the input and its key does not start with "_", value unchanged |
| Instances.FilterTemplatesAppend | paasta_tools/util/config_loading.py:1483-1487 | the filter works entry by entry, so it keeps the input order |
| Instances.FilterTemplatesIdempotent | paasta_tools/util/config_loading.py:1483-1487 | filtering twice is filtering once |
| Instances.FilterTemplatesDistinct | paasta_tools/util/config_loading.py:1483-1487 | the result is still a dict with distinct keys |
| Instances.FilterTemplatesKeys | paasta_tools/util/config_loading.py:1483-1487 | the keys kept are exactly the input keys not starting with "_" |
| Instances.ActionNames | paasta_tools/util/config_loading.py:1651 | the action names of a tron job are the keys of its `actions` (default `{}`), and a non-dict job or actions raises |
| Instances.ActionPairs | paasta_tools/util/config_loading.py:1652-1654 | one pair `(service, "job.action")` per action, in action order |
| Instances.KeyPairs | paasta_tools/util/config_loading.py:1656-1658 | one pair `(service, key)` per key of a non-tron config, in key order |
| Instances.TronErrorAbsorbs | paasta_tools/util/config_loading.py:1650-1654 | once a tron job raises, later jobs change nothing |
| Instances.TronInstanceNamesAppend | paasta_tools/util/config_loading.py:1650-1654 | job-then-action order: the pairs of two runs of jobs are those of the first followed by those of the second |
| Instances.OneTronJob | paasta_tools/util/config_loading.py:1650-1654 | one job yields exactly its action pairs, or its error |
| Instances.InstanceNamesOfService | paasta_tools/util/config_loading.py:1641-1659 | every pair names the requested service |
| Instances.ReadServiceInstanceNames | paasta_tools/util/config_loading.py:1641-1659 | the method returns the instance names of the filtered user config of the type and cluster |
| Instances.CollectInstanceNames | paasta_tools/util/config_loading.py:1649-1659 | the tron loop and the key loop return exactly the specified pairs, or the first job's error |
| Instances.SelectedTypes | paasta_tools/util/config_loading.py:1680-1683 | a type in INSTANCE_TYPES selects only itself; anything else selects all of INSTANCE_TYPES in order |
| Instances.EffectiveCluster | paasta_tools/util/config_loading.py:1678-1679 | a non-empty cluster is used as given; otherwise the system config's cluster, with its errors |
| Instances.ScanOneType | paasta_tools/util/config_loading.py:1685-1694 | scanning one type gives that type's instance list |
| Instances.ScanErrorAbsorbs | paasta_tools/util/config_loading.py:1685-1694 | once a type raises, later types change nothing |
| Instances.ScanTypesAllRead | paasta_tools/util/config_loading.py:1685-1694 | a successful scan read every scanned type successfully |
| Instances.ScanTypesMembers | paasta_tools/util/config_loading.py:1685-1694 | a pair is in the scan exactly when one of the scanned types lists it |
| Instances.GetServiceInstanceListNoCache | paasta_tools/util/config_loading.py:1662-1696 | the extending loop returns the concatenation of the selected types' lists, in order, or the first error |
| Instances.SuggestPossibilities | paasta_tools/util/config_loading.py:1744-1758 | empty without suggestions; "Did you mean: x?" for one; "Did you mean one of: …" for more |
| Instances.InstancesOf | paasta_tools/util/config_loading.py:1774 | the instance names of the pairs, in order |
| Instances.ValidateServiceInstance | paasta_tools/util/config_loading.py:1761-1781 | the for/else loop returns what the owner search over INSTANCE_TYPES specifies |
| Instances.OwnerIsFirst | paasta_tools/util/config_loading.py:1765-1773 | a type found by the search lists the pair, and every earlier type listed its instances without it |
| Instances.OwnerFound | paasta_tools/util/config_loading.py:1765-1773 | the first type that lists the pair, after types that list their instances without it, is the type returned |
| Instances.NoOwner | paasta_tools/util/config_loading.py:1775-1781 | when no type lists the pair, NoConfigurationForServiceError suggests among the instance names of every type, in type order |
| Overlay.LoadServiceInstanceAutoConfigs | paasta_tools/util/config_loading.py:1625-1638 | the auto file is read only when `enabled_types.get(instance_type)` is truthy, `{}` otherwise |
| Overlay.MergeInstance | paasta_tools/util/config_loading.py:1588-1590 | the merge result is what deep_merge_dictionaries gives for user as overrides and auto as defaults |
| Overlay.LoadServiceInstanceConfig | paasta_tools/util/config_loading.py:1594-1622 | a `_` name raises InvalidJobNameError; a missing or null entry raises NoConfigurationForServiceError; otherwise user overrides over the auto entry or `{}` |
| Overlay.LoadServiceInstanceConfigs | paasta_tools/util/config_loading.py:1574-1591 | the loop filling `merged` returns the specified dict, or the first merge error |
| Overlay.MergeErrorAbsorbs | paasta_tools/util/config_loading.py:1586-1590 | once a merge raises, later instances change nothing |
| Overlay.MergeAllKeys | paasta_tools/util/config_loading.py:1585-1591 | `merged` has exactly the user's instance names, in the user's order |
| Overlay.MergeAllValueAt | paasta_tools/util/config_loading.py:1585-1591 | the instance at each position maps to its own merge |
| Overlay.MergeAllValues | paasta_tools/util/config_loading.py:1585-1591 | every instance maps to its user entry merged over its auto entry |
| Overlay.LoadedConfigsSpec | paasta_tools/util/config_loading.py:1574-1591 | the keys are the user's non-template instance names; each value is user overrides over the auto entry or `{}` |
| Overlay.BulkAgreesWithSingle | paasta_tools/util/config_loading.py:1574-1622 | for an instance with a non-null user entry, the bulk loader gives exactly what the single loader gives |
| Overlay.DisabledMeansEmptyDefaults | paasta_tools/util/config_loading.py:1625-1638 | when the type is not enabled, an instance is merged over `{}` |
| Pipeline.GetPipelineConfig | paasta_tools/util/config_loading.py:222-226 | `deploy` defaults to `{}` and `pipeline` to `[]`; a non-dict `deploy` raises |
| Pipeline.PipelineSteps | paasta_tools/util/config_loading.py:242 | the step names of the entries, in order; an empty dict or string gives none; anything else malformed raises |
| Pipeline.StepNames | paasta_tools/util/config_loading.py:242 | succeeds exactly when every entry is a dict with a string step, entry by entry |
| Pipeline.GetPipelineDeployGroups | paasta_tools/util/config_loading.py:239-243 | the result holds exactly the pipeline steps that are deploy steps, in pipeline order |
| Pipeline.DeployStepsMembers | paasta_tools/util/config_loading.py:229-243 | a step is a deploy group exactly when it is in the pipeline, not in DEPLOY_PIPELINE_NON_DEPLOY_STEPS and not "command-…" |
| Pipeline.DeployStepsAppend | paasta_tools/util/config_loading.py:242-243 | the deploy groups keep pipeline order |
| InstanceConfigs.NewInstanceConfig | paasta_tools/util/config_loading.py:253-278 | the constructor stores its arguments and the config with `deploy_group` interpolated, or raises the interpolation's error |
| InstanceConfigs.InterpolatedErrorAbsorbs | paasta_tools/util/config_loading.py:271-278 | once a key fails to interpolate, later keys change nothing |
| InstanceConfigs.InterpolationSpec | paasta_tools/util/config_loading.py:269-278 | an absent or None deploy group is kept; a string one is replaced by its formatting or raises; any other value raises; no other key changes |
| InstanceConfigs.GetDeployGroup | paasta_tools/util/config_loading.py:323-324 | the explicit `deploy_group`, else the branch |
| InstanceConfigs.GetContainerType | paasta_tools/util/config_loading.py:484-494 | "MESOS" exactly when gpus are configured and not None, else "DOCKER" |
| InstanceConfigs.GetArgs | paasta_tools/util/config_loading.py:548-569 | without cmd, `args` or `[]`; with cmd, None; cmd and args together raise InvalidInstanceConfig |
| InstanceConfigs.CheckNumber | paasta_tools/util/config_loading.py:649-677 | a cpus/mem/disk value fails exactly when it is set, not None and not an int or float, with the "is not a valid float or int" message |
| InstanceConfigs.UnknownSecurityKeys | paasta_tools/util/config_loading.py:710-713 | the security keys other than the two firewall keys |
| InstanceConfigs.CheckSecurity | paasta_tools/util/config_loading.py:679-719 | passes when security or both firewalls are absent; otherwise passes exactly when both firewalls are valid and no other key is present, with the inbound message first |
| InstanceConfigs.Membership | paasta_tools/util/config_loading.py:733 | Python `in`: key in a dict, element of a list, substring of a string, TypeError otherwise |
| InstanceConfigs.CheckDependenciesReference | paasta_tools/util/config_loading.py:721-741 | passes without a reference; fails without dependencies; otherwise passes exactly when the reference is in them |
| InstanceConfigs.CheckDeployGroup | paasta_tools/util/config_loading.py:777-788 | a None deploy group passes; otherwise the pipeline's errors propagate and a failure carries the "not deploy.yaml" message |
| InstanceConfigs.CheckDeployGroupSpec | paasta_tools/util/config_loading.py:777-788 | passes exactly when the effective deploy group (explicit or branch) is a deploy step of the pipeline |
| InstanceConfigs.Check | paasta_tools/util/config_loading.py:743-758 | each supported name runs its own check (cpus, mem, security, dependencies_reference, deploy_group); unknown names give the unsupported-parameter message; only the last three can raise |
| InstanceConfigs.DiskIsUnsupported | paasta_tools/util/config_loading.py:744-750 | `check("disk")` reports an unsupported parameter |
| InstanceConfigs.Validate | paasta_tools/util/config_loading.py:760-775 | the loop returns the failure messages of the failing checks, in parameter order |
| InstanceConfigs.ValidationSingle | paasta_tools/util/config_loading.py:770-775 | one parameter gives its failure message, nothing, or its error |
| InstanceConfigs.ValidationErrorFirst | paasta_tools/util/config_loading.py:770-775 | an exception raised while validating a prefix is raised for the whole list |
| InstanceConfigs.ValidationAppend | paasta_tools/util/config_loading.py:770-775 | validation does not stop at a failure: `a + b` gives the messages of `a` followed by those of `b` |
| InstanceConfigs.ValidationErrorHasCause | paasta_tools/util/config_loading.py:770-775 | an exception raised by validate is the exception of one of the checks it ran |
| InstanceConfigs.DefaultValidationErrors | paasta_tools/util/config_loading.py:760-775 | with the default parameters, validate raises only what check_security, check_dependencies_reference or check_deploy_group raises |

## Left out

- File and directory access is not modelled: `os.walk`, `os.stat`, `os.access`, `open`, `json.load` and the `service_configuration_lib` reads. Files are input values. A missing soa-configs file reads as `{}`, which is what `read_extra_service_information` returns for it.
- `read_service_configuration` is not modelled; its result is a parameter of `get_pipeline_config`, `check_deploy_group` and `check`.
- `@lru_cache` and `@time_cache` are not modelled, so the cached `get_service_instance_list` is the uncached function.
- Frozenset iteration order is not modelled. `parse_system_paasta_config` iterates a frozenset, so its real order is hash order, not the lexicographic order its caller's docstring claims. The model folds the fragments in the order the `ConfigDirectory` lists them.
- `deep_merge_dictionaries`, `compose_job_id`, `difflib.get_close_matches` and `str.format` are modules outside this model. They are parameters, so nothing is proved about their internals (duplicate-key rejection, scoring, template syntax).
- Float arithmetic is not modelled: `get_mem_swap`, `get_cpu_quota`, the storage size in `format_docker_parameters` and the deployd deadlines. A float is carried as its `repr` text.
- `Values.Repr` does not model Python's escaping inside quoted strings, nor the distinction between `'` and `"` quoting.
- `InstanceConfigs.UnknownSecurityKeys`: lists the unknown keys in dict order, because the order of a Python `set` is not defined. The message they are joined into is therefore not fully determined.
- `InstanceConfigs.Membership`: list membership uses structural equality. It does not model Python's `1 == 1.0 == True`. Dict equality in Python ignores key order, while `Obj` equality does not, so `{"b": 2, "a": 1} in [{"a": 1, "b": 2}]` is true in Python and not in the model.
- `InstanceConfigs.NewInstanceConfig`: the constructor mutates the caller's `config_dict` in place. The model returns the interpolated dict as a value, so aliasing with the caller's dict is not captured. The `_job_id` field, a plain call of `compose_job_id`, is not stored.
- `Naming.GetCodeShaFromDockerurl`: the `except` branch returning "gitUNKNOWN" is not modelled. It needs a non-string url, and the model's url is a string.
- `SystemConfig.GetHacheckSidecarVolumes` requires every volume to be a dict with exactly the three string fields containerPath, hostPath and mode, and raises `WrongShape` for any other volume. Python also accepts volumes that lack `mode`, have extra keys, or have a non-`str` `mode`, and sorts them on all their items and returns them whole. A volume whose containerPath or hostPath is not a string raises in both, because `rstrip` is called on it. A non-empty dict or string as the list raises in both, the model's error standing for Python's TypeError.
- `Overlay.BulkAgreesWithSingle` does not cover an explicit `null` user entry. For such an entry the two loaders differ in the source. `load_service_instance_configs` merges it. `load_service_instance_config` raises NoConfigurationForServiceError. The model keeps both behaviours.
- The `safe_deploy_blacklist` and `safe_deploy_whitelist` coercions are not modelled; the constraint functions take the already coerced values.
- The trivially defaulted getters of `SystemPaastaConfig` and `InstanceConfig` are only `dict.get` with a default, and are not modelled individually; `get_env`, `get_env_dictionary` and `get_docker_url` are among them.
- `get_services_for_cluster`, `load_all_configs`, `list_services`, `list_clusters` and `get_readable_files_in_glob` are not modelled, because they are filesystem enumeration.
- `paasta_tools/paastaapi/models/float_and_error.py` and `paasta_tools/autoscaling/pause_service_autoscaler.py` are not part of this model: one is a generated data-transfer class, the other a network client.
