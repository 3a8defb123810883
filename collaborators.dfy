/** The exceptions the configuration code raises, and everything it takes
    from modules that are not part of this model: constants from
    `paasta_tools.util.const`, `deep_merge_dictionaries`, `compose_job_id`,
    `difflib.get_close_matches` and `str.format`. */
module Collaborators {
  import opened Results
  import opened Values

  /** The exception classes a caller can see. */
  datatype Error =
      /** PaastaNotConfiguredError */
    | NotConfigured(message: string)
      /** NoConfigurationForServiceError */
    | NoConfigurationForService(message: string)
      /** InvalidJobNameError */
    | InvalidJobName(message: string)
      /** InvalidInstanceConfig */
    | InvalidInstanceConfig(message: string)
      /** whatever deep_merge_dictionaries raises (for example on a duplicate key) */
    | MergeFailed(message: string)
      /** a parse error of a system configuration fragment */
    | MalformedFragment(filename: string, reason: string)
      /** an IOError raised while opening a system configuration fragment */
    | IOFailed(filename: string, strerror: string)
      /** what str.format raises on a bad template */
    | FormatFailed(template: string)
      /** a TypeError, AttributeError, KeyError or ValueError raised because a
          configuration value does not have the shape the code expects */
    | WrongShape(what: string)

  /** The result of deep_merge_dictionaries: the merged dict or its exception. */
  datatype MergeOutcome = Merged(dict: Dict) | MergeError(message: string)

  datatype Externals = Externals(
    /** INSTANCE_TYPES, in their fixed order */
    instanceTypes: seq<string>,
    /** DEPLOY_PIPELINE_NON_DEPLOY_STEPS */
    nonDeploySteps: seq<string>,
    /** SPACER */
    spacer: string,
    /** AUTO_SOACONFIG_SUBDIR */
    autoSubdir: string,
    /** deep_merge_dictionaries(overrides, defaults, allow_duplicate_keys) */
    deepMerge: (Value, Value, bool) -> MergeOutcome,
    /** the default of allow_duplicate_keys in deep_merge_dictionaries */
    mergeDefaultAllowsDuplicates: bool,
    /** compose_job_id(service, instance) */
    composeJobId: (string, string) -> string,
    /** difflib.get_close_matches(word, possibilities, n) */
    closeMatches: (string, set<string>, nat) -> seq<string>,
    /** template.format(**facts), or None when it raises */
    format: (string, map<string, string>) -> Option<string>
  )

  /** The parsed files under the service directory root, keyed by service and
      by the file's name without extension (`marathon-norcal`,
      `autotuned_defaults/marathon-norcal`). */
  type SoaTree = map<(string, string), Dict>

  /** service_configuration_lib.read_extra_service_information: a missing
      file reads as an empty dict. */
  function ReadExtraServiceInformation(soa: SoaTree, service: string, name: string): Dict
  {
    if (service, name) in soa then soa[(service, name)] else []
  }
}
