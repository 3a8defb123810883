/** Scheduling constraints built from deploy blacklists and whitelists, and
    the stringification of user-written constraints. */
module Constraints {
  import opened Results
  import opened PyStrings
  import opened Values

  /** A constraint: `[attribute, operator, value]`. */
  type Constraint = seq<string>

  /** DeployBlacklist: `(location_type, location)` pairs. */
  type DeployBlacklist = seq<(string, string)>

  /** DeployWhitelist: `None` or `(location_type, [allowed value, ...])`. */
  type DeployWhitelist = Option<(string, seq<string>)>

  /** The constraint one blacklisted location becomes. */
  function UnlikeConstraint(entry: (string, string)): Constraint
  {
    [entry.0, "UNLIKE", entry.1]
  }

  /** What deploy_blacklist_to_constraints returns, one entry at a time. */
  function BlacklistConstraints(blacklist: DeployBlacklist): (r: seq<Constraint>)
    ensures |r| == |blacklist|
    ensures forall i :: 0 <= i < |r| ==> r[i] == UnlikeConstraint(blacklist[i])
  {
    if blacklist == [] then [] else [UnlikeConstraint(blacklist[0])] + BlacklistConstraints(blacklist[1..])
  }

  /** deploy_blacklist_to_constraints: the loop appending one UNLIKE
      constraint per blacklisted location. */
  method DeployBlacklistToConstraints(blacklist: DeployBlacklist) returns (constraints: seq<Constraint>)
    ensures constraints == BlacklistConstraints(blacklist)
  {
    constraints := [];
    for i := 0 to |blacklist|
      invariant |constraints| == i
      invariant forall k :: 0 <= k < i ==> constraints[k] == UnlikeConstraint(blacklist[k])
    {
      constraints := constraints + [UnlikeConstraint(blacklist[i])];
    }
  }

  /** deploy_whitelist_to_constraints. */
  function DeployWhitelistToConstraints(whitelist: DeployWhitelist): (r: seq<Constraint>)
    ensures whitelist.None? <==> r == []
    ensures whitelist.Some? ==> |r| == 1 && |r[0]| == 3 && r[0][0] == whitelist.value.0 && r[0][1] == "LIKE"
  {
    match whitelist
    case None => []
    case Some((regionType, regions)) => [[regionType, "LIKE", Join("|", regions)]]
  }

  /** The LIKE value lists the allowed regions: splitting it on "|" gives
      them back when no region name contains "|". */
  lemma WhitelistRegionsRecoverable(regionType: string, regions: seq<string>)
    requires |regions| >= 1
    requires forall k :: 0 <= k < |regions| ==> '|' !in regions[k]
    ensures Split(DeployWhitelistToConstraints(Some((regionType, regions)))[0][2], '|') == regions
  {
    SplitJoin(regions, '|');
  }

  /** InstanceConfig.get_deploy_constraints: the instance's blacklist, its
      whitelist, the system blacklist and the system whitelist, in that order. */
  function GetDeployConstraints(
    blacklist: DeployBlacklist, whitelist: DeployWhitelist,
    systemBlacklist: DeployBlacklist, systemWhitelist: DeployWhitelist): (r: seq<Constraint>)
    ensures var w := if whitelist.Some? then 1 else 0;
      var sw := if systemWhitelist.Some? then 1 else 0;
      |r| == |blacklist| + w + |systemBlacklist| + sw
      && r[..|blacklist|] == BlacklistConstraints(blacklist)
      && r[|blacklist|..|blacklist| + w] == DeployWhitelistToConstraints(whitelist)
      && r[|blacklist| + w..|blacklist| + w + |systemBlacklist|] == BlacklistConstraints(systemBlacklist)
      && r[|blacklist| + w + |systemBlacklist|..] == DeployWhitelistToConstraints(systemWhitelist)
  {
    BlacklistConstraints(blacklist) + DeployWhitelistToConstraints(whitelist)
    + BlacklistConstraints(systemBlacklist) + DeployWhitelistToConstraints(systemWhitelist)
  }

  /** Every deploy constraint has three cells, and its operator is UNLIKE
      exactly at the positions of the two blacklists and LIKE elsewhere. */
  lemma DeployConstraintOperators(
    blacklist: DeployBlacklist, whitelist: DeployWhitelist,
    systemBlacklist: DeployBlacklist, systemWhitelist: DeployWhitelist)
    ensures var r := GetDeployConstraints(blacklist, whitelist, systemBlacklist, systemWhitelist);
      var a := |blacklist|;
      var w := if whitelist.Some? then 1 else 0;
      var b := a + w + |systemBlacklist|;
      forall i :: 0 <= i < |r| ==>
        |r[i]| == 3
        && (r[i][1] == "UNLIKE" || r[i][1] == "LIKE")
        && (r[i][1] == "UNLIKE" <==> (i < a || a + w <= i < b))
  {
    var r := GetDeployConstraints(blacklist, whitelist, systemBlacklist, systemWhitelist);
    var w := if whitelist.Some? then 1 else 0;
    var a := |blacklist|;
    var b := a + w + |systemBlacklist|;
    forall i | 0 <= i < |r|
      ensures |r[i]| == 3 && (r[i][1] == "UNLIKE" || r[i][1] == "LIKE")
        && (r[i][1] == "UNLIKE" <==> (i < a || a + w <= i < b))
    {
      if i < a { assert r[i] == r[..a][i]; }
      else if i < a + w { assert r[i] == r[a..a + w][i - a]; }
      else if i < b { assert r[i] == r[a + w..b][i - a - w]; }
      else { assert r[i] == r[b..][i - b]; }
    }
  }

  /** stringify_constraint: `str` of every cell. */
  function StringifyConstraint(usc: seq<Value>): (c: Constraint)
    ensures |c| == |usc|
    ensures forall k :: 0 <= k < |usc| ==> c[k] == Show(usc[k])
  {
    if usc == [] then [] else [Show(usc[0])] + StringifyConstraint(usc[1..])
  }

  /** stringify_constraints: `None` stays `None`, otherwise every constraint
      is stringified cell by cell. */
  function StringifyConstraints(uscs: Option<seq<seq<Value>>>): (r: Option<seq<Constraint>>)
    ensures uscs.None? <==> r.None?
    ensures uscs.Some? ==>
      |r.value| == |uscs.value|
      && forall i :: 0 <= i < |uscs.value| ==> r.value[i] == StringifyConstraint(uscs.value[i])
  {
    match uscs
    case None => None
    case Some(cs) => Some(seq(|cs|, i requires 0 <= i < |cs| => StringifyConstraint(cs[i])))
  }

  /** Constraints already written as strings come back unchanged. */
  lemma StringifyKeepsStrings(uscs: seq<seq<Value>>)
    requires forall i, k :: 0 <= i < |uscs| && 0 <= k < |uscs[i]| ==> uscs[i][k].Str?
    ensures var r := StringifyConstraints(Some(uscs)).value;
      forall i, k :: 0 <= i < |uscs| && 0 <= k < |uscs[i]| ==> r[i][k] == uscs[i][k].s
  {
  }
}
