/**
 * The per-region settings of a game-server stack: the host name suffix and
 * the hour of the daily stop, the HOSTNAME tag given to the server, the
 * role names built from the suffix, and the ARN of the region's service.
 */
module Regions {
  import opened Wrappers
  import opened Python
  import Text

  datatype RegionConfig = RegionConfig(hostnameSuffix: string, morningHour: nat)

  const KnownRegions: set<string> := {"us-east-1", "sa-east-1", "eu-west-2"}

  /** What the stack raises for a region it has no settings for. */
  const UnknownRegion := Exception("Exception", [Quote("Unknown region.")])

  /** The region table; the hour is UTC and becomes the hour field of the stop schedule. */
  function ConfigFor(region: string): (r: Result<RegionConfig, Exception>)
    ensures r.Ok? <==> region in KnownRegions
    ensures r.Err? ==> r.error == UnknownRegion
    ensures r.Ok? ==> 0 <= r.value.morningHour <= 23 && |r.value.hostnameSuffix| == 2
    ensures region == "us-east-1" ==> r == Ok(RegionConfig("na", 8))
    ensures region == "sa-east-1" ==> r == Ok(RegionConfig("sa", 9))
    ensures region == "eu-west-2" ==> r == Ok(RegionConfig("eu", 3))
  {
    if region == "us-east-1" then Ok(RegionConfig("na", 8))
    else if region == "sa-east-1" then Ok(RegionConfig("sa", 9))
    else if region == "eu-west-2" then Ok(RegionConfig("eu", 3))
    else Err(UnknownRegion)
  }

  // Both role names share "rtcwdemand-"; the literals are split so that the
  // verifier sees the characters after it.
  const R53RolePrefix := "rtcwdemand-" + "r53-lambda-role-"
  const DecrementRolePrefix := "rtcwdemand-" + "ecsdecrement-lambda-role-"

  /** Names built as a fixed prefix plus the suffix differ between any two known regions. */
  lemma {:induction false} SuffixedNamesDistinct(base: string, r1: string, r2: string)
    requires r1 in KnownRegions && r2 in KnownRegions && r1 != r2
    ensures ConfigFor(r1).value.hostnameSuffix != ConfigFor(r2).value.hostnameSuffix
    ensures base + ConfigFor(r1).value.hostnameSuffix != base + ConfigFor(r2).value.hostnameSuffix
  {
    var s1, s2 := ConfigFor(r1).value.hostnameSuffix, ConfigFor(r2).value.hostnameSuffix;
    assert (base + s1)[|base|..] == s1;
    assert (base + s2)[|base|..] == s2;
  }

  /**
   * The names of the DNS publisher's role and the stop handler's role. No two
   * known regions share a role name of either kind, and a DNS publisher role
   * never bears the name of a stop handler role.
   */
  lemma {:induction false} RoleNamesDistinct(r1: string, r2: string)
    requires r1 in KnownRegions && r2 in KnownRegions
    ensures R53RolePrefix + ConfigFor(r1).value.hostnameSuffix != DecrementRolePrefix + ConfigFor(r2).value.hostnameSuffix
    ensures r1 != r2 ==> R53RolePrefix + ConfigFor(r1).value.hostnameSuffix != R53RolePrefix + ConfigFor(r2).value.hostnameSuffix
    ensures r1 != r2 ==> DecrementRolePrefix + ConfigFor(r1).value.hostnameSuffix != DecrementRolePrefix + ConfigFor(r2).value.hostnameSuffix
  {
    var s1, s2 := ConfigFor(r1).value.hostnameSuffix, ConfigFor(r2).value.hostnameSuffix;
    assert (R53RolePrefix + s1)[11] == 'r';
    assert (DecrementRolePrefix + s2)[11] == 'e';
    if r1 != r2 {
      SuffixedNamesDistinct(R53RolePrefix, r1, r2);
      SuffixedNamesDistinct(DecrementRolePrefix, r1, r2);
    }
  }

  /**
   * `env_vars["HOSTNAME"] += " " + suffix.upper()`: the server name gains a
   * space and the upper-cased suffix; no other variable changes.
   */
  function TagHostname(env: map<string, string>, suffix: string): (r: Result<map<string, string>, Exception>)
    ensures r.Ok? <==> "HOSTNAME" in env
    ensures r.Err? ==> r.error == KeyError("HOSTNAME")
    ensures r.Ok? ==> r.value.Keys == env.Keys
    ensures r.Ok? ==> forall k :: k in env && k != "HOSTNAME" ==> r.value[k] == env[k]
    ensures r.Ok? ==>
      var old_, new_ := env["HOSTNAME"], r.value["HOSTNAME"];
      |new_| == |old_| + 1 + |suffix| && new_[..|old_|] == old_ && new_[|old_|] == ' '
      && new_[|old_| + 1..] == Text.Upper(suffix)
  {
    if "HOSTNAME" in env then
      var tagged := env["HOSTNAME"] + " " + Text.Upper(suffix);
      assert tagged[|env["HOSTNAME"]| + 1..] == Text.Upper(suffix);
      Ok(env["HOSTNAME":= tagged])
    else
      Err(KeyError("HOSTNAME"))
  }

  /** The tag each known region gives the server name. */
  lemma {:induction false} RegionTags(env: map<string, string>)
    requires "HOSTNAME" in env
    ensures TagHostname(env, ConfigFor("us-east-1").value.hostnameSuffix) == Ok(env["HOSTNAME" := env["HOSTNAME"] + " NA"])
    ensures TagHostname(env, ConfigFor("sa-east-1").value.hostnameSuffix) == Ok(env["HOSTNAME" := env["HOSTNAME"] + " SA"])
    ensures TagHostname(env, ConfigFor("eu-west-2").value.hostnameSuffix) == Ok(env["HOSTNAME" := env["HOSTNAME"] + " EU"])
  {
    var h := env["HOSTNAME"];
    assert Text.Upper("na") == "NA" && h + " " + "NA" == h + " NA";
    assert Text.Upper("sa") == "SA" && h + " " + "SA" == h + " SA";
    assert Text.Upper("eu") == "EU" && h + " " + "EU" == h + " EU";
  }

  const ArnPrefix := "arn:aws:ecs:"

  /** Everything after the region: the account and the cluster/service path. */
  function ArnTail(account: string, cluster: string, service: string): string {
    ":" + account + ":service/" + cluster + "/" + service
  }

  /**
   * The ARN of the game service in `region`. The ensures exposes the split
   * into a fixed prefix, the region and a tail that does not depend on the
   * region, which is what ServiceArnInjective and ListClusters rely on.
   */
  function ServiceArn(region: string, account: string, cluster: string, service: string): (arn: string)
    ensures arn == ArnPrefix + region + ArnTail(account, cluster, service)
  {
    "arn:aws:ecs:" + region + ":" + account + ":service/" + cluster + "/" + service
  }

  /** With account, cluster and service fixed, the ARN tells the region. */
  lemma {:induction false} ServiceArnInjective(r1: string, r2: string, account: string, cluster: string, service: string)
    requires ServiceArn(r1, account, cluster, service) == ServiceArn(r2, account, cluster, service)
    ensures r1 == r2
  {
    var tail := ArnTail(account, cluster, service);
    var a1, a2 := ArnPrefix + r1 + tail, ArnPrefix + r2 + tail;
    assert |r1| == |r2|;
    assert a1[|ArnPrefix|..|ArnPrefix| + |r1|] == r1;
    assert a2[|ArnPrefix|..|ArnPrefix| + |r2|] == r2;
  }
}
