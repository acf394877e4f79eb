/**
 * ECS as the two capacity handlers see it: one game service per region,
 * with a desired task count that only `update_service` changes. The
 * platform is abstract; what it does on each call is stated here.
 */
module EcsPlatform {
  import opened Wrappers
  import opened Python

  /** The cap on a region's desired count (`max_count` in both handlers). */
  const MaxCount: nat := 1

  /** One `update_service` request: set the service in `region` to `desiredCount` tasks. */
  datatype Update = Update(region: string, desiredCount: nat)

  /**
   * The platform's state: the desired count of every region whose service
   * can be described, the regions where `update_service` fails, every
   * update request received (oldest first), and what a failing call raises.
   */
  datatype EcsState = EcsState(
    desired: map<string, nat>,
    rejects: set<string>,
    updates: seq<Update>,
    failure: Exception)

  /** No region's desired count is above the cap. */
  predicate WithinCap(desired: map<string, nat>) {
    forall region :: region in desired ==> desired[region] <= MaxCount
  }

  /** `describe_services(...)["services"][0]["desiredCount"]`: fails for a region without the service. */
  function Describe(s: EcsState, region: string): Result<nat, Exception> {
    if region in s.desired then Ok(s.desired[region]) else Err(s.failure)
  }

  /** `update_service(..., desiredCount=count)`: recorded, and applied unless the region refuses it. */
  function ApplyUpdate(s: EcsState, region: string, count: nat): (EcsState, Result<(), Exception>) {
    var log := s.updates + [Update(region, count)];
    if region in s.desired && region !in s.rejects
    then (s.(desired := s.desired[region := count], updates := log), Ok(()))
    else (s.(updates := log), Err(s.failure))
  }

  /** The platform object the handlers' ECS client talks to. */
  class Ecs {
    var desired: map<string, nat>
    var rejects: set<string>
    var updates: seq<Update>
    const failure: Exception

    function State(): EcsState
      reads this
    {
      EcsState(desired, rejects, updates, failure)
    }

    constructor (desired: map<string, nat>, rejects: set<string>, failure: Exception)
      ensures State() == EcsState(desired, rejects, [], failure)
    {
      this.desired := desired;
      this.rejects := rejects;
      this.updates := [];
      this.failure := failure;
    }

    /** Reads the service's desired count; changes nothing. */
    method DescribeServices(region: string) returns (r: Result<nat, Exception>)
      ensures r.Ok? <==> region in desired
      ensures r.Ok? ==> r.value == desired[region]
      ensures r.Err? ==> r.error == failure
    {
      if region in desired {
        r := Ok(desired[region]);
      } else {
        r := Err(failure);
      }
    }

    /** Records the request; sets the count when the region has the service and accepts updates. */
    method UpdateService(region: string, count: nat) returns (r: Result<(), Exception>)
      modifies this
      ensures (State(), r) == ApplyUpdate(old(State()), region, count)
      ensures r.Ok? <==> region in old(desired) && region !in old(rejects)
      ensures desired == if r.Ok? then old(desired)[region := count] else old(desired)
      ensures updates == old(updates) + [Update(region, count)]
      ensures rejects == old(rejects)
    {
      updates := updates + [Update(region, count)];
      if region in desired && region !in rejects {
        desired := desired[region := count];
        r := Ok(());
      } else {
        r := Err(failure);
      }
    }
  }
}
