/**
 * The three handlers together: a region's server goes from stopped to
 * running on a start request, its host name follows the task, and the
 * daily stop takes it down again. Also ties the stack's region table to
 * the publisher's host name labels.
 */
module Lifecycle {
  import opened Wrappers
  import opened Python
  import opened EcsPlatform
  import EcsStart
  import EcsStop
  import Route53
  import DnsPublisher
  import Regions

  /** The stack's host name suffix for a region is the label the publisher uses for it. */
  lemma SuffixIsDnsPrefix(region: string)
    ensures Regions.ConfigFor(region).Ok? <==> DnsPublisher.UrlPrefix(region).Some?
    ensures Regions.ConfigFor(region).Ok? ==>
      Regions.ConfigFor(region).value.hostnameSuffix == DnsPublisher.UrlPrefix(region).value
  {
  }

  // One day of the us-east-1 server, with the addresses of a sample task.
  const Region := "us-east-1"
  const TaskEni := "eni-0e0750b47eb5d7062"
  const TaskIp := "203.0.113.5"
  const Interfaces: map<string, Option<string>> := map[TaskEni := Some(TaskIp)]

  const StartRequest: map<string, Value> :=
    map["resource" := Str("/start/{region}"), "pathParameters" := Dict(map["region" := Str(Region)])]
  const Schedule: map<string, Value> := map["detail-type" := Str("Scheduled Event"), "region" := Str(Region)]
  const TaskDetails := [DnsPublisher.KeyPair("subnetId", "subnet-123"), DnsPublisher.KeyPair("networkInterfaceId", TaskEni)]
  const RunningTask := DnsPublisher.TaskStateChange(Region, "RUNNING", "RUNNING", [DnsPublisher.Attachment(TaskDetails)])
  const StoppingTask := DnsPublisher.TaskStateChange(Region, "STOPPED", "STOPPED", [])

  function Host(zoneName: string): string {
    "na." + zoneName
  }

  lemma RegionHost(zoneName: string)
    ensures DnsPublisher.UrlFor(Region, zoneName) == Some(Host(zoneName))
  {
    assert "na" + "." == "na.";
  }

  /** A start request for a stopped region scales it to one task. */
  lemma StartFromStopped(failure: Exception, now: string)
    ensures EcsStart.StartOutcome(StartRequest, EcsState(map[Region := 0], {}, [], failure), now).1
         == EcsState(map[Region := 1], {}, [Update(Region, 1)], failure)
    ensures EcsStart.StartOutcome(StartRequest, EcsState(map[Region := 0], {}, [], failure), now).0.body
         == EcsStart.RequestedMessage
  {
  }

  /** The running task's address is published under the region's name. */
  lemma PublishRunning(zoneName: string)
    ensures DnsPublisher.TaskChangeOutcome(RunningTask, Route53.Zone(map[], []), Interfaces, zoneName)
         == (Route53.Zone(map[Host(zoneName) := DnsPublisher.ARecord(Host(zoneName), TaskIp)],
                          [DnsPublisher.BatchFor(Route53.Upsert, Host(zoneName), TaskIp)]),
             Ok(()))
  {
    RegionHost(zoneName);
    assert DnsPublisher.LastInterfaceId(TaskDetails) == Some(TaskEni);
    assert DnsPublisher.PublicIpOf(RunningTask, Interfaces) == Ok(TaskIp);
    assert DnsPublisher.IsRunning(RunningTask);
    var r := DnsPublisher.TaskChangeOutcome(RunningTask, Route53.Zone(map[], []), Interfaces, zoneName);
    assert r.1.Ok?;
    assert r.0.records == map[][Host(zoneName) := DnsPublisher.ARecord(Host(zoneName), TaskIp)];
    assert r.0.history == [DnsPublisher.BatchFor(Route53.Upsert, Host(zoneName), TaskIp)];
  }

  /** The scheduled stop scales the running region back to zero. */
  lemma StopRunning(failure: Exception)
    ensures EcsStop.StopOutcome(Schedule, EcsState(map[Region := 1], {}, [Update(Region, 1)], failure)).1.desired
         == map[Region := 0]
    ensures EcsStop.StopOutcome(Schedule, EcsState(map[Region := 1], {}, [Update(Region, 1)], failure)).0.body
         == EcsStop.StopMessage
  {
  }

  /** The stopping task's record is overwritten with the placeholder and deleted. */
  lemma RetractStopping(zoneName: string, z: Route53.Zone)
    ensures DnsPublisher.TaskChangeOutcome(StoppingTask, z, Interfaces, zoneName)
         == (Route53.Zone(z.records - {Host(zoneName)},
                          z.history + [DnsPublisher.BatchFor(Route53.Upsert, Host(zoneName), DnsPublisher.Placeholder),
                                       DnsPublisher.BatchFor(Route53.Delete, Host(zoneName), DnsPublisher.Placeholder)]),
             Ok(()))
  {
    RegionHost(zoneName);
    assert DnsPublisher.Running != DnsPublisher.Stopped;
    assert !DnsPublisher.IsRunning(StoppingTask);
  }

  /**
   * One day of a region's server, from a stopped service and an empty zone:
   * an API start request scales it to one task; the running task's address
   * is published under the region's name; the scheduled stop scales it to
   * zero; the stopping task's record is overwritten and deleted, leaving the
   * zone empty.
   */
  lemma {:induction false} OneDay(failure: Exception, zoneName: string, now: string)
    ensures
      var started := EcsStart.StartOutcome(StartRequest, EcsState(map[Region := 0], {}, [], failure), now);
      var published := DnsPublisher.TaskChangeOutcome(RunningTask, Route53.Zone(map[], []), Interfaces, zoneName);
      var stopped := EcsStop.StopOutcome(Schedule, started.1);
      var retracted := DnsPublisher.TaskChangeOutcome(StoppingTask, published.0, Interfaces, zoneName);
      && started.0.body == EcsStart.RequestedMessage && started.1.desired == map[Region := 1]
      && published.1.Ok? && published.0.records == map[Host(zoneName) := DnsPublisher.ARecord(Host(zoneName), TaskIp)]
      && stopped.0.body == EcsStop.StopMessage && stopped.1.desired == map[Region := 0]
      && retracted.1.Ok? && retracted.0.records == map[]
      && retracted.0.history == [
           DnsPublisher.BatchFor(Route53.Upsert, Host(zoneName), TaskIp),
           DnsPublisher.BatchFor(Route53.Upsert, Host(zoneName), DnsPublisher.Placeholder),
           DnsPublisher.BatchFor(Route53.Delete, Host(zoneName), DnsPublisher.Placeholder)]
  {
    StartFromStopped(failure, now);
    StopRunning(failure);
    PublishRunning(zoneName);
    var host := Host(zoneName);
    var published := Route53.Zone(map[host := DnsPublisher.ARecord(host, TaskIp)],
                                  [DnsPublisher.BatchFor(Route53.Upsert, host, TaskIp)]);
    RetractStopping(zoneName, published);
    assert published.records - {host} == map[];
  }
}
