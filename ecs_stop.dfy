/**
 * The scheduled stop handler: picks the region (the event's own for a
 * scheduled event, us-east-1 otherwise), reads the service, then sets its
 * desired count to 0 whatever it was. It always answers 200 with a text body.
 */
module EcsStop {
  import opened Wrappers
  import opened Python
  import opened Lambda
  import opened EcsPlatform

  const DefaultRegion := "us-east-1"
  const ScheduledEvent := "Scheduled Event"
  const StopMessage := "Server is being taken " + "down by a scheduled event."
  /** The failure text, which says "add" in this handler too. */
  const StopFailurePrefix := "Failed to add a server\n"

  /** `event.get("detail-type", "Unknown") == "Scheduled Event"` */
  predicate IsScheduled(event: map<string, Value>) {
    "detail-type" in event && event["detail-type"] == Str(ScheduledEvent)
  }

  /**
   * The region choice. A region value that is not a string is refused when
   * the ECS client is created for it.
   */
  function StopRegion(event: map<string, Value>): (r: Result<string, Exception>)
    ensures !IsScheduled(event) ==> r == Ok(DefaultRegion)
    ensures IsScheduled(event) ==> (r.Ok? <==> "region" in event && event["region"].Str?)
    ensures IsScheduled(event) && r.Ok? ==> event["region"] == Str(r.value)
    ensures IsScheduled(event) && "region" !in event ==> r == Err(KeyError("region"))
  {
    if Get(event, "detail-type", Str("Unknown")) == Str(ScheduledEvent) then
      if "region" !in event then Err(KeyError("region"))
      else match event["region"]
        case Str(region) => Ok(region)
        case _ => Err(TypeError("expected string or bytes-like object"))
    else
      Ok(DefaultRegion)
  }

  /** The body: the stop message, or the failure text with the exception's type and arguments. */
  function StopBody(outcome: Result<(), Exception>): string {
    match outcome
    case Ok(_) => StopMessage
    case Err(e) => StopFailurePrefix + Report(e)
  }

  /** The region has the service and accepts updates. */
  predicate CanScaleDown(s: EcsState, region: string) {
    region in s.desired && region !in s.rejects
  }

  /** What one stop invocation answers and leaves behind in ECS. */
  function StopOutcome(event: map<string, Value>, s: EcsState): (r: (Response, EcsState))
    ensures r.0.statusCode == 200 && r.0.headers == TextPlain
    ensures r.1.desired.Keys == s.desired.Keys && r.1.rejects == s.rejects && r.1.failure == s.failure
    ensures WithinCap(s.desired) ==> WithinCap(r.1.desired)
    ensures r.0.body == StopMessage <==> StopRegion(event).Ok? && CanScaleDown(s, StopRegion(event).value)
    ensures r.0.body == StopMessage ==> r.1.desired == s.desired[StopRegion(event).value := 0]
    ensures r.0.body != StopMessage ==>
      r.1.desired == s.desired
      && r.0.body == StopFailurePrefix + Report(if StopRegion(event).Err? then StopRegion(event).error else s.failure)
    ensures r.1.updates ==
      if StopRegion(event).Ok? && StopRegion(event).value in s.desired
      then s.updates + [Update(StopRegion(event).value, 0)]
      else s.updates
  {
    match StopRegion(event)
    case Err(e) =>
      assert StopFailurePrefix + Report(e) != StopMessage;
      (TextResponse(StopBody(Err(e))), s)
    case Ok(region) =>
      match Describe(s, region)
      case Err(e) =>
        assert StopFailurePrefix + Report(e) != StopMessage;
        (TextResponse(StopBody(Err(e))), s)
      case Ok(_) =>
        var updated := ApplyUpdate(s, region, 0);
        if updated.1.Err? then assert StopFailurePrefix + Report(updated.1.error) != StopMessage; (TextResponse(StopBody(updated.1)), updated.0)
        else (TextResponse(StopBody(updated.1)), updated.0)
  }

  /** The handler itself: choose the region, describe, then set the count to 0. */
  method HandleStop(event: map<string, Value>, ecs: Ecs) returns (response: Response)
    modifies ecs
    ensures (response, ecs.State()) == StopOutcome(event, old(ecs.State()))
  {
    var outcome: Result<(), Exception>;
    var region := StopRegion(event);
    if region.Err? {
      outcome := Err(region.error);
    } else {
      var current := ecs.DescribeServices(region.value);
      if current.Err? {
        outcome := Err(current.error);
      } else {
        outcome := ecs.UpdateService(region.value, 0);
      }
    }
    response := TextResponse(StopBody(outcome));
  }

  /** Stopping twice answers as stopping once and leaves the same desired counts. */
  lemma StopIdempotent(event: map<string, Value>, s: EcsState)
    ensures var once := StopOutcome(event, s);
      var twice := StopOutcome(event, once.1);
      twice.0 == once.0 && twice.1.desired == once.1.desired
  {
  }
}
