/**
 * The start handler: works out which region an API Gateway call or a direct
 * invoke addresses, reads that region's desired count and, below the cap,
 * asks ECS for one more task. Whatever happens it answers 200 with a text body.
 */
module EcsStart {
  import opened Wrappers
  import opened Python
  import opened Lambda
  import opened EcsPlatform
  import Text

  const ApiResource := "/start/{region}"
  /** The ValueError text, spelled as in the handler. */
  const UnknownInvocation := "Uknown invocation event!"
  const RequestedMessage := "Server requested. Takes about 2 minutes."
  // Long literals are split so that the verifier sees their characters.
  const AtCapacityMessage := "Maximum number of servers " + "is already in flight for this region."
  const FailurePrefix := "Failed to add a server. UTC time: "

  /** `event.get("resource", "Unknown") == "/start/{region}"` */
  predicate IsApiCall(event: map<string, Value>) {
    "resource" in event && event["resource"] == Str(ApiResource)
  }

  /** `event.get("event", "increment")` is truthy: the key is absent, or its value is truthy. */
  predicate InvokeFlagSet(event: map<string, Value>) {
    "event" !in event || Truthy(event["event"])
  }

  /** `"Incrementing ... " + region`: only a string can be concatenated. */
  function LoggedRegion(v: Value): Result<string, Exception> {
    match v
    case Str(s) => Ok(s)
    case _ => Err(TypeError("can only concatenate str (not \"" + TypeName(v) + "\") to str"))
  }

  /**
   * The API branch: `"region" in params` and `params["region"]`. A missing
   * region leaves the variable unassigned until the ECS client reads it.
   */
  function PathRegion(params: Value): Result<string, Exception> {
    match params
    case Dict(m) =>
      if "region" in m then LoggedRegion(m["region"]) else Err(UnboundLocalError("region"))
    case Str(s) =>
      if Text.Contains(s, "region") then Err(TypeError("string indices must be integers"))
      else Err(UnboundLocalError("region"))
    case List(items) =>
      if Str("region") in items then Err(TypeError("list indices must be integers or slices, not str"))
      else Err(UnboundLocalError("region"))
    case _ => Err(TypeError("argument of type '" + TypeName(params) + "' is not iterable"))
  }

  /** The event classification: which region the invocation addresses, or what it raises. */
  function StartRegion(event: map<string, Value>): (r: Result<string, Exception>)
    ensures IsApiCall(event) ==>
      (r.Ok? <==> "pathParameters" in event && event["pathParameters"].Dict?
                  && "region" in event["pathParameters"].entries
                  && event["pathParameters"].entries["region"].Str?)
    ensures IsApiCall(event) && r.Ok? ==> event["pathParameters"].entries["region"] == Str(r.value)
    ensures !IsApiCall(event) && InvokeFlagSet(event) ==>
      (r.Ok? <==> "region" in event && event["region"].Str?)
    ensures !IsApiCall(event) && InvokeFlagSet(event) && r.Ok? ==> event["region"] == Str(r.value)
    ensures r == Err(ValueError(UnknownInvocation)) <==> !IsApiCall(event) && !InvokeFlagSet(event)
  {
    if Get(event, "resource", Str("Unknown")) == Str(ApiResource) then
      if "pathParameters" in event then PathRegion(event["pathParameters"])
      else Err(KeyError("pathParameters"))
    else if Truthy(Get(event, "event", Str("increment"))) then
      if "region" in event then LoggedRegion(event["region"]) else Err(KeyError("region"))
    else
      Err(ValueError(UnknownInvocation))
  }

  /** The region has the service, is below the cap, and accepts updates. */
  predicate CanScaleUp(s: EcsState, region: string) {
    region in s.desired && s.desired[region] < MaxCount && region !in s.rejects
  }

  /** The region has the service and is already at the cap. */
  predicate AtCapacity(s: EcsState, region: string) {
    region in s.desired && s.desired[region] >= MaxCount
  }

  lemma MessagesDiffer(now: string)
    ensures FailurePrefix + now != RequestedMessage
    ensures FailurePrefix + now != AtCapacityMessage
    ensures RequestedMessage != AtCapacityMessage
  {
    assert (FailurePrefix + now)[0] == 'F';
    assert RequestedMessage[0] == 'S';
    assert AtCapacityMessage[0] == 'M';
  }

  /**
   * What one start invocation answers and leaves behind in ECS, given the
   * platform's state before and the formatted time of day `now`.
   */
  function StartOutcome(event: map<string, Value>, s: EcsState, now: string): (r: (Response, EcsState))
    ensures r.0.statusCode == 200 && r.0.headers == TextPlain
    ensures r.1.desired.Keys == s.desired.Keys && r.1.rejects == s.rejects && r.1.failure == s.failure
    ensures WithinCap(s.desired) ==> WithinCap(r.1.desired)
    ensures r.0.body == RequestedMessage || r.0.body == AtCapacityMessage || r.0.body == FailurePrefix + now
    ensures r.0.body == RequestedMessage <==> StartRegion(event).Ok? && CanScaleUp(s, StartRegion(event).value)
    ensures r.0.body == RequestedMessage ==>
      var region := StartRegion(event).value;
      r.1.desired == s.desired[region := s.desired[region] + 1]
      && r.1.updates == s.updates + [Update(region, s.desired[region] + 1)]
    ensures r.0.body == AtCapacityMessage <==> StartRegion(event).Ok? && AtCapacity(s, StartRegion(event).value)
    ensures r.0.body == AtCapacityMessage ==> r.1 == s
    ensures r.0.body != RequestedMessage ==> r.1.desired == s.desired
    ensures |s.updates| <= |r.1.updates| <= |s.updates| + 1 && r.1.updates[..|s.updates|] == s.updates
    ensures |r.1.updates| != |s.updates| ==>
      StartRegion(event).Ok? &&
      var region := StartRegion(event).value;
      region in s.desired && s.desired[region] < MaxCount
      && r.1.updates[|s.updates|] == Update(region, s.desired[region] + 1)
  {
    MessagesDiffer(now);
    match StartRegion(event)
    case Err(_) => (TextResponse(FailurePrefix + now), s)
    case Ok(region) =>
      match Describe(s, region)
      case Err(_) => (TextResponse(FailurePrefix + now), s)
      case Ok(count) =>
        if count < MaxCount then
          var updated := ApplyUpdate(s, region, count + 1);
          (TextResponse(if updated.1.Ok? then RequestedMessage else FailurePrefix + now), updated.0)
        else
          (TextResponse(AtCapacityMessage), s)
  }

  /** The handler itself: classify, describe, then update only below the cap. */
  method HandleStart(event: map<string, Value>, ecs: Ecs, now: string) returns (response: Response)
    modifies ecs
    ensures (response, ecs.State()) == StartOutcome(event, old(ecs.State()), now)
  {
    var message: string;
    var region := StartRegion(event);
    if region.Err? {
      message := FailurePrefix + now;
    } else {
      var current := ecs.DescribeServices(region.value);
      if current.Err? {
        message := FailurePrefix + now;
      } else {
        var desiredCount := current.value;
        if desiredCount < MaxCount {
          desiredCount := desiredCount + 1;
          var updated := ecs.UpdateService(region.value, desiredCount);
          message := if updated.Ok? then RequestedMessage else FailurePrefix + now;
        } else {
          message := AtCapacityMessage;
        }
      }
    }
    response := TextResponse(message);
  }
}
