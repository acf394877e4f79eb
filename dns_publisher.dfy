/**
 * The DNS publisher: on every ECS task state change in a region it keeps
 * that region's host name in step with the task. When the task is fully
 * running it points the name at the task's public address; when the task
 * is to stop it overwrites the record with a placeholder address and then
 * deletes it, since Route 53 deletes only a record whose value is quoted
 * exactly and the publisher keeps no memory of the last address.
 */
module DnsPublisher {
  import opened Wrappers
  import opened Route53
  import Text

  const Running := "RUNNING"
  const Stopped := "STOPPED"
  const InterfaceKey := "networkInterfaceId"
  /** The value the record is set to right before it is deleted. */
  const Placeholder := "192.168.1.1"
  const RecordTtl: nat := 60
  const BatchComment := "RTCW server"

  datatype KeyPair = KeyPair(name: string, value: string)

  datatype Attachment = Attachment(details: seq<KeyPair>)

  /** The parts of an "ECS Task State Change" event the handler reads. */
  datatype TaskStateChange = TaskStateChange(
    region: string,
    lastStatus: string,
    desiredStatus: string,
    attachments: seq<Attachment>)

  /**
   * Why an invocation aborts. The handler lets each of these escape: a bare
   * `raise` for an unknown region, IndexError for no attachment, an unbound
   * `eni` when no interface id is listed, the EC2 error re-raised for an
   * unknown interface, KeyError for an interface without a public address.
   */
  datatype Fault = UnknownRegion | NoAttachment | NoInterfaceId | InterfaceNotFound(eni: string) | NoPublicIp(eni: string)

  /** How `change_my_r53` disposes of Route 53's answer; none of these is raised. */
  datatype Handling = Changed | AlreadyDeleted | AlreadyPresent | LoggedError(text: string) | BadStatus(status: int)

  /** The region's host name label. */
  function UrlPrefix(region: string): (r: Option<string>)
    ensures r.Some? <==> region in {"us-east-1", "sa-east-1", "eu-west-2"}
    ensures r.Some? ==> |r.value| == 2
    ensures region == "us-east-1" ==> r == Some("na")
    ensures region == "sa-east-1" ==> r == Some("sa")
    ensures region == "eu-west-2" ==> r == Some("eu")
  {
    if region == "us-east-1" then Some("na")
    else if region == "sa-east-1" then Some("sa")
    else if region == "eu-west-2" then Some("eu")
    else None
  }

  /** The region's host name: its label, a dot, and the zone's name (DNS_HOSTED_ZONE_NAME). */
  function UrlFor(region: string, zoneName: string): Option<string> {
    match UrlPrefix(region)
    case None => None
    case Some(prefix) => Some(prefix + "." + zoneName)
  }

  /** Two regions never share a host name. */
  lemma {:induction false} HostnamesDistinct(r1: string, r2: string, zoneName: string)
    requires UrlFor(r1, zoneName).Some? && UrlFor(r2, zoneName).Some? && r1 != r2
    ensures UrlFor(r1, zoneName).value != UrlFor(r2, zoneName).value
  {
    var p1, p2 := UrlPrefix(r1).value, UrlPrefix(r2).value;
    var h1, h2 := UrlFor(r1, zoneName).value, UrlFor(r2, zoneName).value;
    assert h1[..2] == p1 && h2[..2] == p2;
  }

  /** The value of the last detail named `networkInterfaceId`, as the loop without a break leaves it. */
  function LastInterfaceId(details: seq<KeyPair>): (r: Option<string>)
    ensures r.None? <==> forall i :: 0 <= i < |details| ==> details[i].name != InterfaceKey
    ensures r.Some? ==> exists i :: 0 <= i < |details| && details[i] == KeyPair(InterfaceKey, r.value)
                                    && forall j :: i < j < |details| ==> details[j].name != InterfaceKey
    decreases |details|
  {
    if details == [] then None
    else
      var last := details[|details| - 1];
      if last.name == InterfaceKey then Some(last.value)
      else LastInterfaceId(details[..|details| - 1])
  }

  /** The search loop of the handler: `eni` is overwritten at every matching detail. */
  method InterfaceIdOf(details: seq<KeyPair>) returns (eni: Option<string>)
    ensures eni == LastInterfaceId(details)
  {
    eni := None;
    for i := 0 to |details|
      invariant eni == LastInterfaceId(details[..i])
    {
      if details[i].name == InterfaceKey {
        eni := Some(details[i].value);
      }
      assert details[..i + 1][..i] == details[..i];
    }
    assert details[..|details|] == details;
  }

  /** The running task's public address: the interface of its first attachment, resolved through EC2. */
  function PublicIpOf(event: TaskStateChange, interfaces: map<string, Option<string>>): (r: Result<string, Fault>)
    ensures event.attachments == [] ==> r == Err(NoAttachment)
    ensures event.attachments != [] ==>
      var eni := LastInterfaceId(event.attachments[0].details);
      (eni.None? ==> r == Err(NoInterfaceId))
      && (eni.Some? && eni.value !in interfaces ==> r == Err(InterfaceNotFound(eni.value)))
      && (eni.Some? && eni.value in interfaces && interfaces[eni.value].None? ==> r == Err(NoPublicIp(eni.value)))
    ensures r.Ok? <==>
      event.attachments != []
      && LastInterfaceId(event.attachments[0].details).Some?
      && LastInterfaceId(event.attachments[0].details).value in interfaces
      && interfaces[LastInterfaceId(event.attachments[0].details).value].Some?
    ensures r.Ok? ==> Some(r.value) == interfaces[LastInterfaceId(event.attachments[0].details).value]
  {
    if event.attachments == [] then Err(NoAttachment)
    else match LastInterfaceId(event.attachments[0].details)
      case None => Err(NoInterfaceId)
      case Some(eni) =>
        if eni !in interfaces then Err(InterfaceNotFound(eni))
        else match interfaces[eni]
          case None => Err(NoPublicIp(eni))
          case Some(ip) => Ok(ip)
  }

  /** The single A record `change_my_r53` writes for a name and address. */
  function ARecord(url: string, ip: string): RecordSet {
    RecordSet(url, [ip], RecordTtl, "A")
  }

  /** The batch `change_my_r53` sends: one change of one A record with one value. */
  function BatchFor(action: Action, url: string, ip: string): ChangeBatch {
    ChangeBatch([Change(action, ARecord(url, ip))], BatchComment)
  }

  /** `str(err)` of the InvalidChangeBatch error botocore raises. */
  function ErrorText(message: string): string {
    "An error occurred (InvalidChangeBatch) when calling the " + "ChangeResourceRecordSets operation: " + message
  }

  /** The error classification: gone counts as deleted, taken counts as created, the rest is logged. */
  function Classify(action: Action, reply: Reply): (h: Handling)
    ensures h == Changed <==> reply == Accepted(200)
    ensures h == AlreadyDeleted <==>
      reply.InvalidChangeBatch? && action == Delete && Text.Contains(ErrorText(reply.message), NotFound)
    ensures h == AlreadyPresent <==>
      reply.InvalidChangeBatch? && action == Create && Text.Contains(ErrorText(reply.message), AlreadyExists)
    ensures h.LoggedError? ==> reply.InvalidChangeBatch? && h.text == ErrorText(reply.message)
    ensures h.BadStatus? <==> reply.Accepted? && reply.status != 200
  {
    match reply
    case InvalidChangeBatch(message) =>
      var text := ErrorText(message);
      if action == Delete && Text.Contains(text, NotFound) then AlreadyDeleted
      else if action == Create && Text.Contains(text, AlreadyExists) then AlreadyPresent
      else LoggedError(text)
    case Accepted(status) =>
      if status != 200 then BadStatus(status) else Changed
  }

  /** What `change_my_r53` leaves in the zone, and how it disposes of the answer. */
  function ChangeOutcome(z: Zone, action: Action, url: string, ip: string): (Zone, Handling) {
    var applied := Apply(z, BatchFor(action, url, ip));
    (applied.0, Classify(action, applied.1))
  }

  /**
   * The effect of one `change_my_r53` call on the zone: an UPSERT always
   * lands, a DELETE of the exact record removes it, a DELETE of a missing
   * name is taken as already deleted, and a refused change leaves the
   * records as they were.
   */
  lemma {:induction false} ChangeEffect(z: Zone, action: Action, url: string, ip: string)
    ensures var r := ChangeOutcome(z, action, url, ip);
      r.0.history == z.history + [BatchFor(action, url, ip)]
      && (action == Upsert ==> r.0.records == z.records[url := ARecord(url, ip)] && r.1 == Changed)
      && (action == Delete && url in z.records && z.records[url] == ARecord(url, ip) ==>
            r.0.records == z.records - {url} && r.1 == Changed)
      && (action == Delete && url !in z.records ==> r.0.records == z.records && r.1 == AlreadyDeleted)
      && (action == Create && url in z.records ==> r.0.records == z.records && r.1 == AlreadyPresent)
      && (action == Create && url !in z.records ==> r.0.records == z.records[url := ARecord(url, ip)] && r.1 == Changed)
      && (r.1 != Changed ==> r.0.records == z.records)
  {
    var rs := ARecord(url, ip);
    var c := Change(action, rs);
    ApplySingle(z, c, BatchComment);
    var prefix := "An error occurred (InvalidChangeBatch) when calling the " + "ChangeResourceRecordSets operation: ";
    if action == Delete && url !in z.records {
      var message := "Tried to delete resource record set " + Label(rs) + " " + NotFound;
      assert ErrorText(message) == (prefix + "Tried to delete resource record set " + Label(rs) + " ") + NotFound;
      Text.EndsWithContains(prefix + "Tried to delete resource record set " + Label(rs) + " ", NotFound);
    }
    if action == Create && url in z.records {
      var message := "Tried to create resource record set " + Label(rs) + " " + AlreadyExists;
      assert ErrorText(message) == (prefix + "Tried to create resource record set " + Label(rs) + " ") + AlreadyExists;
      Text.EndsWithContains(prefix + "Tried to create resource record set " + Label(rs) + " ", AlreadyExists);
    }
  }

  /** `change_my_r53` itself: send the one-change batch, classify the answer, never raise. */
  method ChangeMyR53(zone: HostedZone, action: Action, url: string, ip: string) returns (h: Handling)
    modifies zone
    ensures (zone.State(), h) == ChangeOutcome(old(zone.State()), action, url, ip)
  {
    var reply := zone.ChangeResourceRecordSets(BatchFor(action, url, ip));
    h := Classify(action, reply);
  }

  predicate IsRunning(event: TaskStateChange) {
    event.lastStatus == Running && event.desiredStatus == Running
  }

  /**
   * What one task state change leaves in the zone, given the zone before,
   * EC2's interfaces (id to public address, if any) and the zone's name.
   */
  function TaskChangeOutcome(event: TaskStateChange, z: Zone, interfaces: map<string, Option<string>>, zoneName: string)
    : (r: (Zone, Result<(), Fault>))
    ensures r.1.Err? ==> r.0 == z
    ensures UrlFor(event.region, zoneName).None? ==> r == (z, Err(UnknownRegion))
    ensures UrlFor(event.region, zoneName).Some? && IsRunning(event) ==>
      var url := UrlFor(event.region, zoneName).value;
      match PublicIpOf(event, interfaces)
      case Err(fault) => r == (z, Err(fault))
      case Ok(ip) =>
        r.1.Ok? && r.0.records == z.records[url := ARecord(url, ip)]
        && r.0.history == z.history + [BatchFor(Upsert, url, ip)]
    ensures UrlFor(event.region, zoneName).Some? && event.desiredStatus == Stopped ==>
      var url := UrlFor(event.region, zoneName).value;
      r.1.Ok? && url !in r.0.records && r.0.records == z.records - {url}
      && r.0.history == z.history + [BatchFor(Upsert, url, Placeholder), BatchFor(Delete, url, Placeholder)]
    ensures UrlFor(event.region, zoneName).Some? && !IsRunning(event) && event.desiredStatus != Stopped ==>
      r == (z, Ok(()))
  {
    assert Running != Stopped;
    match UrlFor(event.region, zoneName)
    case None => (z, Err(UnknownRegion))
    case Some(url) =>
      var published :=
        if IsRunning(event) then
          match PublicIpOf(event, interfaces)
          case Err(fault) => (z, Err(fault))
          case Ok(ip) => ChangeEffect(z, Upsert, url, ip); (ChangeOutcome(z, Upsert, url, ip).0, Ok(()))
        else (z, Ok(()));
      if published.1.Err? || event.desiredStatus != Stopped then published
      else
        var upserted := ChangeOutcome(published.0, Upsert, url, Placeholder).0;
        ChangeEffect(published.0, Upsert, url, Placeholder);
        ChangeEffect(upserted, Delete, url, Placeholder);
        assert upserted.records - {url} == published.0.records - {url};
        (ChangeOutcome(upserted, Delete, url, Placeholder).0, Ok(()))
  }

  /** The handler itself, driving the zone through `change_my_r53`. */
  method HandleTaskStateChange(event: TaskStateChange, zone: HostedZone, interfaces: map<string, Option<string>>, zoneName: string)
    returns (r: Result<(), Fault>)
    modifies zone
    ensures (zone.State(), r) == TaskChangeOutcome(event, old(zone.State()), interfaces, zoneName)
  {
    var url := UrlFor(event.region, zoneName);
    if url.None? {
      return Err(UnknownRegion);
    }
    if event.lastStatus == Running && event.desiredStatus == Running {
      if |event.attachments| == 0 {
        return Err(NoAttachment);
      }
      var eni := InterfaceIdOf(event.attachments[0].details);
      if eni.None? {
        return Err(NoInterfaceId);
      }
      if eni.value !in interfaces {
        return Err(InterfaceNotFound(eni.value));
      }
      var address := interfaces[eni.value];
      if address.None? {
        return Err(NoPublicIp(eni.value));
      }
      var published := ChangeMyR53(zone, Upsert, url.value, address.value);
    }
    if event.desiredStatus == Stopped {
      var overwritten := ChangeMyR53(zone, Upsert, url.value, Placeholder);
      var deleted := ChangeMyR53(zone, Delete, url.value, Placeholder);
    }
    r := Ok(());
  }
}
