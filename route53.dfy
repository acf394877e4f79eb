/**
 * Route 53 as the DNS publisher sees it: a hosted zone holding one A record
 * set per name, changed only by `change_resource_record_sets`. A batch is
 * applied as a whole or not at all; UPSERT replaces whatever the name held,
 * CREATE needs the name to be free, DELETE needs the record set to match
 * exactly. The platform is abstract; these rules are its stated behaviour.
 */
module Route53 {
  import opened Wrappers

  datatype Action = Create | Upsert | Delete

  datatype RecordSet = RecordSet(name: string, values: seq<string>, ttl: nat, recordType: string)

  datatype Change = Change(action: Action, recordSet: RecordSet)

  datatype ChangeBatch = ChangeBatch(changes: seq<Change>, comment: string)

  /** What the call returns: an HTTP status, or the InvalidChangeBatch error with its message. */
  datatype Reply = Accepted(status: int) | InvalidChangeBatch(message: string)

  /** The zone's records by name, and every batch the zone has been sent, oldest first. */
  datatype Zone = Zone(records: map<string, RecordSet>, history: seq<ChangeBatch>)

  const NotFound := "but it was not found"
  const AlreadyExists := "but it already exists"
  const ValuesDiffer := "but the values provided do not match the current values"

  function Label(rs: RecordSet): string {
    "[name='" + rs.name + "', type='" + rs.recordType + "']"
  }

  /** One change against the records, or Route 53's complaint about it. */
  function ApplyChange(records: map<string, RecordSet>, c: Change): (r: Result<map<string, RecordSet>, string>)
    ensures r.Ok? ==> forall n :: n != c.recordSet.name ==>
      (n in r.value <==> n in records) && (n in records ==> n in r.value && r.value[n] == records[n])
    ensures c.action == Upsert ==> r == Ok(records[c.recordSet.name := c.recordSet])
    ensures c.action == Create ==> (r.Ok? <==> c.recordSet.name !in records)
    ensures c.action == Create && r.Ok? ==> c.recordSet.name in r.value && r.value[c.recordSet.name] == c.recordSet
    ensures c.action == Delete ==> (r.Ok? <==> c.recordSet.name in records && records[c.recordSet.name] == c.recordSet)
    ensures c.action == Delete && r.Ok? ==> c.recordSet.name !in r.value
  {
    var rs := c.recordSet;
    match c.action
    case Create =>
      if rs.name in records then Err("Tried to create resource record set " + Label(rs) + " " + AlreadyExists)
      else Ok(records[rs.name := rs])
    case Upsert =>
      Ok(records[rs.name := rs])
    case Delete =>
      if rs.name !in records then Err("Tried to delete resource record set " + Label(rs) + " " + NotFound)
      else if records[rs.name] != rs then Err("Tried to delete resource record set " + Label(rs) + " " + ValuesDiffer)
      else Ok(records - {rs.name})
  }

  /** The changes of one batch in order; the first complaint stops the batch. */
  function ApplyChanges(records: map<string, RecordSet>, changes: seq<Change>): Result<map<string, RecordSet>, string>
    decreases |changes|
  {
    if changes == [] then Ok(records)
    else match ApplyChange(records, changes[0])
      case Err(message) => Err(message)
      case Ok(next) => ApplyChanges(next, changes[1..])
  }

  /** `change_resource_record_sets`: the batch is recorded, then applied whole or refused whole. */
  function Apply(z: Zone, batch: ChangeBatch): (Zone, Reply) {
    match ApplyChanges(z.records, batch.changes)
    case Ok(records) => (Zone(records, z.history + [batch]), Accepted(200))
    case Err(message) => (Zone(z.records, z.history + [batch]), InvalidChangeBatch(message))
  }

  /** A batch of one change acts as that change alone. */
  lemma {:induction false} ApplySingle(z: Zone, c: Change, comment: string)
    ensures var r := Apply(z, ChangeBatch([c], comment));
      r.0.history == z.history + [ChangeBatch([c], comment)]
      && (ApplyChange(z.records, c).Ok? ==> r == (Zone(ApplyChange(z.records, c).value, r.0.history), Accepted(200)))
      && (ApplyChange(z.records, c).Err? ==> r == (Zone(z.records, r.0.history), InvalidChangeBatch(ApplyChange(z.records, c).error)))
  {
    assert [c][1..] == [];
    match ApplyChange(z.records, c)
    case Err(_) =>
    case Ok(next) =>
      assert ApplyChanges(next, []) == Ok(next);
  }

  /** The hosted zone object the publisher's Route 53 client talks to. */
  class HostedZone {
    var records: map<string, RecordSet>
    var history: seq<ChangeBatch>

    function State(): Zone
      reads this
    {
      Zone(records, history)
    }

    constructor (records: map<string, RecordSet>)
      ensures State() == Zone(records, [])
    {
      this.records := records;
      this.history := [];
    }

    method ChangeResourceRecordSets(batch: ChangeBatch) returns (reply: Reply)
      modifies this
      ensures (State(), reply) == Apply(old(State()), batch)
      ensures history == old(history) + [batch]
      ensures reply.InvalidChangeBatch? ==> records == old(records)
    {
      var applied := ApplyChanges(records, batch.changes);
      history := history + [batch];
      if applied.Ok? {
        records := applied.value;
        reply := Accepted(200);
      } else {
        reply := InvalidChangeBatch(applied.error);
      }
    }
  }
}
