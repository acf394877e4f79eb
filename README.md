# rtcw-on-demand: the on-demand server lifecycle, in Dafny

rtcw-on-demand runs one Return to Castle Wolfenstein game server per AWS
region, and only when someone asks for it. Apart from infrastructure
definitions, it has three small Lambda handlers. This project models them,
together with two pure helpers from the stack code:

- the **start handler** (`lambdas/ecslambda/main.py`). It works out which
  region an API Gateway `/start/{region}` call or a direct invoke is for. It
  reads that region's ECS desired count and, below the cap of one, asks for
  one more task. It always answers HTTP 200 with a plain-text message.
- the **scheduled stop handler** (`lambdas/ecsdecrement/main.py`). It uses the
  event's region for a scheduled event and `us-east-1` otherwise. It reads the
  service, then sets the desired count to 0 whatever it was. It always
  answers 200.
- the **DNS publisher** (`lambdas/r53lambda/main.py`). On each ECS task state
  change it looks up the region's host name. For a running task it points the
  name at the task's public address. For a task that is to stop, it
  overwrites the record with a placeholder address and then deletes it, since
  Route 53 only deletes a record whose value is quoted exactly. Route 53
  `InvalidChangeBatch` errors are classified and never raised.
- the **stack helpers** (`stacks/`). These are the region table (host name
  suffix and daily stop hour), the HOSTNAME tag given to the server, the role
  names built from the suffix, the per-region service ARN, and the main
  region's list of all service ARNs.

The external platforms are abstract state with stated behaviour:

- ECS (`EcsPlatform.Ecs`): a desired count per region; the regions whose
  updates fail; a log of every `update_service` request.
- Route 53 (`Route53.HostedZone`): one A record set per name, plus every batch
  received. A batch is applied whole or refused whole. UPSERT replaces,
  CREATE needs a free name, DELETE needs an exact match.
- EC2: a read-only map from interface id to its public address, if it has
  one.

Each handler is an imperative method that drives these objects step by step,
as the Python does. Each method is proved equal to a pure outcome function,
and the handler's promises are stated and proved about that function.
`Lifecycle.OneDay` follows one region through a whole day: start, publish,
stop, retract.

Modules: `Wrappers` (Option, Result), `Python` (JSON event values,
truthiness, exceptions and how they are rendered), `Text` (substring test,
upper-casing), `Lambda` (the response), `EcsPlatform`, `EcsStart`,
`EcsStop`, `Route53`, `DnsPublisher`, `Regions`, `MainRegion`, `Lifecycle`.

Points where the code's behaviour is easy to misread:

- The interface id is the *last* `networkInterfaceId` detail, not the first,
  because the loop has no `break`.
- The stop handler takes the event's region only for a `Scheduled Event`. A
  direct invoke that names a region still stops `us-east-1`.
- An unknown region in the DNS publisher aborts the invocation at run time,
  with a bare `raise`.
- The stop handler's failure text starts "Failed to add a server", as the
  start handler's does.
- The running and stopped branches are two separate `if`s. They can never
  both run, because `desiredStatus` cannot be both "RUNNING" and "STOPPED".

## Model

| member | source | states |
|---|---|---|
| `EcsStart.StartRegion` | lambdas/ecslambda/main.py:21-31 | An API call (`resource == "/start/{region}"`) succeeds exactly when `pathParameters` is a dict whose `region` is a string, and yields that string. Otherwise, when the `event` key is absent or truthy, it succeeds exactly when the event's own `region` is a string. The ValueError "Uknown invocation event!" is raised exactly when the call is not an API call and `event` is present but falsy. |
| `EcsStart.StartOutcome` | lambdas/ecslambda/main.py:13-64 | Always status 200 with Content-Type text/plain. The body is one of the three messages. It is "Server requested..." exactly when the region resolves, has the service, is below `max_count` and accepts the update; then the count becomes old+1 and exactly one update (region, old+1) is logged. It is "Maximum number..." exactly when the count is already at the cap; then nothing at all changes. Any other path gives "Failed to add a server. UTC time: " + the time, with counts unchanged. At most one update is ever issued, and only below the cap. If no region was above the cap before, none is after. |
| `EcsStart.HandleStart` | lambdas/ecslambda/main.py:18-64 | The handler's sequence: classify, describe, increment below the cap, update, build the response. It leaves exactly the response and ECS state that `StartOutcome` gives. |
| `EcsStop.StopRegion` | lambdas/ecsdecrement/main.py:18-21 | The region is "us-east-1" unless `detail-type` is "Scheduled Event". In that case it is the event's `region` when that is a string. A missing `region` raises KeyError('region'). |
| `EcsStop.StopOutcome` | lambdas/ecsdecrement/main.py:12-45 | Always status 200 with text/plain. The body is "Server is being taken down by a scheduled event." exactly when the region resolves, has the service and accepts the update; then its count is 0 whatever it was. Otherwise the counts are unchanged and the body is "Failed to add a server\n" followed by the type and arguments of the exception actually raised: the region lookup's error (KeyError('region') for a scheduled event without one), or else the platform's describe/update error. An update (region, 0) is issued exactly when the describe succeeded, so a failed describe issues none. |
| `EcsStop.HandleStop` | lambdas/ecsdecrement/main.py:17-45 | The handler's sequence of describe and unconditional update. It leaves exactly the response and ECS state that `StopOutcome` gives. |
| `EcsStop.StopIdempotent` | lambdas/ecsdecrement/main.py:30 | Running the stop handler a second time gives the same response and the same desired counts as running it once. |
| `EcsPlatform.Ecs.constructor` | lambdas/ecslambda/main.py:36 | A platform object holding the given desired counts and refusing regions, with an empty update log. |
| `EcsPlatform.Ecs.DescribeServices` | lambdas/ecslambda/main.py:37-38 | Platform assumption for `describe_services`: it returns the region's desired count when the region has the service, and fails otherwise. It changes nothing. |
| `EcsPlatform.Ecs.UpdateService` | lambdas/ecslambda/main.py:42 | Platform assumption for `update_service`: every request is logged. The count is set exactly when the region has the service and accepts updates. Nothing else changes. |
| `DnsPublisher.UrlPrefix` | lambdas/r53lambda/main.py:19-27 | A label exists exactly for us-east-1, sa-east-1 and eu-west-2: us-east-1 gives "na", sa-east-1 "sa", eu-west-2 "eu". Every label is two characters long. |
| `DnsPublisher.HostnamesDistinct` | lambdas/r53lambda/main.py:19-28 | Two different regions never get the same host name (label + "." + zone name). |
| `DnsPublisher.PublicIpOf` | lambdas/r53lambda/main.py:33-45 | The faults come in the code's order. No attachment is the IndexError of `[0]`. No `networkInterfaceId` detail leaves `eni` unbound. An interface EC2 does not know is the re-raised describe error. An interface without a public address is the KeyError on `Association`. An address is returned exactly when none of these occurs, and it is that of the last interface id of the first attachment. |
| `DnsPublisher.LastInterfaceId` | lambdas/r53lambda/main.py:33-36 | The result is None exactly when no detail is named `networkInterfaceId`. Otherwise it is the value of a matching detail that no later matching detail follows, i.e. the last one. |
| `DnsPublisher.InterfaceIdOf` | lambdas/r53lambda/main.py:33-36 | The search loop, which overwrites `eni` at every match, ends with `LastInterfaceId` of the details: none exactly when no detail matches, else the last match. |
| `DnsPublisher.Classify` | lambdas/r53lambda/main.py:77-89 | A DELETE whose error text contains "but it was not found" counts as already deleted. A CREATE whose error text contains "but it already exists" counts as already present. Any other InvalidChangeBatch is logged with its text. A status other than 200 is logged as a bad code. Only a 200 counts as changed. Nothing is raised. |
| `DnsPublisher.ChangeEffect` | lambdas/r53lambda/main.py:54-76 | Each call sends exactly one batch, holding one change of one A record with one value and TTL 60. An UPSERT replaces the name's record. A DELETE of the exact record removes it. A DELETE of a missing name is classified as already deleted and leaves the records alone. Any outcome other than a change leaves the records unchanged. |
| `DnsPublisher.ChangeMyR53` | lambdas/r53lambda/main.py:54-89 | Sends the batch to the zone and classifies the answer. It leaves exactly the zone state and classification `ChangeOutcome` gives. |
| `DnsPublisher.TaskChangeOutcome` | lambdas/r53lambda/main.py:14-51 | Any fault leaves the zone untouched, and an unknown region faults before any change. For RUNNING/RUNNING with a resolvable interface there is exactly one UPSERT of (host name, public address), and the record now holds that address. A resolution fault is passed on, with no DNS change. For desired STOPPED there is an UPSERT of the placeholder 192.168.1.1 and then a DELETE of it, in that order, and the host name ends absent. Any other status pair changes nothing. |
| `DnsPublisher.HandleTaskStateChange` | lambdas/r53lambda/main.py:14-51 | The handler's sequence of prefix, interface search, address lookup and `change_my_r53` calls. It leaves exactly the zone and result `TaskChangeOutcome` gives. |
| `Route53.ApplyChange` | lambdas/r53lambda/main.py:56-76 | Platform assumption for one change. UPSERT always succeeds and sets the name's record. CREATE succeeds exactly when the name is absent, and then sets it. DELETE succeeds exactly when the name holds that very record, and then removes it. A successful change leaves every other name as it was. |
| `Route53.ApplySingle` | lambdas/r53lambda/main.py:56-76 | Platform rule: a batch of one change acts as that change alone. The batch is always recorded, and a refused change leaves the records as they were. |
| `Route53.HostedZone.constructor` | lambdas/r53lambda/main.py:12 | A zone holding the given records, with no batches received yet. |
| `Route53.HostedZone.ChangeResourceRecordSets` | lambdas/r53lambda/main.py:56-76 | Platform assumption for `change_resource_record_sets`: the batch is logged. It is then applied whole or refused whole with InvalidChangeBatch, and a refused batch leaves the records unchanged. |
| `Regions.ConfigFor` | stacks/rtcw_on_demand.py:22-33 | Settings exist exactly for the three known regions. Any other region raises Exception('Unknown region.'). Every stop hour is a valid cron hour (0..23), and every suffix is two characters long. The table is us-east-1 → ("na", 8), sa-east-1 → ("sa", 9), eu-west-2 → ("eu", 3). |
| `Regions.RoleNamesDistinct` | stacks/rtcw_on_demand.py:35-76 | The role names of lines 36 and 76, 'rtcwdemand-r53-lambda-role-' + suffix and 'rtcwdemand-ecsdecrement-lambda-role-' + suffix differ between any two known regions, and a DNS publisher role name never equals a stop handler role name. |
| `Regions.SuffixedNamesDistinct` | stacks/rtcw_on_demand.py:22-36 | The three suffixes are pairwise distinct. So names built as a fixed prefix + suffix, such as the per-region role names, are distinct too. |
| `Regions.TagHostname` | stacks/rtcw_on_demand.py:120 | HOSTNAME becomes its old value, a space and the upper-cased suffix. No other variable changes, and a missing HOSTNAME raises KeyError. |
| `Regions.RegionTags` | stacks/rtcw_on_demand.py:22-30 | With each known region's suffix, the tag is " NA", " SA" or " EU". |
| `Regions.ServiceArn` | stacks/rtcw_on_demand.py:86 | The ARN is "arn:aws:ecs:" + region + the tail ":" + account + ":service/" + cluster + "/" + service. Only the region segment depends on the region. |
| `Regions.ServiceArnInjective` | stacks/rtcw_on_demand.py:86 | With account, cluster and service fixed, two regions with the same ARN are the same region. |
| `MainRegion.ListClusters` | stacks/main_region_construct.py:89-93 | Exactly one ARN per entry of `settings["regions"]`, in iteration order. The i-th ARN is built from the i-th region value, not its key. All ARNs share the prefix and the account/cluster/service tail, through `ServiceArn`'s contract. Every deployed region's own stack ARN appears in the list. |
| `Text.Upper` | stacks/rtcw_on_demand.py:120 | `suffix.upper()` on ASCII text keeps the length, maps each character to its capital, and leaves no lower-case letter. |
| `Text.EndsWithContains` | lambdas/r53lambda/main.py:78 | Python's `sub in s` holds whenever `s` ends with `sub`. |
| `Lifecycle.SuffixIsDnsPrefix` | stacks/rtcw_on_demand.py:22-30 | The stack knows a region exactly when the publisher has a label for it, and the stack's suffix is that label. |
| `Lifecycle.StartFromStopped` | lambdas/ecslambda/main.py:40-44 | A start request for us-east-1 at count 0 answers "Server requested..." and leaves count 1, after exactly one update. |
| `Lifecycle.PublishRunning` | lambdas/r53lambda/main.py:30-46 | A running task whose interface resolves to 203.0.113.5 leaves exactly the record na.<zone> → 203.0.113.5, after one UPSERT. |
| `Lifecycle.StopRunning` | lambdas/ecsdecrement/main.py:18-31 | The scheduled stop for us-east-1 at count 1 answers the stop message and leaves count 0. |
| `Lifecycle.RetractStopping` | lambdas/r53lambda/main.py:48-51 | A stopping task's event sends the placeholder UPSERT and then the DELETE. It removes na.<zone> from any zone. |
| `Lifecycle.OneDay` | lambdas/ecslambda/main.py:40-44 | The whole day from a stopped service and an empty zone: start, publish, stop, retract. The count ends at 0, the zone ends empty, and three batches were sent in order. |

## Left out

- Text.Upper: only ASCII letters are upper-cased; every other character is
  kept. Python's `str.upper()` also upper-cases non-ASCII letters, and some
  of them change length ('ß' becomes "SS"). The stack only upper-cases the
  suffixes "na", "sa" and "eu".
- Real boto3 clients and calls. They are replaced by the platform objects and
  their stated behaviour. Route 53 errors other than InvalidChangeBatch (for
  example throttling) are not modelled; the handler would let them escape.
- Logging, `json.dumps` of the event, and reading configuration from
  `os.environ`. The cluster, service and zone names are fixed parameters.
- The clock. `datetime.now()` formatted as `%d/%m/%Y %H:%M:%S` is the
  parameter `now`.
- The race between concurrent start invocations. It arises between separate
  Lambda runs; each model call is one invocation.
- EcsStop.StopRegion: a region value that is not a string is modelled as
  failing client creation with a TypeError. botocore's fallback to the
  function's own region for a `null` region is not modelled.
- Events that are not JSON objects, and JSON numbers that are not integers.
  The start and stop events are modelled as dictionaries of JSON values.
- DnsPublisher.TaskChangeOutcome: the task event is a typed record, so
  KeyErrors for an event without `detail`, statuses or region, and for a
  detail without `name` or `value`, are not modelled. A missing attachment
  is modelled.
- The Route 53 zone holds only A records, keyed by name. Name normalisation
  (a trailing dot, letter case) is not modelled. The error messages follow
  Route 53's form but are not byte-exact.
- `Python.Quote` renders `repr` only for strings without backslashes or
  unprintable characters that do not hold both `'` and `"` (Python escapes
  the `'` in that case; the model does not). Every message in the model is
  such a string.
- The CDK wiring: roles, policies, VPC, Fargate task and service, security
  group, API Gateway, certificate, alias record, event rules and usage plan.
  It is declarative resource definition. From the stack code only the region
  table, the HOSTNAME tag, the suffixed names and the service ARN are
  modelled.
- The carry-over of the HOSTNAME tag across stacks. The settings dict is
  shared, and line 120 of the stack updates it in place each time. Only one
  call's string transform is modelled (`Regions.TagHostname`).
- app.py, except that it builds one stack per value of the same
  `settings["regions"]` that `MainRegion.ListClusters` reads. The local test
  mains of the handlers are left out as well.
