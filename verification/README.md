# A verified model of the AWS VPC endpoint operator

The operator turns a `VpcEndpoint` custom resource (CR) into an AWS security group, a VPC endpoint, a Route 53
record in a private hosted zone and an ExternalName service, keeps them as the CR wants them, and tears them
down again. A second controller keeps one `VpcEndpoint` for every hosted control plane. This project models both
controllers in Dafny and proves what they promise over whole runs: at most one group and one endpoint per CR
whatever fails, convergence to a state that is then left alone, a teardown that survives any crash, a record
condition that means what it says, a zone cache that agrees with AWS.

## How it is built

- `Aws.dfy` holds the AWS account as the operator sees it: a class with groups, endpoints and zones, and one method for
  every SDK call. `Kube.dfy` does the same for the persisted CR. Every call may fail before or after it took effect, as
  long as the environment has a `budget` left; a lower budget afterwards means that something failed, an unchanged one
  that an error is AWS's own refusal. "Without faults" always means unchanged budgets, so each statement about faults
  holds for every pattern of failures.
- `Reconciler.dfy` is the reconciler object: the CR in memory, its status, the zone cache. `EnvOf` collects what a
  reconcile takes as given, `ViewOf` what it changes. The stages are methods with the branches, the order of writes and
  the early returns of the program; they are proved against relations between two views (`GroupRel`, `EndpointRel`,
  `DnsRel`, `PassRel`, `TeardownRel`, `LiveRel`, `DeletionRel`), and lemmas on values compose these.
- `SecurityGroupStage`, `EndpointStage`, `DnsStage` and `HostedZoneCache` are the validations, `Validation` puts them in
  sequence, `Cleanup` is the teardown, `ClusterInfo` reads what a reconcile needs, `Controller` is `Reconcile`.
- `Runs.dfy` has the steps of a run (reconciles and whatever users, AWS, its other clients and the reconciles of other CRs
  do) and what holds over every run, `Convergence.dfy` how a CR settles, `Settlement.dfy` what a settled CR amounts to in
  AWS, `Teardown.dfy` how it goes; `Template.dfy` is the second controller; `Rules`, `SliceDiff`, `Subnets`, `VpcSelection` and `Naming` are the algorithms that feed the
  rest.

Words used in the contracts: a status is *kept* once it is persisted; `Safe` is what holds between any two steps of any
run; a change of a zone's VPCs is *unseen* when it happened after the zone was cached and nothing told the operator;
`Calm` means that what is cached for the CR is right; `FastPath` that the record and tags conditions are true and can be
relied on; `Healthy` and `Unobstructed` are what the surroundings must offer; `Offered` is `Healthy` up to the state of
the zone that is recorded, and `Stuck` that this zone cannot be used; `AllDone` means that nothing is left to do; a
*target* is the AWS world a teardown leads to.

## What the proofs found

Where the code does less than it promises, the statement carries the exact condition.

- The comparison for a changed endpoint id (controllers/vpcendpoint/validation.go:131) never finds one, because the id has
  already been stored. A replaced endpoint that is first seen available or rejected leaves the record condition True
  while the record points to the old endpoint; one seen pending resets the condition, but only if that second write of
  the status succeeds as well (`FastPathSafeIff`, `ReplacedEndpointExample`).
- Discovery overwrites the recorded zone (controllers/vpcendpoint/validation.go:300-313) and leaves the record condition
  True, so the record is not written in the new zone. Skipping the upsert is right exactly when zone, endpoint and name
  are those the record was written for (`SkipRefinesUpsertIff`, `FoundZoneSafeIff`, `SwappedZoneLacksRecord`).
- A failed endpoint is never replaced: without outside help a CR whose endpoint has failed is not done after any number
  of reconciles, none of which succeeds (`StayFailed`, `FailedExample`).
- Every endpoint that is made is for the service that is recorded at that moment (`ServesRecorded`, `LeadsToService`), but
  nothing compares a service with the one an endpoint has: an edited service name is recorded and never reaches an
  endpoint that exists (`EditedServiceExample`).
- The name tag and the cluster tag tell the infra id and the name of the CR, but not its namespace: what is made for a CR
  has the tags of another exactly when both have the same infra id and the same name, so two such CRs share their group
  and endpoint (`OwnedByOne`). That is for names that are not cut; which CR names give a group name of their own is
  stated by `GroupNameIsOwnIff`.
- Nor is a recorded zone that cannot be used. With a domain name, that is a zone that has been deleted, or whose id kept
  the `/hostedzone/` spelling from when the CR named its zone by id: every reconcile fails at
  controllers/vpcendpoint/helpers.go:826-834, and until the spec is edited nothing brings the zone back (`KeepStuck`,
  `StayStuck`, `GoneZoneExample`, `RespelledZoneExample`). In healthy surroundings four reconciles settle a CR exactly
  when no endpoint of it has failed and its zone can be used (`Settle`).
- Without a DNS mode nothing ever records a zone, and an empty zone id is looked up, which fails. With everything else in
  order the validations succeed exactly when a zone is left from an earlier spec, or a record counts as done and there are
  no further VPCs (`NoModeSucceedsIff`); without such a zone and a True record condition, or with further VPCs to
  associate, no number of reconciles succeeds (`StayStuck`, `NoModeExample`).
- A spec that asks twice for a rule that the group lacks makes AWS reject the request in every reconcile, so that none
  succeeds and the group never gets the rule (`RequestIsAcceptable`, `StayRefused`, `RepeatedRuleExample`).
- A name has 256 characters exactly when its prefix has 255 minus the suffix length (`NameLength`); which names are
  shared by no other prefix is stated by `NameIsUniqueIff`.
- A domain name given with a trailing dot is not recognized in the zone that was created for it (`CreatedZoneServesIff`),
  so a zone whose id did not get recorded is created again (`CreatedAgainIff`); for any other domain name at most one zone
  is created over all runs (`OneZoneMade`).
- The zone that a CR uses is deleted at teardown whenever the CR names a domain by any field, even if it let the zone be
  discovered; only a base domain that could be read protects a zone, and only if `.domainName` is that domain
  (`ZonesThatGo`). For the cluster's own zone that makes three ways to lose it: a hosted control plane CR when the base
  domain could not be read in that attempt, a CR that refers to the cluster's DNS object instead of spelling the domain
  out, and one that discovers its zone and names another domain (`ClusterZoneGoesIff`, `ClusterZoneLost`,
  `ReferencedClusterZoneLost`, `DiscoveredZoneLost`).
- A group or endpoint that was created but whose id never got persisted stays behind when the CR goes
  (`RecordedOnesGo`, `OrphansStay`).
- If the zone of a recorded record is gone, the cleanup fails on every attempt, with faults and without, and the CR never
  goes (`CleanUpRecord`, `StaysUntorn`, `LostExample`).
- An association that AWS carried out although the call failed leaves the cache stale for up to two minutes. An entry
  agrees with AWS exactly when no such change, nor one by others, went unseen (`AgreesIff`, `KeepCache`,
  `CalmAfterTtl`).
- The service condition set to False by a failed read is not set back while the service is right. A settled CR is ready
  exactly when no condition is stuck at False: the service's is when it was False before and the service has not been
  written since; the tags condition, unless the CR names a domain, and with private DNS the record condition as well,
  are when they were False before, and also when they were True and the endpoint was then seen before it was ready
  (`ReadyIff`, `SettledReadyIff`, `SettledExample`).
- The template controller wants one `VpcEndpoint` per namespace. After a pass that nothing stood in the way of there is
  exactly one exactly when at most one had the template's spec; those that have it all stay, whatever fails
  (`ExactlyOneIff`, `DuplicatesStay`, `TwoLeftExample`). Deleting a template looks at the whole selector, a pass only at
  the match labels (`Template.Reconcile`).

## Model

| member | source | states |
|---|---|---|
| Runs.Operate | controllers/vpcendpoint/vpcendpoint_controller.go:83-220 | For every schedule of reconciles, failures, edits of the spec, changes of what the account offers and drift of endpoints, groups, zones and service: at most one group and one endpoint carry the CR's tags, both in the VPC that is recorded once and for all; nothing is created for a CR that is being deleted or before its finalizer is persisted; every cache entry in use agrees with AWS exactly when its zone exists and no change of its VPCs went unseen |
| Runs.Execute | controllers/vpcendpoint/vpcendpoint_controller.go:83-220 | Every execution for a CR that is not being deleted is a run, so the lemmas about runs are about executions |
| Runs.KeepRecord | controllers/vpcendpoint/validation.go:403-466 | In every run with any failures but of status writes, in which nobody else disturbs the record: at every moment a True record condition means that the recorded zone holds the record the CR asks for with the DNS name of the recorded endpoint, so the skipped upsert would change nothing, and a True tags condition that the zone has the default tags |
| Runs.KeepCache | controllers/vpcendpoint/helpers.go:1053-1106 | In every run in which nobody else changes the VPCs of zones, whatever fails: everything cached for the CR agrees with AWS as long as no association was carried out by a call that failed; and after one, exactly what went unseen is wrong |
| Runs.KeepStuck | controllers/vpcendpoint/helpers.go:813-834 | In every run without an edit of the spec, whatever fails and whatever others do: a recorded zone that cannot be used stays recorded, cannot be used, and the CR is not done |
| Runs.StayRefused | controllers/vpcendpoint/validation.go:81-96 | While the group lacks a rule that the spec asks for twice, no reconcile succeeds and the group does not get the rule, whatever fails and whatever others do to anything but the group's rules and what is asked for |
| Runs.OneZoneMade | controllers/vpcendpoint/helpers.go:859-926 | Over every run with one domain name without a trailing dot, in which nobody deletes zones: at most one zone is created for the CR, whatever fails |
| Runs.ActionKeepsFastPath | controllers/vpcendpoint/helpers.go:1108-1128 | What the conditions stand for survives every action of the environment that leaves the record alone, such as zones appearing and vanishing elsewhere |
| Runs.ActionKeepsSafe | controllers/vpcendpoint/helpers.go:240-303 | What holds between reconciles survives every action of the environment |
| Runs.StartsWell | controllers/vpcendpoint/vpcendpoint_controller.go:130-147 | A new CR satisfies every invariant |
| Runs.ServesRecorded | controllers/vpcendpoint/helpers.go:626-679 | Over every run in which no other service gets recorded, whatever fails and whatever others do: of the endpoints with the CR's tags those of the start keep their service, and every other is for the recorded one |
| Convergence.Settle | controllers/vpcendpoint/vpcendpoint_controller.go:132-219 | Once calls no longer fail and the surroundings are healthy, four reconciles with a pending endpoint accepted in between finish everything exactly when no endpoint of the CR has failed and its recorded zone can be used; Route 53 then holds the record if the conditions were true before; an endpoint that was made meanwhile is for the recorded service |
| Convergence.LeadsToService | controllers/vpcendpoint/helpers.go:626-679 | A CR that had no endpoint when it began to settle has one for the service that its spec asks for |
| Convergence.EditedServiceExample | controllers/vpcendpoint/helpers.go:205-238 | A settled CR whose service name is edited: it stays settled, with the old endpoint |
| Convergence.StaySettled | controllers/vpcendpoint/vpcendpoint_controller.go:185-219 | From then on any number of reconciles at any times changes nothing in AWS, the service or the CR's status, and every one succeeds |
| Convergence.Recover | controllers/vpcendpoint/vpcendpoint_controller.go:83-220 | Any schedule, two quiet minutes after which everything the CR needs of others is there, four reconciles and any number more: settled for good exactly when no endpoint of the CR has failed and its recorded zone can be used, ready exactly when no condition was stuck; a failed endpoint and a zone that cannot be used are still there otherwise |
| Convergence.StayFailed | controllers/vpcendpoint/validation.go:209-227 | However many clean reconciles come, no reconcile succeeds, a failed endpoint is still there and failed, and the CR is not done |
| Convergence.StaysFailed | controllers/vpcendpoint/validation.go:209-227 | A clean reconcile leaves a failed endpoint failed and makes none fail |
| Convergence.FailedFails | controllers/vpcendpoint/validation.go:209-227 | No clean reconcile succeeds while the endpoint has failed |
| Convergence.FailedIsNotDone | controllers/vpcendpoint/validation.go:209-227 | A CR whose endpoint has failed has no available one and is not done |
| Convergence.StayStuck | controllers/vpcendpoint/validation.go:284-346 | However many clean reconciles come, none succeeds and the CR is not done: in domain mode while the recorded zone is gone or misspelled, without a mode while there is none, unless its record counts as written and no further VPCs are listed |
| Convergence.StaysPromising | controllers/vpcendpoint/validation.go:57-65 | After a clean pass the inputs are current, the surroundings are as good as before and a zone can be used exactly when it could before; if it can, the group exists and the CR is done or waits for its endpoint |
| Convergence.FromAnywhere | controllers/vpcendpoint/validation.go:120-260 | From any endpoint state but a failed one, with a zone that can be used, a clean pass leads to a recorded available endpoint or to none |
| Convergence.FromLacking | controllers/vpcendpoint/helpers.go:626-679 | From no endpoint, creation and acceptance lead to a recorded available one |
| Convergence.FromHaving | controllers/vpcendpoint/validation.go:57-65 | From an available endpoint a clean pass finishes everything |
| Convergence.QuietStep | controllers/vpcendpoint/validation.go:57-65 | A clean pass over a settled CR changes neither AWS nor the service nor the status, and succeeds |
| Convergence.CalmAfterTtl | controllers/vpcendpoint/helpers.go:1063-1082 | From any state of any run, two quiet minutes later the cache is right |
| Convergence.SettledRecordHolds | controllers/vpcendpoint/validation.go:403-466 | What a settled CR amounts to in Route 53: record and tags are in place |
| Convergence.SettledReadyIff | controllers/vpcendpoint/validation.go:469-559 | Whether a CR that settled is ready, from what it started with: the service's condition was not False or the service was written since, and no condition that its mode does not maintain is False, which it is if it was before and otherwise only becomes by being reset |
| Convergence.SettledExample | controllers/vpcendpoint/validation.go:42-55 | Settled CRs exist; one whose service is right but whose condition is False is settled and not ready |
| Convergence.FailedExample | controllers/vpcendpoint/validation.go:209-227 | A CR one step of AWS away from being settled whose endpoint has failed, everything else being in order |
| Convergence.GoneZoneExample | controllers/vpcendpoint/helpers.go:824-834 | A CR that names its domain and whose recorded zone gets deleted cannot settle, everything else being in order |
| Convergence.RespelledZoneExample | controllers/vpcendpoint/helpers.go:824-834 | Nor can a settled CR after an edit from a zone id to the domain name of that zone |
| Convergence.NoModeExample | controllers/vpcendpoint/validation.go:284-346 | Nor can a new CR without a DNS mode |
| Convergence.RepeatedRuleExample | controllers/vpcendpoint/helpers.go:386-546 | A settled CR to whose spec a rule is added twice |
| Settlement.SettledInputs | controllers/vpcendpoint/helpers.go:53-129 | A settled CR has the infra id of its hosted control plane or of the cluster, and the service that is named, else referred to, else looked up |
| Settlement.SettledGroup | controllers/vpcendpoint/validation.go:69-116 | Its group is in its VPC, is named after infra id and CR, and grants every entry of the spec |
| Settlement.SettledEndpoint | controllers/vpcendpoint/validation.go:187-251 | Its endpoint is available, in its VPC, named after infra id and CR, has its group and no other, and private DNS when that is asked for |
| Settlement.SettledSubnets | controllers/vpcendpoint/helpers.go:682-765 | The endpoint has the listed subnets, or of the tagged ones the private ones, else all, as far as they lie in the VPC and in a zone of the service |
| Settlement.SettledZone | controllers/vpcendpoint/validation.go:284-400 | The zone exists, is the one of the mode, and is associated with every further VPC; the service names the record |
| Settlement.SettledRecord | controllers/vpcendpoint/validation.go:403-466 | The zone holds the CNAME of host name and zone name with the DNS name of the endpoint, and a zone found or made for a domain has the operator's tags |
| Teardown.TearDown | controllers/vpcendpoint/vpcendpoint_controller.go:150-183 | However many calls fail, wherever attempts stop and however long AWS takes, the CR goes after at most one attempt more than there were faults and time-outs; endpoints and groups end as a single attempt without faults leaves them, and so do the zones unless a hosted control plane CR names the cluster's domain and an attempt could not read it |
| Teardown.StaysOpen | controllers/vpcendpoint/cleanup.go:38-301 | An unfinished cleanup attempt leaves the next one able to finish, and leading to the same world |
| Teardown.MustFinish | controllers/vpcendpoint/cleanup.go:38-301 | An attempt that does not remove the finalizer has spent a fault, or the deletion has come closer to its end by a whole polling period |
| Teardown.NoTimeoutIff | controllers/vpcendpoint/cleanup.go:217-263 | Exactly the deletions that are not over 175 seconds later, at the last look, make an attempt time out |
| Teardown.OpenExample | controllers/vpcendpoint/cleanup.go:38-301 | A CR that is in place can be torn down |
| Teardown.StaysUntorn | controllers/vpcendpoint/cleanup.go:51-104 | A CR whose recorded record was in a zone that is gone: however often its cleanup is attempted, whatever fails and whatever others do in between, it stays, with its finalizer and its record |
| Teardown.LostExample | controllers/vpcendpoint/cleanup.go:51-104 | From a CR that is in place, the deletion of its zone leads there |
| Controller.Reconcile | controllers/vpcendpoint/vpcendpoint_controller.go:83-220 | Creations only for a CR that is not being deleted and has its finalizer persisted; the finalizer goes only when the recorded endpoint and group are gone; AWS is only changed with a region and credentials that this reconcile could read; safety in every case, `LiveRel` or `DeletionRel` otherwise |
| Controller.ReconcileLive | controllers/vpcendpoint/vpcendpoint_controller.go:137-147 | The finalizer is persisted before the validations; which answer is given, and when: success, again in a minute, or an error |
| Controller.ReconcileDeleting | controllers/vpcendpoint/vpcendpoint_controller.go:148-183 | Cleanup from what is persisted; Stop only once the finalizer is gone; again in half a minute exactly when AWS refused to delete the group |
| Controller.RefusalAnswers | controllers/vpcendpoint/vpcendpoint_controller.go:150-176 | A group that another live endpoint uses makes a cleanup without faults come back later instead of failing |
| Controller.ClientForCleanup | controllers/vpcendpoint/vpcendpoint_controller.go:97-128 | When a cleanup can go on although the cluster information cannot be read |
| Controller.PassKeepsSafe | controllers/vpcendpoint/validation.go:126-230 | A pass keeps the invariant, and a True record condition keeps its meaning while endpoint and zone are undisturbed |
| Controller.TearingKeepsSafe | controllers/vpcendpoint/cleanup.go:38-301 | A cleanup attempt, finished or not, keeps the invariant |
| Controller.StaysSafe | controllers/vpcendpoint/vpcendpoint_controller.go:83-220 | Every kind of reconcile keeps the invariant and writes the VPC at most once |
| Controller.RemovalMeans | controllers/vpcendpoint/vpcendpoint_controller.go:177-183 | A removed finalizer means that neither the recorded endpoint nor the recorded group is left |
| Validation.ValidateResources | controllers/vpcendpoint/validation.go:57-65 | Wherever a pass stops: safety, no mutating call when all is done, a cache that stays right unless an association was carried out by a call that failed; without faults it is done, or its group has just appeared, or its endpoint is not ready; no success with a zone that cannot be used or a rule that AWS rejects; no endpoint is touched before the group is in place, and no zone, record or service before the endpoint is in place or on its way |
| Validation.ValidateGroup | controllers/vpcendpoint/validation.go:69-116 | With duplicate-free desired rules a clean validation finishes the group or has just created it |
| Validation.ValidateEndpoint | controllers/vpcendpoint/validation.go:120-260 | Which endpoint is recorded and in which state; a True record condition goes on meaning what it says when the endpoint is undisturbed |
| Validation.RulesHealthyIsGroupHealthy | controllers/vpcendpoint/helpers.go:341-604 | Duplicate-free desired rules are acceptable to AWS whatever rules the group has |
| Validation.DnsIsPass | controllers/vpcendpoint/validation.go:262-281 | The three stages compose to the promises of a pass |
| Validation.ReadyForDns | controllers/vpcendpoint/helpers.go:946-962 | An available endpoint with its subnets has the DNS name that the record needs |
| Validation.FastPathSafeIff | controllers/vpcendpoint/validation.go:126-230 | Exactly when skipping the upsert is safe after an endpoint was seen in some state, whichever of the two status writes succeeded |
| Validation.ReplacedEndpointExample | controllers/vpcendpoint/validation.go:126-230 | A replacement that leaves the condition True: seen pending with the second write failed, or seen available |
| Validation.ReadyMeans | controllers/vpcendpoint/validation.go:42-55 | Ready exactly when some condition has been set and none of the five is False |
| Validation.ReadyIff | controllers/vpcendpoint/validation.go:42-55 | With nothing left to do a CR is ready exactly when its record, tags and service conditions are not stuck at False |
| SecurityGroupStage.ValidateSecurityGroup | controllers/vpcendpoint/validation.go:69-116 | The group that is found gets its tags and exactly the missing rules: on success it grants every entry of the spec, and every other rule was there before; a finished group is left alone; at most one group carries the tags; a rule asked for twice and missing stays missing, and the stage fails |
| SecurityGroupStage.FindOrCreateSecurityGroup | controllers/vpcendpoint/helpers.go:244-303 | Creation only when neither id nor tags find a group; afterwards at most one exists even if waiter or status write fail |
| SecurityGroupStage.CreateMissingSecurityGroupTags | controllers/vpcendpoint/helpers.go:307-336 | All default tags or an error; nothing is sent when they are there |
| SecurityGroupStage.GenerateMissingSecurityGroupRules | controllers/vpcendpoint/helpers.go:341-604 | Exactly the desired rules that are missing, in order, for both directions |
| SecurityGroupStage.AuthorizeSecurityGroupRules | pkg/aws_client/security_group_rules.go:41-61 | Nothing, the ingress part or both parts take effect, and which of them when |
| SecurityGroupStage.GroupCreated | pkg/aws_client/security_group.go:116-146 | Creating a group for a CR that has none keeps the invariant, whether or not its id gets recorded |
| SecurityGroupStage.IngressLeavesEgress | pkg/aws_client/security_group_rules.go:41-61 | After a pass that only got the ingress rules through, the egress rules are still the ones missing |
| SecurityGroupStage.ConfiguredIsDone | controllers/vpcendpoint/validation.go:81-96 | Tags and missing rules make the group done, and a done group is not changed |
| SecurityGroupStage.RulesMetIff | controllers/vpcendpoint/helpers.go:341-604 | No rule is missing exactly when the group grants every entry of the spec |
| SecurityGroupStage.ConfiguredMeans | controllers/vpcendpoint/validation.go:81-96 | After its rules were authorized the group grants every entry, and each of its rules was there before or is one the spec means |
| Rules.GenerateMissing | controllers/vpcendpoint/helpers.go:386-546 | The nested searches yield the desired rules that are not there yet |
| Rules.GenerateForEntry | controllers/vpcendpoint/helpers.go:387-464 | The rules an entry expands to that are not there yet, in order |
| Rules.DesiredIff | controllers/vpcendpoint/helpers.go:386-546 | A rule is desired exactly when it has direction, protocol and ports of an entry and is for the entry's own CIDR, else for the VPC's in use, else for one of the node groups |
| Rules.AllGrantedIff | controllers/vpcendpoint/helpers.go:386-546 | Every desired rule is there exactly when each entry's own CIDR, else the VPC's, else all of the node groups are let in |
| Rules.Present | controllers/vpcendpoint/helpers.go:608-620 | The inner search finds a rule with the same ports, protocol and peer exactly when there is one |
| Rules.AuthorizeConverges | controllers/vpcendpoint/validation.go:86-96 | Existing plus authorized is existing union desired, nothing sent was there, a second generation is empty |
| Rules.PartialPassResumes | pkg/aws_client/security_group_rules.go:41-61 | A pass whose egress call failed is completed by the next one |
| Rules.RequestIsAcceptable | controllers/vpcendpoint/helpers.go:386-546 | AWS takes the request exactly when no missing rule is asked for twice |
| EndpointStage.ValidateVPCEndpoint | controllers/vpcendpoint/validation.go:120-260 | What is persisted for every state the endpoint is seen in, also when only the first of the two writes succeeds; done or waiting on success, never with a failed endpoint; an endpoint that is made is for the recorded service and VPC, with the CR's tags; a done endpoint is left alone |
| EndpointStage.FindOrCreateVpcEndpoint | controllers/vpcendpoint/helpers.go:626-679 | Creation only when neither id nor tags find an endpoint; the result is always the recorded id; at most one exists afterwards; what is made is for the recorded service, in the recorded VPC, with the CR's tags |
| EndpointStage.FollowState | controllers/vpcendpoint/validation.go:141-259 | The switch over the states: what is written, deleted and attached, and which conditions follow; no success with a failed endpoint; a group is never taken from an endpoint that had one |
| EndpointStage.SwapSubnets | controllers/vpcendpoint/helpers.go:682-765 | Remove then add ends with exactly the expected subnets; whatever call fails, once something has changed each zone has at most one of the endpoint's subnets |
| EndpointStage.EnsureVpcEndpointSecurityGroups | controllers/vpcendpoint/helpers.go:769-810 | Add then remove ends with exactly the recorded group, which from the first success on is always attached |
| EndpointStage.ExpectedSubnets | controllers/vpcendpoint/helpers.go:690-735 | The discovered and usable subnets, or the listed ones |
| EndpointStage.WantedInVpc | controllers/vpcendpoint/helpers.go:717-733 | Every discovered subnet lies in the CR's VPC and in a zone of the service, and is listed once |
| EndpointStage.EndpointCreated | pkg/aws_client/vpc_endpoint.go:197-218 | Creating an endpoint for a CR that has none keeps the invariant, whether or not its id gets recorded |
| SliceDiff.TwoWayDiff | pkg/util/helpers.go:21-48 | What to create and what to delete, each once |
| Subnets.FilterUsable | controllers/vpcendpoint/helpers.go:714-735 | The nested loop with its break takes each usable subnet once even if zones repeat |
| Subnets.UsableIdsAre | controllers/vpcendpoint/helpers.go:714-735 | Distinct ids, and exactly those of the usable subnets |
| Subnets.DescribeSubnetsByTags | pkg/aws_client/subnet.go:92-120 | The subnets that have all tags, in order |
| Subnets.AutodiscoverPrivateSubnets | pkg/aws_client/subnet.go:65-88 | Private subnets, else all of the cluster's, never an empty answer |
| Subnets.DiscoveredIff | pkg/aws_client/subnet.go:65-88 | A subnet is discovered exactly when it is tagged as asked and as the cluster's, and is private unless no such subnet is |
| Subnets.GetVPCId | pkg/aws_client/subnet.go:34-60 | The one VPC of all given subnets; without faults an error only when there is none |
| HostedZoneCache.GetHostedZoneCached | controllers/vpcendpoint/helpers.go:1069-1095 | A fresh entry without a call, otherwise a new answer; agreement with AWS is kept; every answer was true less than 120 seconds earlier |
| HostedZoneCache.AssociateOne | controllers/vpcendpoint/validation.go:372-395 | One VPC more is authorized and associated, with a secret that can be read, or nothing changes unless AWS carried out a call that failed |
| HostedZoneCache.AssociateMissing | controllers/vpcendpoint/validation.go:367-396 | Success means all VPCs are associated, none twice, and the secrets of those that were missing can be read; the entry used agrees afterwards unless AWS carried out a call that failed |
| HostedZoneCache.ValidateR53HostedZoneAuthorization | controllers/vpcendpoint/validation.go:348-400 | The same for the whole validation; nothing is sent when nothing is missing |
| HostedZoneCache.CacheInvAssociated | controllers/vpcendpoint/validation.go:391-394 | Dropping one entry after an association keeps the cache right for the CR's spelling of zone ids |
| HostedZoneCache.AgreesIff | controllers/vpcendpoint/helpers.go:1053-1106 | An entry in use is what AWS would answer exactly when the zone exists and no change of its VPCs went unseen |
| HostedZoneCache.AccountedAssociation | controllers/vpcendpoint/validation.go:384-394 | After an association, told or not, what is cached differs from the zone exactly in what went unseen |
| DnsStage.ValidateCustomDns | controllers/vpcendpoint/validation.go:262-281 | Everything about the zone, the record, the VPCs and the service that a pass promises, under every failure; only an association that AWS carried out in a call that failed makes a right cache wrong; no success with a zone that cannot be used, but for a record that counts as done without a mode; success when nothing is left to do |
| DnsStage.ValidateR53PrivateHostedZone | controllers/vpcendpoint/validation.go:284-346 | Which zone is settled on in each mode; a recorded zone is never forgotten; creation only for a domain no private zone serves |
| DnsStage.FindOrCreateZone | controllers/vpcendpoint/helpers.go:859-926 | A zone of the CR's VPC that serves the domain, else any private zone of that name, else a new one; at most one creation and only when nothing serves the domain |
| DnsStage.FindOrCreatePrivateHostedZone | controllers/vpcendpoint/helpers.go:813-928 | A recorded zone must exist under its bare spelling; otherwise the domain decides |
| DnsStage.CreateMissingPrivateZoneTags | controllers/vpcendpoint/helpers.go:1012-1051 | All default tags on success; nothing is sent when they are there |
| DnsStage.GetDefaultPrivateHostedZoneId | pkg/aws_client/route53_hosted_zone.go:31-45 | A zone of the VPC with the cluster's domain, an error exactly when there is none |
| DnsStage.MadeForMeans | controllers/vpcendpoint/helpers.go:836-865 | Which domain a zone is made for: `.domainName`, else what the reference names, for a hosted control plane below its own domain |
| DnsStage.ServesIff | controllers/vpcendpoint/helpers.go:867-878 | A zone serves a domain exactly when it is private and bears the domain's name with a dot added |
| DnsStage.CreatedZoneServesIff | controllers/vpcendpoint/helpers.go:867-878 | A created zone is recognized again exactly when the domain has no trailing dot |
| DnsStage.CreatedAgainIff | controllers/vpcendpoint/helpers.go:859-926 | After a creation whose id was not recorded no zone serves the domain, so that it is created again, exactly when the domain has a trailing dot |
| DnsStage.NoModeSucceedsIff | controllers/vpcendpoint/validation.go:262-281 | Without a DNS mode a clean DNS validation succeeds exactly when the recorded zone exists, or the record counts as done and there are no further VPCs |
| DnsStage.ZoneHealthyIff | controllers/vpcendpoint/helpers.go:813-834 | What the zone stage needs falls into what others offer and the recorded zone not being one that cannot be used |
| DnsStage.ValidateR53HostedZoneRecord | controllers/vpcendpoint/validation.go:403-466 | Skipped when both conditions are True; otherwise the upsert comes before the status; an empty zone id is an error |
| DnsStage.GenerateRoute53Record | controllers/vpcendpoint/helpers.go:931-963 | A value only for an endpoint with a DNS name, and always then |
| DnsStage.ValidateExternalNameService | controllers/vpcendpoint/validation.go:469-559 | The service names the record on success; its condition is set to True together with a write of the service, to False by a read or write that failed, and else left alone |
| DnsStage.ValidateBelowZone | controllers/vpcendpoint/validation.go:269-278 | Record, associations and service in this order: a VPC that cannot be associated does not keep the record from being written, and the service is not written before all are |
| DnsStage.RecordStepKeepsRecordTrue | controllers/vpcendpoint/validation.go:436-460 | The upsert keeps and establishes what a True condition promises, also between the two writes |
| DnsStage.SkipRefinesUpsertIff | controllers/vpcendpoint/validation.go:409-417 | Skipping the upsert does what upserting would exactly when zone, endpoint and name are those the record was written for |
| DnsStage.FoundZoneSafeIff | controllers/vpcendpoint/validation.go:300-313 | After a zone was found, a True record condition keeps its meaning exactly when that is the recorded zone |
| DnsStage.SwappedZoneLacksRecord | controllers/vpcendpoint/validation.go:300-313 | A VPC moved to another zone of the cluster's name: the other zone is recorded, has no record, and the record counts as done |
| DnsStage.TailChoice | controllers/vpcendpoint/validation.go:269-278 | Record, associations and service leave the zone that the mode settled on settled |
| DnsStage.BothProgress | controllers/vpcendpoint/validation.go:269-278 | Calm stays calm unless an association was carried out by a call that failed, done is left alone, and in healthy surroundings a clean pass finishes the DNS stage |
| Cleanup.CleanupAwsResources | controllers/vpcendpoint/cleanup.go:38-301 | Wherever it stops, the world it leads to is conserved; success reaches it; without faults it succeeds when zone, base domain, deletion time and group allow it, and only then unless another endpoint with the group is itself being deleted |
| Cleanup.CleanUpRecord | controllers/vpcendpoint/cleanup.go:51-104 | Exactly the records whose name is the recorded one with a dot go, then the status forgets them; without faults it succeeds exactly when the zone is there, and without the zone never |
| Cleanup.CleanUpZone | controllers/vpcendpoint/cleanup.go:107-195 | Which zone goes, by the base domain the cleanup went by: the real one, or none when a hosted control plane CR could not read it; a clean run fails only when the base domain must be known and is not |
| Cleanup.ClearAndDeleteZone | controllers/vpcendpoint/cleanup.go:149-174 | Clearing and retrying deletes the zone and touches no other |
| Cleanup.DeleteRecords | controllers/vpcendpoint/cleanup.go:73-84 | The loops delete the records of one name, or all but NS and SOA, and no others however they end; an interrupted loop leaves the rest to be cleared to the same end |
| Cleanup.PollUntilGone | controllers/vpcendpoint/cleanup.go:218-263 | At most 36 describe calls; success only when the endpoint is absent or deleted; exactly when the deletion ends in time; a cancelled wait is an error |
| Cleanup.CleanUpEndpoint | controllers/vpcendpoint/cleanup.go:197-270 | The endpoint is gone before the cleanup goes on; other endpoints are untouched |
| Cleanup.CleanUpGroup | controllers/vpcendpoint/cleanup.go:272-296 | The group goes exactly when no live endpoint uses it; a missing one is a success |
| Cleanup.EndpointThenGroup | controllers/vpcendpoint/cleanup.go:197-301 | The phases compose to the promises of the whole cleanup |
| Cleanup.ClearedAgain | controllers/vpcendpoint/cleanup.go:73-84 | Clearing finishes what a partial clearing began |
| Cleanup.RecordedOnesGo | controllers/vpcendpoint/cleanup.go:197-297 | After a finished cleanup exactly the recorded group and endpoint are gone |
| Cleanup.ZonesThatGo | controllers/vpcendpoint/cleanup.go:107-195 | Exactly which zone is deleted, by the base domain that cleanup went by, and that only the recorded record goes from a zone that stays |
| Cleanup.OthersAreKept | controllers/vpcendpoint/cleanup.go:51-104 | Whatever fails, an attempt takes from a zone that stays only records whose name is the recorded one with a dot |
| Cleanup.HeldRecordIsGone | controllers/vpcendpoint/cleanup.go:51-104 | After a finished cleanup the record that the CR had in a zone that stays is gone |
| Cleanup.ClusterZoneGoesIff | controllers/vpcendpoint/cleanup.go:107-135 | A finished cleanup deletes the cluster's own zone, when that is the recorded one, exactly when the CR names a domain by whatever field, unless `.domainName` is the base domain and could be read; it goes unread only for a hosted control plane CR and at the expense of a fault |
| Cleanup.ClusterZoneLost | controllers/vpcendpoint/cleanup.go:107-135 | An input on which one failed read deletes it |
| Cleanup.ReferencedClusterZoneLost | controllers/vpcendpoint/helpers.go:838-850 | A CR that refers to the cluster's DNS object: every finished cleanup deletes the cluster's zone, without any fault |
| Cleanup.DiscoveredZoneLost | controllers/vpcendpoint/validation.go:290-313 | So does every finished cleanup of a CR that discovers its zone and names another domain |
| Cleanup.OrphansStay | controllers/vpcendpoint/cleanup.go:197-297 | A group and an endpoint that never got recorded survive every finished cleanup |
| ClusterInfo.ParseClusterInfo | controllers/vpcendpoint/helpers.go:53-186 | Everything recorded is what the cluster says; the VPC is written once, is one the spec allows, and is persisted before anything can be created; an error without faults means that something cannot be read |
| ClusterInfo.ChooseVpc | controllers/vpcendpoint/helpers.go:131-175 | The least used tagged or listed VPC, else the one of the subnets |
| ClusterInfo.AllowedMeans | controllers/vpcendpoint/helpers.go:131-175 | A VPC with every tag, or a listed one, and none of those has fewer endpoints |
| ClusterInfo.RefreshInfra | controllers/vpcendpoint/helpers.go:56-93 | The readable infra id, else the recorded one |
| ClusterInfo.GetVpcEndpointServiceName | controllers/vpcendpoint/helpers.go:205-238 | The readable service name, else the recorded one, never an empty one |
| VpcSelection.SelectVPCForVPCEndpoint | pkg/aws_client/vpc_endpoint.go:36-81 | For every paging and iteration order one of the given VPCs with the fewest endpoints |
| VpcSelection.FilterVpcIdsByTags | pkg/aws_client/vpc_endpoint.go:84-114 | Exactly the VPCs that have every tag with its value |
| VpcSelection.PlaceEndpoints | pkg/aws_client/vpc_endpoint.go:36-81 | Over any number of placements the spread never exceeds the larger of one and what it was |
| VpcSelection.PlacementKeepsSpread | pkg/aws_client/vpc_endpoint.go:66-71 | A placement where the load is least does not widen the gap beyond one |
| VpcSelection.ListingCountsLoad | pkg/aws_client/vpc_endpoint.go:54-64 | Counting over pages counts the endpoints of a VPC |
| Naming.NamedIff | pkg/util/naming.go:86-138 | There is a name exactly when prefix and suffix, or the cluster, are not empty |
| Naming.NameLength | pkg/util/naming.go:123-138 | 256 characters at exactly one prefix length, at most 255 otherwise |
| Naming.NameIsUniqueIff | pkg/util/naming.go:123-138 | Exactly which prefixes give a name no other prefix gives |
| Naming.TagsIdentifyOwner | pkg/util/naming.go:86-121 | Name tag and cluster key determine infra id and CR name, dashes notwithstanding |
| Naming.UncutNames | pkg/util/naming.go:105-138 | The names that are given: infra id, CR name and kind, with dashes |
| Naming.GivenNamesIdentifyOwner | pkg/util/naming.go:86-121 | The same of the names that groups and endpoints are given |
| Naming.GroupNameIsOwnIff | pkg/util/naming.go:105-138 | Exactly which CR names give a group name that no other CR of the cluster has |
| Reconciler.OwnedByOne | controllers/vpcendpoint/helpers.go:244-303 | What is made for one CR has the tags by which another looks for its own exactly when both have the same infra id and the same name |
| Naming.GroupAndEndpointNamesDiffer | pkg/util/naming.go:105-121 | A group and an endpoint never share a name |
| Naming.GenerateAwsTagsAsMap | pkg/util/naming.go:71-83 | The map the tag list stands for, an error exactly for empty input |
| Naming.TagsContains | controllers/vpcendpoint/helpers.go:993-1008 | True exactly when every wanted tag is in the list |
| Naming.ContainsDefaultTagsIff | controllers/vpcendpoint/helpers.go:307-336 | For the map of the default tags that is whether the tag record of the group has them, so the stage decides as the list does |
| Kube.IsVpcEndpointReady | controllers/vpcendpoint/validation.go:45-55 | Ready exactly when there is a condition and all are True |
| Template.Reconcile | controllers/vpcendpointtemplate/vpcendpointtemplate_controller.go:52-117 | A clean pass serves every hosted control plane exactly when no name is taken, and leaves in each namespace what had the spec, or exactly one; what has the spec in a live namespace stays whatever fails; a served cluster is left alone even with faults; a deleted template takes exactly what its selector covers and creates nothing; an object that lacks a match label is never touched |
| Template.KeepServing | controllers/vpcendpointtemplate/vpcendpointtemplate_controller.go:119-192 | Any number of further passes writes nothing |
| Template.ExactlyOneIff | controllers/vpcendpointtemplate/vpcendpointtemplate_controller.go:126-178 | After a clean pass over a live namespace exactly one is left exactly when at most one had the spec, and never more than there were |
| Template.DuplicatesStay | controllers/vpcendpointtemplate/vpcendpointtemplate_controller.go:153-171 | Two with the spec both stay for any number of passes, whatever fails |
| Template.TwoLeftExample | controllers/vpcendpointtemplate/vpcendpointtemplate_controller.go:153-171 | Three selected, two with the spec: a pass leaves two and takes them for right |
| Template.ValidateAll | controllers/vpcendpointtemplate/vpcendpointtemplate_controller.go:119-192 | After a clean pass each live namespace has what had the spec, or exactly one, all with the spec, and a deleting one none; what had it stays, and an object that lacks a match label is left alone, however it ends |
| Template.ValidateNamespace | controllers/vpcendpointtemplate/vpcendpointtemplate_controller.go:127-189 | The same for one namespace; an error without faults exactly when a new object is needed and its name is taken |
| Template.LacksIff | controllers/vpcendpointtemplate/vpcendpointtemplate_controller.go:121-132 | An object is not selected exactly when it lacks a match label or has it with another value |
| Template.FitsIff | controllers/vpcendpointtemplate/vpcendpointtemplate_controller.go:70-99 | An object is covered exactly when it has every match label and meets every expression |
| Template.StrangersOutcome | controllers/vpcendpointtemplate/vpcendpointtemplate_controller.go:119-192 | A clean pass over a live namespace that holds only objects lacking a match label adds exactly the template's own object |
| Template.ReduceToOne | controllers/vpcendpointtemplate/vpcendpointtemplate_controller.go:153-177 | Several selected: exactly those with the spec are left, and they stay even with faults; one is created when there is none |
| Template.DeleteListed | controllers/vpcendpointtemplate/vpcendpointtemplate_controller.go:156-171 | The loops touch only listed objects without the spec to keep, and find whether one has it |
| Template.ReplaceVpcEndpointSpec | controllers/vpcendpointtemplate/vpcendpointtemplate_controller.go:211-221 | The template's spec on success; nothing is written when it is there |
| Template.DeleteTemplate | controllers/vpcendpointtemplate/vpcendpointtemplate_controller.go:70-99 | The finalizer goes only when everything covered is gone or on its way out |

## Left out

- AWS SDK, STS, credential parsing and Kubernetes client plumbing: each call is one method with its possible answers.
- Eventual consistency of tag lookups and of the API server's cache: a lookup sees everything created before it; one worker reconciles a CR at a time.
- AWS rewriting of rule protocols and CIDRs: rules are compared as AWS was asked for them.
- Unread listing pages: zones and records are taken to fit one page, as the program does.
- Spelling of zone ids: AWS is taken to accept a zone id with and without its /hostedzone/ prefix for the same zone.
- The value of the cluster tag: a group either has the cluster tag or not.
- The association credentials and the VPC's region: a secret can be read or not.
- The text part of the status, events, metrics and log lines: only ids and conditions are modelled.
- Characters: a string is a sequence of single-byte characters, as infra ids, CR names and domain names are.
- Exponential backoff and the workqueue: a run takes reconciles in any order and number; `Settle` waits for none.
- HCP hostname parsing, DNS and Infrastructure lookups: their answers are inputs that may be unavailable.
- The watch that turns a hosted control plane event into template requests: it only fills a set.
- The acceptance controller, the v1alpha1 types, CRD validation rules, main and the boilerplate scripts: one filter loop or generated.
- Deletion of a VpcEndpoint by the template controller: it completes at once, or at the environment's expense lingers.
- Runs.KeepRecord: assumes that nobody else disturbs the record and that status writes succeed; `DnsStage.SkipRefinesUpsertIff`, `DnsStage.FoundZoneSafeIff` and `Validation.FastPathSafeIff` say exactly what happens otherwise.
- Time within a reconcile of a CR that is not being deleted: none passes, so no cache entry expires while it runs.
- The CR's identifying tags on its own group and endpoint: nobody else gives or takes them; the other tags may drift.
- Convergence.Settle: assumes what `Hopeful` says of others: a pending endpoint is accepted between two reconciles and a new one is neither rejected nor failed from the start, because both are the service owner's part; everything that is looked up can be read, and the spec lists no rule and no further VPC twice and subnets in distinct zones. `Runs.StayRefused` says what a rule listed twice does.
