# Verification of the ONU control plane

This project models the protocol state machines and algorithms of the G.988 control plane in Dafny and
proves properties of the model. `dafny verify dfyconfig.toml` checks all of it. Each module models one
component; the first comment of a module names the source file.

| modules | what they model |
|---|---|
| MulticastRuntime, RuntimeState, ReportRate, LeaveProtocol, StreamTable, Membership, SourceLists, FilterBackend | the IGMP/MLD proxy: client filters, their aggregation, delayed leaves, timers, upstream reports and the downstream rule table |
| NetworkView, InformedNetwork, MisleadingRuns, HeardReports | what the network learns from the reports, and when it knows what the clients accept |
| PolicyEngine, PolicyMatch, PolicyCompile, Admission, PreviewPacing, MulticastTypes | admission of streams against group and bandwidth limits, previews, configuration |
| AddressBlocks, RangePrefixes, PowersOfTwo | splitting an address range into prefixes, with 32-bit wrap-around and 16-byte arithmetic |
| MembershipFrames, MembershipWire, QueryFrames, InternetChecksum, FloatingCode, WireBytes | building and parsing membership frames |
| SoftwareTransfer, SoftwareEngine, SoftwareImages | software download, activation and commit |
| Crc32a, GponFrame | CRC-32 of ITU-T I.363.5 and the acceptance of downstream frames |
| MibStore, TableRules, TableUpdates, KeyedRows, MulticastTables, VlanRows | the transactional MIB store, its byte tables and their update rules |
| StatusSnapshots, FrameDispatcher, TransactionReplay, MibUpload, NextFit | snapshot ring, dispatcher, replay, upload and table transfer |
| Sequences, Clock, Arithmetic | options and concatenation, times, and products, shared by the other modules |

## How to read the model

- A mutex makes each public method of the original one atomic step. The clock is a number that never runs
  backwards; an operation reads it once.
- Classes have the fields of the original. Ghost fields record histories (accepted reports, queries, preview
  attempts, accepted documents, deliveries) so that whole-run properties are invariants of the class, and
  lemmas inside the class turn the invariant into the statement about runs.
- Go's map iteration is an arbitrary choice from the remaining keys, so results hold for every order.
- The platform, the backend and the network may accept or refuse at every call; the outcome is a parameter or
  an arbitrary choice. The leaves and timers of the runtime return `refused`, which says that the backend did:
  without it, a failure has an exact condition, and the invariants hold after it too.
- The state of the network is what the records in the frames sent so far ask it to deliver
  (`NetworkView.RecordSent`, tied to the bytes by `HeardReports`). A run is the sequence of steps since the last
  configuration, each ruled by a profile in force for its subscriber and VLAN; the runtime's invariant is that
  its state is the end of such a run.
- A table is stored by its rules (`TableRules.Stores`) when its bytes are the canonical encoding of a map of
  valid rows that satisfy the rules of that table.
- Addresses are a family with a number in the policy and the runtime, and bytes where the code works on bytes.
  Counters wrap where the original's do.

## What the proofs found

- Burst detection is not unconditional. An error that adds four to the length field of an extended GPON frame
  makes its MIC read as contents, and the frame is accepted (`GponFrame.LengthBurstIsMissed`);
  `GponFrame.BurstDetection` is the exact condition.
- An include-mode record that lists the unspecified address programs the wildcard entry and so receives every
  source (`Membership.ProgrammedExactlyWhen`).
- The network does not always deliver what the clients accept. With every report sent, it does after every run
  if and only if every profile in force for a bound subscriber is a proxy of version 3 or 17, without a report
  limit, that keeps unauthorized joins to itself (`InformedNetwork.InformsExactlyWhen`). Each way to fail is a
  run, and is shown on the operations of the runtime in `MisleadingRuns`: the limit suppresses a report, which
  is not repeated (`LimitMisleads`, by a client that joins and changes its exclusions); a snooping profile
  reports one client of several (`SnoopingMisleads`); a join that was not authorized is forwarded
  (`ForwardedMisleads`); a version without source lists asks for every source (`LegacyMisleads`), and an IGMPv1
  leave has no frame at all (`SilentLeaveMisleads`). A proxy's step that changes what a group accepts leaves the
  network informed exactly when its report is admitted and sent (`NetworkView.ChangeInforms`), and the next
  faithful report of the group repairs what was missed (`NetworkView.ReportInforms`).
- A new configuration forgets the clients without a report, so the network goes on delivering exactly the groups
  that had clients (`InformedNetwork.ReconfigurationMisleads`). It also restarts the pacing of previews, whose
  next start keeps the pacing of its window exactly when the forgotten starts would have allowed it
  (`MulticastRuntime.Runtime.PreviewsRestart`).
- A MIB reset brings back the factory's software image flags without looking at the slots in use. The MIB then
  offers the running image for a download, and a commit of the image it shows as committed never reaches the
  platform (`SoftwareImages.ImageTable.RunningImageIsOverwritten`, `SoftwareImages.ImageTable.ResetMib`).
- The runtime tells clients apart by address and MAC address, the policy engine by address alone. A client
  leaves its stream, unless the backend refuses, if and only if the engine holds an entry for its address
  (`MulticastRuntime.Runtime.FinalizeClientLocked`). Of two clients that share an address only the first can
  leave: the second has no entry then, and its leave fails after its rule has been deleted, or stays due, so
  that every later expiry fails (`TwinLosesEntry`, `OrphanCannotLeave`, `Expire`).
- A preview whose deadline has passed goes unnoticed when anyone joins before the next expiry: the join sweeps
  the engine and discards what it swept, and the client stays in its stream without an entry
  (`MulticastRuntime.Runtime.ExpiryGoesUnnoticed`).
- A retransmission is recognized by channel and transaction number alone; its contents are not compared
  (`TransactionReplay.Replayed`).
- The upper clamp of an edited preview timer is unreachable (`MulticastTables.TimerAfterEdit`). A robustness
  above seven is sent as zero in a query (`QueryFrames.QueryRoundTrip`).
- The tagging rules of a new VLAN instance stand in descending key order; the first accepted update sorts them
  (`TableRules.DefaultTableIsNotStored`, `TableRules.RunCarriesContent`).
- When the backend refuses the rule of a joining client, the rollback also removes a client that was in the
  stream before, and leaves a stream without clients if that was its only one
  (`RuntimeState.TakenBackEmpties`). When it refuses the rule of a refreshed client, the rollback writes back
  the previous client, or a zero client when the stream held none (`RuntimeState.WrittenBackMisfiles`).

## Model

| member | source | states |
|---|---|---|
| MulticastRuntime.Runtime.NetworkIsInformed | internal/multicast/runtime.go:599-620 | over every run: once the network delivers exactly what the clients of a group accept, it keeps doing so as long as every later step of the group is a proxy's, of a version that lists sources, no forwarded join, and has its report, if one is due, admitted and sent; what the network delivers is what the records in the frames ask for |
| MulticastRuntime.Runtime.PlainProxiesInform | internal/multicast/runtime.go:599-620 | when every profile in force is a proxy of version 3 or 17 without a limit that keeps unauthorized joins to itself, and the backend has sent every report, the network delivers exactly what the clients accept, for every group it delivered nothing of at the configuration and every group reported since |
| InformedNetwork.InformsExactlyWhen | internal/multicast/runtime.go:599-620 | the condition is exact: no run whose reports are all sent misleads the network, whatever the policy decides, if and only if every configured profile that is in force for a bound subscriber and some VLAN is a proxy of version 3 or 17 without a limit that keeps unauthorized joins to itself |
| InformedNetwork.LimitMisleads | internal/multicast/runtime.go:600-615 | the failing run of a limit, for every limited proxy: one client joins and changes what it excludes, one report more in a second than the limit allows; nobody leaves |
| MisleadingRuns.LimitMisleads | internal/multicast/runtime.go:441-490 | the same on the runtime: from any state in which the network is right about a group without clients, one accepted join and changed exclusions until the limit of the second is used up leave the network wrong, although the backend sent every report it was given |
| MisleadingRuns.FirstJoin | internal/multicast/runtime.go:367-439 | the first join of a group leaves the network informed exactly when the limit admits its report |
| MisleadingRuns.ChangeMind | internal/multicast/runtime.go:441-490 | a client alone in its group that changes one exclusion leaves the network informed exactly when the limit admits its report; it keeps the profile it was admitted under |
| NetworkView.ChangeInforms | internal/multicast/runtime.go:599-620 | a proxy's step that changes what a group accepts is always reported, and leaves the network informed exactly when the report is admitted and sent |
| InformedNetwork.SnoopingMisleads | internal/multicast/runtime.go:579-583 | the failing run of a snooping profile: of two clients of a stream one leaves, and the network stops delivering to the other |
| MisleadingRuns.SnoopingMisleads | internal/multicast/runtime.go:492-597 | the same on the runtime: two accepted joins of one stream and the leave of the first, once its report is admitted and sent, leave the network wrong |
| InformedNetwork.SnoopedLeaveNeverInforms | internal/multicast/runtime.go:579-583 | no reported leave of a snooping profile leaves the network informed while the stream has other clients |
| InformedNetwork.ForwardedMisleads | internal/multicast/runtime.go:380-389 | the failing run of a forwarded join: the network delivers a group that has no client |
| MisleadingRuns.ForwardedMisleads | internal/multicast/runtime.go:380-389 | the same on the runtime: a join for a group without clients that the policy refuses and has forwarded, once its report is admitted and sent, leaves the network wrong |
| InformedNetwork.ForwardedNeverInforms | internal/multicast/runtime.go:380-389 | no forwarded join that is heard leaves the network informed of a group without clients |
| InformedNetwork.LegacyMisleads | internal/multicast/report_build.go:104-120 | the failing run of a version without source lists: the network delivers every source to a client that accepts one |
| MisleadingRuns.LegacyMisleads | internal/multicast/runtime.go:367-439 | the same on the runtime: an accepted join for one source of a group without clients, under such a version, leaves the network wrong once its report is admitted and sent |
| InformedNetwork.LegacyInformsExactlyWhen | internal/multicast/report_build.go:104-120 | a join heard under such a version leaves the network informed exactly when the clients accept every source |
| InformedNetwork.SilentLeaveMisleads | internal/multicast/report_build.go:105-108 | IGMPv1 has no leave: however long after its join the only client of a proxy leaves, the network still delivers every source |
| InformedNetwork.Version1InformsExactlyWhen | internal/multicast/report_build.go:105-108 | over any run under IGMPv1, once the network delivers every source of a group it is right about the group exactly while the clients accept every source, and never again after they have left |
| MisleadingRuns.SilentLeaveMisleads | internal/multicast/report_build.go:105-108 | the same of every state of the runtime, whatever made the clients leave |
| InformedNetwork.ReconfigurationMisleads | internal/multicast/runtime.go:238-257 | a new configuration forgets the clients without a report: of the groups it was informed of, the network stays informed of exactly those without clients |
| NetworkView.ReportInforms | internal/multicast/runtime.go:599-620 | one faithful report informs the network of its group, whatever the network had heard before |
| NetworkView.NoReportOwed | internal/multicast/runtime.go:584-596 | a proxy's step without a report changes neither what the network has heard nor what the clients of the group accept |
| NetworkView.StepIsLocal | internal/multicast/runtime.go:994-1073 | a step changes neither what is heard nor what is accepted of a group with another subscriber, interface, address or VLAN |
| NetworkView.TruthfulRecord | internal/multicast/report_build.go:121-163 | the record built for a truthful report means exactly what the clients accept, in the versions that list sources |
| NetworkView.StepInforms | internal/multicast/runtime.go:579-620 | a step leaves the network informed of a group if it is faithful or concerns another group |
| NetworkView.RunInforms | internal/multicast/runtime.go:599-620 | so does any sequence of such steps |
| HeardReports.SameRecord | internal/multicast/report_build.go:97-262 | the frame built for a report carries the record that the network is said to hear; an IGMPv1 leave has neither |
| HeardReports.SameDemands | internal/multicast/report_build.go:15-262 | a report can be sent if and only if its frame can be built, or it is an IGMPv1 leave |
| HeardReports.ReportIsHeard | internal/multicast/report_build.go:15-262 | a parser of the frame reads exactly the record that the network is said to hear |
| NetworkView.SameExclusionsAccept | internal/multicast/runtime.go:1106-1124 | two client sets with the same common exclusions accept the same sources, so an unchanged replication group needs no report |
| MulticastRuntime.Runtime.SendReportLocked | internal/multicast/runtime.go:599-620 | the network hears the record of the report if and only if the limit admits it and the backend sends it; otherwise it has heard what it had heard before |
| MulticastRuntime.Runtime.Transmit | internal/multicast/runtime.go:600-619 | a report is admitted if and only if its profile has no limit or fewer than the limit were admitted in the current second, and the window moves accordingly; a report beyond the limit is dropped without an error, and a sent one has a frame |
| ReportRate.LimitIsExact | internal/multicast/runtime.go:600-615 | in every second of any run with a non-decreasing clock, the number of reports sent is the smaller of the number attempted and the limit |
| MulticastRuntime.Runtime.constructor | internal/multicast/runtime.go:174-186 | a new runtime has no streams, has told the network nothing and satisfies every invariant |
| MulticastRuntime.Runtime.Configure | internal/multicast/runtime.go:191-258 | a rejected or unchanged configuration leaves every field of runtime, engine and rule table as it was; an accepted one is valid, installs exactly its profiles and subscribers, forgets all clients, timers, counters, preview histories and dynamic rules, and restarts the general queries at once; what the network has heard stays, so it remains informed of exactly the groups without clients |
| MulticastRuntime.Runtime.PreviewsRestart | internal/multicast/runtime.go:238-257 | an accepted configuration restarts the pacing: the next attempt starts whatever came before, and together with the earlier starts it keeps the pacing of its window exactly when they would have allowed it, as they do when none lies in the window; a rejected or unchanged one keeps the whole history |
| PreviewPacing.RestartKeepsPacing | internal/multicast/policy.go:707-742 | an attempt without memory always starts; with the starts it has forgotten it is paced exactly when the history would have allowed it |
| MulticastRuntime.Runtime.Handle | internal/multicast/runtime.go:263-285 | keeps rule table, pending leaves and network view right; the memberships go through one step per record, in order, each being the record's filter cut down in include mode to what is forwarded; queries and downstream messages change no client |
| MulticastRuntime.Runtime.ApplyRecordLocked | internal/multicast/runtime.go:323-365 | after one record the client is filed, with the right exclusions, under every source it forwards; its membership is the record's filter, cut down in include mode to the accepted or already forwarded sources, and is dropped when nothing is forwarded |
| RuntimeState.RecordIsDelivered | internal/multicast/runtime.go:323-365 | when no source was refused, the entries of the client deliver a source if and only if the record, applied to what the client asked for before, asks for it |
| MulticastRuntime.Runtime.AddLocked | internal/multicast/runtime.go:367-439 | the client is filed if and only if the policy engine accepted the join, on the terms of its decision; a refused join changes no stream, leave or rule; when the backend refuses the rule, the client is taken out of the stream, also one that was in it before, and the engine forgets its entry |
| RuntimeState.TakenBackEmpties | internal/multicast/runtime.go:414-422 | that rollback leaves a stream without clients, which breaks the invariant, if and only if the client was the only one of the stream |
| MulticastRuntime.Runtime.RefreshLocked | internal/multicast/runtime.go:441-490 | a refreshed client carries the engine's current terms, the new exclusions and the new time; its pending leave is gone; when the backend refuses the rule, the previous client is written back |
| RuntimeState.WrittenBackMisfiles | internal/multicast/runtime.go:466-476 | that rollback breaks the invariant if and only if the stream did not hold the client: it then files a zero client |
| MulticastRuntime.Runtime.RemoveLocked | internal/multicast/runtime.go:492-537 | a leaving client goes at once if and only if other clients stay or the profile says so; otherwise nothing is removed and its leave waits with one query sent and robustness minus one to come; an unknown client changes nothing; unless the backend refuses, it fails exactly when the client's profile is gone or a client that should go at once has no entry in the engine |
| MulticastRuntime.Runtime.DetachClient | internal/multicast/runtime.go:548-578 | unless the backend refuses, a client leaves its stream, and a last client's stream leaves the table, if and only if the engine holds an entry for its address; otherwise the client stays and the rule of a last client is already deleted |
| MulticastRuntime.Runtime.FinalizeClientLocked | internal/multicast/runtime.go:539-597 | exactly this client, its engine entry and its pending leave go, the stream with its last client; unless the backend refuses, it fails if and only if the client is there and the engine holds no entry for its address, and then client and pending leave stay while the rule of a last client is already deleted |
| MulticastRuntime.Runtime.StoreClient | internal/multicast/runtime.go:394-437 | storing a client cancels its pending leave, programs and reports it, and keeps every invariant, also when the report fails; when the rule is refused no stream changes |
| MulticastRuntime.Runtime.Reprogram | internal/multicast/runtime.go:409-424 | the rule of the stream mirrors the new clients; no change of the rule means that the common exclusions are the same; a refused rule leaves the table as it was |
| MulticastRuntime.Runtime.ReportLeave | internal/multicast/runtime.go:579-596 | a proxy reports what is left of the group, or nothing when the group accepts what it accepted before; a snooping profile reports the stream of the client |
| MulticastRuntime.Runtime.Expire | internal/multicast/runtime.go:625-714 | afterwards no engine entry is past its deadline, no general query and no pending leave is overdue, no silent proxy client is left, all invariants hold, and every pending leave of a present client has advanced as its schedule says unless an expired entry may have taken the client; a blocked leave makes it fail and, unless the backend refuses, is blocked still afterwards, so every later call fails too |
| RuntimeState.ExpiryTouches | internal/multicast/runtime.go:630-704 | an expired entry touches no pending leave but that of a client with its stream and address |
| MulticastRuntime.Runtime.TwinLosesEntry | internal/multicast/runtime.go:558-564 | two clients that share an address but not a MAC address are one entry of the policy engine: after both have joined and the first has left, the second is the stream's only client and has no entry |
| MulticastRuntime.Runtime.OrphanCannotLeave | internal/multicast/runtime.go:492-597 | the only client of a stream without an entry cannot leave: with immediate leave, and only then, its leave fails with its rule already deleted; otherwise its queries are sent until its leave, or another before it, is blocked |
| MulticastRuntime.Runtime.SecondClientCannotLeave | internal/multicast/runtime.go:492-597 | the failing run: two such clients join, the first leaves, and the second cannot |
| MulticastRuntime.Runtime.ExpiryGoesUnnoticed | internal/multicast/policy.go:445-462 | a join by anyone sweeps a preview whose deadline has passed out of the engine and discards the list of what was swept, so its client stays in its stream without an entry |
| MulticastRuntime.Runtime.ExpireGroup | internal/multicast/runtime.go:630-704 | an entry the engine expired takes one client with its address out of the stream and the source out of the memberships it concerns |
| MulticastRuntime.Runtime.RunGeneralQueriesLocked | internal/multicast/runtime.go:716-732 | exactly the general queries that are due are sent, and each waits for one full interval from now |
| MulticastRuntime.Runtime.RunPendingLeavesLocked | internal/multicast/runtime.go:734-785 | every pending leave has advanced: one that was not due waits unchanged, a due one whose client is gone is dropped, a due one with queries left has one query more behind it, and any other due one has removed its client; unless the backend refuses, it fails only when a leave is blocked, and every blocked leave makes it fail |
| MulticastRuntime.Runtime.RunPendingLeave | internal/multicast/runtime.go:753-783 | the same for one leave, with all others untouched; unless the backend refuses, it fails if and only if the leave is blocked: due, with no query left and no entry in the engine |
| MulticastRuntime.Runtime.DelayedLeave | internal/multicast/runtime.go:492-537 | a client removed by the delayed leave had sent no accepted report since it left, was queried exactly robustness times with an interval between queries and before the removal, and went no earlier than robustness times the interval after its leave |
| LeaveProtocol.RemovedOnlyAfterQueries | internal/multicast/runtime.go:734-785 | the same for any history that the protocol allows |
| LeaveProtocol.LeavingShape | internal/multicast/runtime.go:525-536 | while a leave waits, the history of the client ends with that leave followed by nothing but the queries sent, spaced by the interval |
| MulticastRuntime.Runtime.ExpireProxyMembershipsLocked | internal/multicast/runtime.go:787-821 | exactly the clients of proxies that have been silent for the membership interval and are not already leaving go; the others keep their state and none of them is silent |
| MulticastRuntime.Runtime.LearnQueryLocked | internal/multicast/runtime.go:287-310 | a query teaches its robustness to exactly the profiles in force for its VLAN that leave it open and speak its protocol family |
| MulticastRuntime.Runtime.Bind | internal/multicast/runtime.go:208-228 | every interface is bound to the one subscriber that lists it, and only listed interfaces are |
| FilterBackend.Backend.SetReplication | internal/multicast/linux_backend.go:310-336 | the rule of the stream is replaced or deleted, or the table is as before when the rebuild failed |
| FilterBackend.Backend.Configure | internal/multicast/linux_backend.go:164-241 | the three tables are replaced together or not at all |
| FilterBackend.MirrorProgrammed | internal/multicast/linux_backend.go:310-336 | programming a stream for its clients keeps one rule per stream, except the streams whose rule was lost to a failed leave, and none besides, each excluding what all clients exclude |
| FilterBackend.MirrorUnchanged | internal/multicast/runtime.go:1106-1124 | leaving the rule alone is right when the common exclusions did not change |
| FilterBackend.MirrorDropped | internal/multicast/linux_backend.go:310-336 | deleting the rule of a stream with its last client keeps the table a mirror of the streams |
| FilterBackend.MirrorLost | internal/multicast/runtime.go:551-564 | deleting the rule of a stream whose client then stays makes that stream, and no other, one without a rule |
| StreamTable.EffectiveReplicationGroup | internal/multicast/runtime.go:994-1019 | whatever the map order, the result is some client's group with exactly the sources that every client excludes, sorted |
| StreamTable.EffectiveUpstreamGroup | internal/multicast/runtime.go:1021-1073 | whatever the map order, the aggregate exists if and only if the group has a stream, and it asks for a source if and only if some client of some stream accepts it; the first include source always exists |
| StreamTable.GatheredMeaning | internal/multicast/runtime.go:1027-1058 | the gathered include and exclude sets together mean the union of what all clients accept |
| Membership.TransitionMembership | internal/multicast/runtime.go:918-948 | the new filter asks for exactly what the record means on top of what was asked for before (section 4.2.12 of RFC 3376) |
| Membership.RecordsKeepMeaning | internal/multicast/runtime.go:918-948 | the same after any sequence of records |
| Membership.ProgrammedExactlyWhen | internal/multicast/runtime.go:950-959 | the entries programmed for a filter deliver what it asks for if and only if it does not list an unspecified address in include mode |
| SourceLists.SortedSources | internal/multicast/runtime.go:981-988 | the list is the ascending enumeration of the set |
| SourceLists.ListIsUnique | internal/multicast/runtime.go:981-988 | a set has one such list, so comparing lists compares sets |
| PolicyEngine.Engine.Join | internal/multicast/policy.go:445-548 | every subscriber stays within its group and bandwidth limits; only this subscriber's state changes besides the sweep; the answer, the new entry, the two wrapping counters and the preview attempt follow from the chosen row, the limits and the pacing; no entry past its deadline survives |
| PolicyEngine.OutcomeKeepsAdmissible | internal/multicast/policy.go:445-548 | whatever a join answers, distinct streams per subscriber and per package stay within non-zero group limits, and with enforcement on the bandwidth over distinct streams stays within the non-zero limits |
| PolicyEngine.AcceptedExactlyWhen | internal/multicast/policy.go:463-540 | a join is accepted if and only if its stream is active already, or a row matches, no limit is exceeded and a preview may start; a refusal changes nothing |
| PolicyEngine.OutcomeKeepsDeadlines | internal/multicast/policy.go:445-548 | no entry is stored with a deadline that has passed |
| PolicyEngine.ForwardsAsConfigured | internal/multicast/policy.go:477-481 | a refused join is forwarded upstream only when a configured profile, in force for the VLAN of the request, asks for it |
| PolicyEngine.Engine.Leave | internal/multicast/policy.go:774-799 | with a client address exactly that entry goes, without one every entry of the stream; the result says whether anything went |
| PolicyEngine.Engine.ExpireLocked | internal/multicast/policy.go:807-819 | exactly the entries past their deadline go and are listed, each once |
| PolicyEngine.Engine.StartPreviewLocked | internal/multicast/policy.go:707-742 | the verdict is the one the replay of all earlier attempts of this key gives |
| PolicyEngine.Engine.PreviewsArePaced | internal/multicast/policy.go:707-742 | over every run since a configuration, two starts of one preview in one reset window are a preview and its repeat time apart, and a window holds no more starts than a non-zero repeat count; the row that says so is the first one of the profile that covers source and group, also when the profile repeats a row key |
| PolicyEngine.HoldsExactlyWhen | internal/multicast/policy.go:774-799 | a leave removes something if and only if the subscriber has an entry of the stream for the client's address |
| PreviewPacing.StartsExactlyWhenAllowed | internal/multicast/policy.go:707-742 | a preview starts if and only if the history of starts in this window leaves a pause and a free place |
| PreviewPacing.StartsArePaced | internal/multicast/policy.go:707-754 | consecutive starts of a window are a full pause apart and within the repeat count |
| PreviewPacing.StartsAreSpread | internal/multicast/policy.go:707-754 | any two starts of a window are a full pause apart |
| PreviewPacing.LatestResetBounds | internal/multicast/policy.go:744-754 | the latest reset is at most now and less than a day ago |
| PreviewPacing.ReplayOfOneRow | internal/multicast/policy.go:707-742 | when every attempt consulted the same row, the stored state is the one its history gives |
| Admission.AdmissionKeepsAdmissible | internal/multicast/policy.go:483-510 | a new stream that passes the limits of the join keeps every limit, for the subscriber and for every package |
| Admission.RejoinKeepsAdmissible | internal/multicast/policy.go:463-475 | a further client of an active stream changes neither the number of streams nor their bandwidth |
| Admission.RemovalKeepsAdmissible | internal/multicast/policy.go:774-819 | dropping entries keeps every limit |
| Admission.ActiveStreamCount | internal/multicast/policy.go:685-695 | whatever the map order, the count is the number of distinct streams of the service |
| Admission.ActiveBandwidth | internal/multicast/policy.go:662-678 | whatever the map order, the sum counts the bandwidth of each distinct stream once |
| Admission.ActiveStream | internal/multicast/policy.go:697-705 | finds an entry of the stream if there is one |
| PolicyMatch.MatchLocked | internal/multicast/policy.go:550-607 | the match is the first free row; else the first row with a matching allowed preview; else the first row; none if and only if no row covers the request, and then the first forwarding profile is named |
| PolicyMatch.MatchIsAuthorised | internal/multicast/policy.go:550-655 | a match is a row of a configured profile that covers source and group, bills a package that takes the VLAN, and has no deadline in the past |
| PolicyCompile.Compile | internal/multicast/policy.go:302-389 | accepts exactly the valid configurations; the compiled profiles and subscribers are exactly the configured ones, and give the engine what its operations rely on |
| PolicyCompile.CompilePreviews | internal/multicast/policy.go:369-383 | accepts exactly distinct valid rows; a row has a deadline if and only if its timer runs, and it is now plus the time left |
| PolicyCompile.PreserveKeepsReady | internal/multicast/policy.go:275-300 | carrying running deadlines over to a new configuration keeps what the engine relies on |
| AddressBlocks.GreedyExact | internal/multicast/linux_backend.go:993-1030 | the greedy blocks are aligned, ascending and disjoint and hold exactly the interval |
| AddressBlocks.GreedyLength | internal/multicast/linux_backend.go:993-1030 | a w-bit interval needs at most 2w-2 blocks: 62 for IPv4, 254 for IPv6 |
| AddressBlocks.GreedyOptimal | internal/multicast/linux_backend.go:993-1030 | no list of aligned power-of-two blocks that covers the same interval is shorter |
| RangePrefixes.Ipv4RangePrefixes | internal/multicast/linux_backend.go:993-1009 | the 32-bit loop ends without wrapping past the top address and yields the greedy blocks |
| RangePrefixes.Ipv6RangePrefixes | internal/multicast/linux_backend.go:1011-1030 | the 16-byte loop ends without wrapping past the top address and yields the greedy blocks |
| RangePrefixes.BlockBits6 | internal/multicast/linux_backend.go:1016-1020 | the loop of single bits finds the largest aligned block that fits |
| RangePrefixes.Compare16 | internal/multicast/linux_backend.go:1062-1072 | byte order is numeric order |
| RangePrefixes.Increment16 | internal/multicast/linux_backend.go:1074-1082 | adds one to the 128-bit number, with overflow exactly at the top address |
| RangePrefixes.TrailingZeros16 | internal/multicast/linux_backend.go:1041-1052 | the exponent of the largest power of two dividing the address |
| RangePrefixes.PrefixLast16 | internal/multicast/linux_backend.go:1054-1060 | sets exactly the host bits: the last address of the block |
| RangePrefixes.AddressRangePrefixes | internal/multicast/linux_backend.go:983-991 | refuses mixed, invalid and inverted ranges; otherwise an exact, ordered, bounded and shortest cover |
| RangePrefixes.GreedyIsOptimalCover | internal/multicast/linux_backend.go:993-1030 | the greedy cover is exact, ordered, bounded and shortest |
| Crc32a.UpdateCRC32A | internal/checksum/crc32a.go:14-26 | the bit loop leaves the polynomial register of the whole message |
| Crc32a.CRC32A | internal/checksum/crc32a.go:28-34 | the complement of that register |
| Crc32a.FeedConcat | internal/checksum/crc32a.go:14-26 | updating with a concatenation is updating twice |
| Crc32a.FeedLinear | internal/checksum/crc32a.go:14-26 | the register is linear over exclusive or |
| Crc32a.FeedInjective | internal/checksum/crc32a.go:14-26 | different registers stay different under the same input |
| Crc32a.BurstLeavesTrace | internal/checksum/crc32a.go:14-26 | a non-zero error inside four consecutive octets never cancels out |
| Crc32a.ChecksumResidue | internal/checksum/crc32a.go:28-34 | a message followed by its checksum leaves one fixed register |
| GponFrame.ValidateGPONMIC | internal/engine/engine.go:1553-1558 | accepts exactly the checksum of the contents |
| GponFrame.ValidateFrame | internal/engine/engine.go:1502-1551 | accepts exactly: in GPON mode a frame whose trailer is gone or whose MIC is right, in XGS-PON mode a verified frame without trailer |
| GponFrame.BurstBreaksMic | internal/engine/engine.go:1553-1558 | an error inside four consecutive octets of a frame with a right MIC always makes the MIC wrong |
| GponFrame.BurstDetection | internal/engine/engine.go:1502-1551 | such an altered frame is accepted if and only if it now reads as a frame whose MIC was already removed |
| GponFrame.BurstOutsideHeaderIsDetected | internal/engine/engine.go:1502-1551 | it is always rejected when the device identifier and the length field are intact |
| GponFrame.LengthBurstIsMissed | internal/engine/engine.go:1534-1543 | the failing family: adding four to the length of any extended frame hides its MIC |
| SoftwareTransfer.OpenWindowIsTail | internal/engine/software.go:177-239 | an open window is exactly the tail of the run: unacknowledged sections numbered from 0 in order |
| SoftwareTransfer.StepKeepsCommitted | internal/engine/software.go:416-432 | a rejected, extending or breaking section changes no committed byte, and a refused acknowledged one leaves an empty window |
| SoftwareTransfer.CommitIsConsecutiveWindow | internal/engine/software.go:177-239 | an acknowledged section answered Success adds exactly the last sections of the run, numbered from 0 without a gap; nothing else ever adds a byte |
| SoftwareTransfer.CommittedGrows | internal/engine/software.go:177-239 | the image only grows and never exceeds the announced size |
| SoftwareTransfer.CleanWindowIsCommitted | internal/engine/software.go:177-239 | after any history a window sent cleanly from section 0 is committed |
| SoftwareEngine.SoftwareDownload.Receive | internal/engine/software.go:187-239 | the counters, the buffer and the running checksum step exactly as the window protocol does; the invariant ties them to the bytes in the sink |
| SoftwareEngine.SoftwareDownload.RejectWindow | internal/engine/software.go:416-426 | an acknowledged rejection empties the window, an unacknowledged one breaks it silently |
| SoftwareEngine.SoftwareDownload.CommitWindow | internal/engine/software.go:226-238 | the sink receives the whole window, and count and checksum follow it |
| SoftwareEngine.SoftwareDownload.FitSection | internal/engine/software.go:204-211 | only a baseline section may exceed the image, and only with zero padding |
| SoftwareEngine.SoftwareEngine.StartSoftwareDownload | internal/engine/software.go:128-175 | succeeds exactly for an idle engine and an eligible image that platform and MIB accept; starts from nothing |
| SoftwareEngine.SoftwareEngine.DownloadSoftwareSection | internal/engine/software.go:177-239 | a section for the download in progress is one protocol step, any other changes nothing; a refused write aborts the sink |
| SoftwareEngine.SoftwareEngine.EndSoftwareDownload | internal/engine/software.go:241-287 | the first End is taken if and only if the sink holds the whole image with requested size and checksum and no window is open; Success means exactly that image was written |
| SoftwareEngine.SoftwareEngine.FinishStatus | internal/engine/software.go:371-414 | Success exactly when the download is complete; a finished failure stays failed |
| SoftwareEngine.SoftwareEngine.FailDownload | internal/engine/software.go:358-364 | a receiving sink is aborted |
| SoftwareImages.CheckImages | internal/engine/software.go:86-111 | accepts exactly two well-formed images with one active, one committed, and both of these valid |
| SoftwareImages.ImageTable.ExclusiveFlag | internal/engine/software.go:464-477 | the selected image gets the flag, the other one loses it |
| SoftwareImages.ImageTable.Activate | internal/engine/software.go:289-320 | succeeds exactly for a valid image of an idle engine whose transaction is prepared and committed; one image stays active, one committed, both valid |
| SoftwareImages.ImageTable.Commit | internal/engine/software.go:322-356 | the same for the committed image; an image shown as committed succeeds without the platform |
| SoftwareImages.ImageTable.StartDownload | internal/engine/software.go:138-165 | neither the running nor the boot image of the platform is overwritten as long as the MIB agrees with the platform |
| SoftwareImages.ImageTable.ResetMib | internal/mib/store.go:812-822 | a MIB reset keeps the agreement with the platform if and only if the platform uses the images the factory names |
| SoftwareImages.ResetForgetsSelection | internal/mib/store.go:812-822 | the failing case: after activating and committing image 1, a reset to a factory MIB that names image 0 frees the running image for a download |
| SoftwareImages.ImageTable.RunningImageIsOverwritten | internal/engine/software.go:289-356 | the failing case on the operations: activate and commit a valid image that the factory does not name, reset the MIB, commit the other image without reaching the platform, and start the download that overwrites the running image; every step succeeds |
| MibStore.Store.CommitLocked | internal/mib/store.go:866-885 | the candidate becomes the MIB, with the counter written into it, if and only if the platform accepts; otherwise neither live nor factory MIB changes, although the write is in place |
| MibStore.Store.Create | internal/mib/store.go:408-455 | accepted: one new instance in normal form and one step of the counter; refused: nothing changed; an existing instance is always refused; the tables of the MIB stay stored by their rules |
| MibStore.Store.Set | internal/mib/store.go:457-508 | nothing when nothing changes; one step of the counter otherwise; writing the counter restarts it from the written value advanced by one |
| MibStore.Store.Delete | internal/mib/store.go:789-810 | an ONU-created instance is never deleted; otherwise exactly that instance goes |
| MibStore.Store.Reset | internal/mib/store.go:812-822 | the factory MIB with the live status snapshots, and the counter at zero |
| MibStore.Store.CounterAfterReset | internal/mib/store.go:1256-1265 | over every run since a reset without an explicit write of it, the counter is 0 after no command and ((n-1) mod 255) + 1 after n, and the ONU data attribute shows it |
| MibStore.SyncClosedForm | internal/mib/store.go:1260-1265 | the closed form of the wrap-around counter |
| MibStore.ResetKeepsSnapshots | internal/mib/store.go:824-843 | each kept attribute survives a reset, whatever the factory says |
| MibStore.PreserveONU3State | internal/mib/store.go:824-843 | writes the live snapshots into the reset candidate in place and nothing else |
| MibStore.SetDataSync | internal/mib/store.go:1272-1280 | writes the counter into the ONU data instance only, in place |
| MibStore.CloneInstances | internal/mib/store.go:1282-1288 | equal contents in fresh maps that nothing else shares |
| MibStore.Snapshot | internal/mib/store.go:845-864 | the value of the MIB at this moment |
| MibStore.Store.UpdateAutonomous | internal/mib/store.go:514-577 | the counter and the platform are not involved; the reported changes are exactly the requested attributes whose value differs; nothing changes when none does |
| MibStore.Store.UpdateAutonomousBatch | internal/mib/store.go:582-637 | all updates or none, in any order, and never the counter |
| MibStore.Store.UpdateByCommand | internal/mib/store.go:643-645 | all updates or none; no step of the counter when no instance changes, one otherwise |
| MibStore.Store.UpdateByCommandTransactional | internal/mib/store.go:651-787 | success: committed exactly once, never aborted; error: aborted exactly once, never committed, MIB and counter unchanged; when the platform took the candidate and the commit failed, it is offered the old MIB again, and holds that if it takes it |
| MibStore.Store.OfferTransactional | internal/mib/store.go:733-761 | the documents offered are exactly the candidate, and after a failed commit the old MIB; every failure aborts once |
| MibStore.Store.SetTable | internal/mib/table.go:74-141 | one table attribute is replaced by the table its own update rules make of it, with one step of the counter if that changes the instance; a MIB whose tables are all stored by their rules stays one |
| MibStore.TableSetKeepsTables | internal/mib/table.go:74-141 | a table accepted by its rules keeps every table of the MIB stored by its rules |
| MibStore.Store.ExpireAllowedPreviewRows | internal/mib/table.go:656-715 | exactly the expired rows go, the platform is asked, the counter stays, and the tables of the MIB stay stored by their rules |
| MibStore.BatchStaysInSync | internal/mib/store.go:582-637 | updates that may not write the counter leave the ONU data attribute equal to it |
| MibStore.SetKeepsTables | internal/mib/store.go:457-508 | a set that writes no table attribute keeps every table of the MIB stored by its rules |
| MibStore.BatchKeepsTables | internal/mib/store.go:582-637 | so do any number of updates that write none |
| KeyedRows.EncodingIsUnique | internal/mib/table.go:782-807 | a map has one strictly sorted encoding |
| KeyedRows.EncodesToMap | internal/mib/table.go:782-807 | an encoding determines its map |
| KeyedRows.FlattenInjective | internal/mib/table.go:782-807 | rows of one size can be recovered from their concatenation |
| TableUpdates.WriteBack | internal/mib/table.go:797-807 | the written table is the strictly sorted, duplicate-free encoding of the map |
| TableUpdates.OneTable | internal/mib/table.go:782-851 | equal maps have equal tables |
| TableUpdates.OneMap | internal/mib/table.go:782-851 | equal tables hold equal maps |
| TableUpdates.LoadsBack | internal/mib/table.go:782-851 | loading a written table gives back its map |
| TableRules.ApplyTableRows | internal/mib/table.go:143-188 | each table attribute follows its own rules: load the stored rows, fold the update rows over them, and write the result back in key order unless it is inconsistent or over the VLAN capacity |
| TableRules.UpdateOfListed | internal/mib/table.go:143-188 | a table of valid rows always loads; an accepted update leaves the canonical encoding of the edited map, a refused one leaves the map, and only a VLAN table can be too large |
| TableRules.RunCarriesContent | internal/mib/table.go:143-188 | after any run of updates and expiries, accepted or refused, a table is the canonical encoding of exactly the rows the accepted ones leave; only one that no update has touched may have its rows in another order |
| TableRules.RunFromEmpty | internal/mib/table.go:46-69 | a table that starts empty is canonical after every change of every run |
| TableRules.TablesStayLoadable | internal/mib/table.go:143-188 | so an update never fails to load the stored table, however long the run before it; a processing error means a VLAN table over its capacity |
| TableRules.EmptyTableIsStored | internal/mib/table.go:46-69 | the empty table of a new instance satisfies every rule |
| TableRules.DefaultTableIsListed | internal/mib/table.go:40-55 | the three tagging rules of a new instance are valid rules |
| TableRules.DefaultTableIsNotStored | internal/mib/table.go:40-55 | they stand in descending key order, so this table is the canonical encoding of no map |
| VlanRows.DeletionIsNoRule | internal/vlan/rule.go:63-133 | no row that the rule parser accepts reads as a deletion |
| TableUpdates.Rebuild | internal/mib/table.go:782-851 | the outcome is the encoding of the update rows folded over the loaded map, a parameter error for a bad row and a processing error for a bad stored table |
| MulticastTables.ApplyKeyedRows | internal/mib/table.go:782-807 | set and delete rows folded over the stored map, encoded by key |
| MulticastTables.NumberOrder | internal/mib/table.go:797-805 | the numeric order of keys is the byte order the code sorts by |
| MulticastTables.ApplyEnhancedVLANRows | internal/mib/table.go:809-851 | set, delete and clear commands folded over the stored rules, which all satisfy the rule parser |
| MulticastTables.ApplyValidRows | internal/mib/table.go:155-170 | a keyed update whose rows all satisfy the rule parser or delete; one bad row refuses the whole update |
| MulticastTables.ApplyMulticastAddressRows | internal/mib/table.go:190-245 | set and delete rows on multicast address ranges; one invalid range refuses the whole update |
| MulticastTables.ApplyMulticastServiceRows | internal/mib/table.go:441-492 | set, delete and clear commands folded over the stored packages |
| MulticastTables.ValidateMulticastACLRows | internal/mib/table.go:369-391 | whatever the map order, accepts exactly the lists whose logical rows all have multicast ranges, pairwise disjoint within a family |
| MulticastTables.ApplyMulticastACLRows | internal/mib/table.go:247-333 | accepted if and only if every row is valid and the resulting ranges are disjoint; deleting or clearing takes whole logical rows; a kept reset hour is the stored one |
| TableRules.ACLStaysSeparated | internal/mib/table.go:247-391 | over any run from the empty list, at most one logical row covers a group address |
| MulticastTables.OneRowMatches | internal/multicast/policy.go:618-623 | so at most one logical row covers a group address |
| MulticastTables.ApplyAllowedPreviewRows | internal/mib/table.go:511-614 | the folded commands, with the timer rule of a duration edit |
| MulticastTables.TimerAfterEdit | internal/mib/table.go:558-582 | an edit keeps the elapsed time, never exceeds the new duration, and removes the row exactly when the new duration is used up; the upper clamp is never reached |
| TableRules.TimersStayWithinDurations | internal/mib/table.go:511-614 | over any run of updates and expiries from the empty table no stored timer exceeds its duration |
| MulticastTables.RemoveExpired | internal/mib/table.go:656-715 | exactly the logical rows whose running timer is zero go, all parts of each, and the others stay in their order |
| MulticastTables.ExpiryKeepsCanonical | internal/mib/table.go:656-715 | the rest of a canonical table is the canonical encoding of the unexpired rows |
| MulticastTables.IndexAllowedPreviewTimers | internal/mib/table.go:717-732 | accepts exactly distinct row keys in range with no timer above its duration |
| StatusSnapshots.StatusSnapshotTable.SetONU3 | internal/engine/onu3.go:16-101 | exactly one action is required; an accepted snapshot extends the history, a reset empties it, a rejected command changes nothing; the candidate always passes the store's validation |
| StatusSnapshots.SnapKeepsHistory | internal/engine/onu3.go:72-87 | the table stays what the last S records of the history say: M is the smaller of their number and S, K their number modulo S |
| StatusSnapshots.SlotHoldsNewest | internal/engine/onu3.go:74-83 | slot i holds the newest record whose index is i modulo S |
| StatusSnapshots.ReflectedIsConsistent | internal/mib/store.go:1045-1087 | every reachable table is accepted by the validation |
| StatusSnapshots.ValidateONU3State | internal/mib/store.go:1045-1087 | accepts exactly the consistent tables |
| FrameDispatcher.Dispatcher.OnReset | internal/transaction/dispatcher.go:181-185 | drops every queued frame and starts the next generation |
| FrameDispatcher.Dispatcher.OnIngress | internal/transaction/dispatcher.go:186-196 | a frame of another generation has no effect; a frame that does not fit stops the dispatcher; any other is accepted at the end of its class |
| FrameDispatcher.Dispatcher.OnDeliver | internal/transaction/dispatcher.go:171-198 | delivers the oldest undelivered high-priority frame, or the oldest normal one only when no high-priority frame is queued |
| FrameDispatcher.Dispatcher.NoStaleDelivery | internal/transaction/dispatcher.go:166-201 | over every interleaving no frame tagged before a reset is delivered after it |
| FrameDispatcher.Dispatcher.DeliveredIsPrefix | internal/transaction/dispatcher.go:166-201 | in each class the frames delivered since the last reset are a prefix, in order, of those accepted since, the queue holds exactly the others, and never more than its capacity |
| FrameDispatcher.FrameQueue.Push | internal/transaction/dispatcher.go:36-47 | appends to its class if and only if there is room |
| FrameDispatcher.FrameQueue.Pop | internal/transaction/dispatcher.go:59-75 | removes the frame that peek shows |
| MibUpload.BuildUpload | internal/engine/engine.go:1061-1156 | fails exactly when an included class has no definition; otherwise the commands contain every eligible attribute of every included instance once and in order, each within its limit |
| MibUpload.UploadIsMinimal | internal/engine/engine.go:1133-1155 | no packing in the same order uses fewer commands |
| MibUpload.ReportIsMinimal | internal/engine/engine.go:1077-1122 | no packing of an instance in the same order uses fewer entries |
| MibUpload.ReportInstance | internal/engine/engine.go:1072-1122 | every eligible attribute once, in order, within the limit; one empty entry when there is none |
| NextFit.GreedyIsOptimal | internal/engine/engine.go:1077-1154 | filling in order until the next item does not fit is optimal among packings in order |
| MibUpload.GetNext | internal/engine/engine.go:683-733 | the chunk at the requested number, or none |
| MibUpload.ChunksAreTheTable | internal/engine/engine.go:683-733 | exactly the chunks below the rounded-up quotient exist, none is empty or too long, and together they are the captured table |
| TransactionReplay.Engine.Handle | internal/engine/engine.go:246-308 | one frame is one step of the replay protocol, for every outcome of its execution |
| TransactionReplay.Engine.ReplayTransaction | internal/engine/engine.go:1405-1446 | the stored answer of the channel's last transaction, refreshing or dropping upload sessions |
| TransactionReplay.Answered | internal/engine/engine.go:1448-1460 | an answered request is remembered with its answer |
| TransactionReplay.Replayed | internal/engine/engine.go:1405-1446 | a retransmission gets the same bytes and executes nothing |
| TransactionReplay.Undisturbed | internal/engine/engine.go:1492-1500 | frames of other channels do not disturb a remembered transaction |
| TransactionReplay.AtMostOnce | internal/engine/engine.go:246-308 | over any run of retransmissions mixed with other channels, nothing more is executed on the channel and the next retransmission gets the same bytes |
| TransactionReplay.RepeatedSectionIsIgnored | internal/engine/engine.go:274-304 | a repeated unacknowledged section is not executed again |
| InternetChecksum.ComputeChecksum | internal/multicast/report.go:370-383 | the two loops compute the one's-complement sum |
| InternetChecksum.FoldResidue | internal/multicast/report.go:378-381 | folding keeps the residue modulo 65535, and only zero folds to zero |
| InternetChecksum.FilledChecksumIsZero | internal/multicast/report.go:370-383 | filling the field with the checksum always makes the checksum of the whole zero |
| InternetChecksum.FilledICMPv6ChecksumIsZero | internal/multicast/report.go:385-393 | the same under the IPv6 pseudo header |
| MembershipWire.RecordsRoundTrip | internal/multicast/report.go:189-227 | any list of valid records is read back |
| MembershipWire.TagsRoundTrip | internal/multicast/report.go:71-87 | up to two known tags are read back with the bytes after them |
| MembershipWire.TagControl | internal/multicast/report_build.go:70-95 | inner tags are kept, none is dropped, and control 3 keeps the outer priority |
| MembershipWire.AppendSources | internal/multicast/report_build.go:97-183 | a source list is appended, or refused when an address has the other family |
| MembershipFrames.BuildUpstreamFrame | internal/multicast/report_build.go:15-68 | exactly which reports are refused, have no frame, or are built |
| MembershipFrames.BuildReportPacket | internal/multicast/report_build.go:97-262 | the packet of every listable report, IPv4 or IPv6 |
| MembershipFrames.ReportRoundTrip | internal/multicast/report_build.go:15-262 | every report that is built and fits the 16-bit length, which in IPv6 does not count the 40-byte header, is parsed back: tags, addresses, version, client, group, record type and source list |
| MembershipFrames.ParseFrame | internal/multicast/report.go:64-102 | the loops of the parser compute the parsing function, for every frame |
| MembershipFrames.SkipExtensionHeaders | internal/multicast/report.go:237-250 | skips the extension headers that fit, or fails |
| MembershipFrames.IPv4RoundTrip | internal/multicast/report.go:104-124 | an IPv4 packet with Router Alert is unwrapped to its payload |
| MembershipFrames.IPv6RoundTrip | internal/multicast/report.go:229-266 | an IPv6 packet with hop-by-hop Router Alert is unwrapped to its payload |
| QueryFrames.BuildDownstreamQueryFrame | internal/multicast/query_build.go:27-89 | refused exactly for a wrong family, a source that cannot be carried, or bad tags; the time codes are the least codes |
| QueryFrames.QueryRoundTrip | internal/multicast/query_build.go:27-188 | every query that is built is parsed back: tags, addresses, version, group and source; its times come back as the values of their codes |
| FloatingCode.DecodeStrictlyIncreases | internal/multicast/query_build.go:266-294 | a larger code stands for a strictly larger time |
| FloatingCode.EncodeFloating8 | internal/multicast/query_build.go:254-264 | the least code that reaches the value, saturating at the top |
| FloatingCode.EncodeFloating16 | internal/multicast/query_build.go:275-285 | the least code that reaches the value, saturating at the top |
| FloatingCode.EncodeUndoesDecode | internal/multicast/query_build.go:254-294 | encoding the value of a code gives the code |
| FloatingCode.EncodeRoundsUp | internal/multicast/query_build.go:254-294 | encoding never shortens a time that has a code, and the code below would |

## Left out

- MulticastRuntime.Runtime.Configure: the list of general queries, the control rules and the static rules are parameters, because they only copy fields of the configuration (proxyQueries, controlDownstreamRules, staticDownstreamRules).
- MulticastRuntime.Runtime.Transmit: whether the backend sends a frame is arbitrary, so a frame longer than an interface carries is one that was not sent; a report that is not sent ends the operation with an error, as in the original, and its step of the run says so.
- MulticastRuntime.Runtime.Handle: after an error in one record nothing is promised about the invariants, because a rollback can break them (RuntimeState.TakenBackEmpties, RuntimeState.WrittenBackMisfiles).
- InformedNetwork.InformsExactlyWhen: its runs take any decision of the policy; that a configured access list allows the joins of a failing run is not claimed. Its runs need not keep to the schedule of delayed leaves, which no failing run depends on: the only leave in one goes at once, beside another client.
- NetworkView.TruthfulRecord: what the network has heard is kept for each subscriber, interface, group and VLAN, as the reports are sent; a querier that merges the reports of several of them, or asks again before it prunes, is not modelled.
- MisleadingRuns.LimitMisleads: its result says whether the policy accepted the first join and the backend refused nothing; what a refusal leaves behind is in the contracts of MulticastRuntime.Runtime.AddLocked and MulticastRuntime.Runtime.RefreshLocked.
- MulticastRuntime.Runtime.Expire: after an expired preview one client with the address goes, as in the code; that the engine's entries and the runtime's clients coincide is not claimed, and is not true (MulticastRuntime.Runtime.TwinLosesEntry, MulticastRuntime.Runtime.ExpiryGoesUnnoticed).
- MulticastRuntime.Runtime.OrphanCannotLeave: what happens to the client once the backend has refused something is not claimed.
- FilterBackend.Backend.SetReplication: building the operating system's filter commands and running them is one step that succeeds or fails.
- PolicyCompile.Compile: row lists arrive sorted by key as the tables deliver them, attachments and upstream mappers are not part of the configuration, and the ranges of the tag-control fields are not checked.
- PolicyEngine.Engine.Join: bandwidth is added without the 64-bit bound, which the 32-bit bandwidths of real tables cannot reach.
- RangePrefixes.AddressRangePrefixes: IPv4-mapped IPv6 addresses are not told apart from IPv6 ones.
- MembershipFrames.ReportRoundTrip: packets longer than the 16-bit length field are excluded, because their length is truncated and they are not read back.
- InternetChecksum.ComputeChecksum: the 32-bit accumulator is unbounded here; it can overflow only beyond 128 KB of data.
- SoftwareEngine.SoftwareEngine.EndSoftwareDownload: the image hash is compared as the bytes it is computed from, and finishing in the background is an answer that arrives at some later call.
- SoftwareImages.ImageTable.constructor: the platform's two images are imported at once; writing only the first of them, after which the original gives up, is not modelled.
- MibStore.Store.Create: the managed-entity definitions are an abstract library of permission, completion and normal form; normalization is assumed to keep the counter and the tables it is given, and completion to start an instance with tables stored by their rules.
- MibStore.Store.Set: that all tables stay stored by their rules is claimed for writes that name no table attribute; a plain write of one does not go through the table rules.
- MibStore.Store.SetTable: the attribute is selected by name; selecting it by its bit in the mask is not modelled.
- VlanRows.DeletionIsNoRule: the parser is the predicate of the rows it accepts; the fields of a parsed rule are not modelled.
- StatusSnapshots.StatusSnapshotTable.SetONU3: the contents of a record and the types of the two actions are not modelled.
- FrameDispatcher.Dispatcher.OnIngress: the 64-bit generation counter is unbounded, and the channels' buffers are left out.
- TransactionReplay.Engine.Handle: what a request does is an arbitrary outcome; upload sessions are kept only as their deadlines.
- MibUpload.BuildUpload: the serialized length of an entry is its overhead plus the sizes of its attributes; UploadNext itself is left out.
- Monitor, bandwidth sampling and the preview timers for display: read-only reports.
- Sockets, capture, helper processes, file writing, status and event publishing.
- The service graph and device model (internal/platform, internal/model): local range and reference checks.
- AES-CMAC and the secure channel (internal/xgssecurity), optical conversion, performance counters, alarms and ARC.
