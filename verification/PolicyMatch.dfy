/** Which access-control row serves a join (Engine.matchLocked of internal/multicast/policy.go). */
module PolicyMatch {
  import opened Clock
  import opened Sequences
  import opened MulticastTypes

  datatype CompiledSubscriber = CompiledSubscriber(policy: Subscriber, previewExpiry: map<nat, Time>)

  datatype Candidate = Candidate(profile: Profile, package: Option<ServicePackage>)

  datatype Offer = Offer(profile: Profile, acl: ACLEntry, package: Option<ServicePackage>)

  datatype Match = Match(offer: Offer, reason: Reason, previewUntil: Option<Time>)

  const UNTAGGED_ONLY: nat := 4096
  const TAGGED_ONLY: nat := 4097
  const ANY_VLAN: nat := 65535

  predicate AddressVersion(address: Addr, version: nat) {
    (version == 4 && address.V4?) || (version == 6 && address.V6?)
  }

  predicate AclMatches(acl: ACLEntry, source: Addr, group: Addr) {
    && AddressVersion(group, acl.ipVersion) && !group.Below(acl.start) && !acl.stop.Below(group)
    && (acl.source.NoAddr? || acl.source.IsUnspecified() || acl.source == source)
  }

  predicate ServiceVLANMatches(policy: nat, packet: VLAN) {
    if policy == UNTAGGED_ONLY then !packet.tagged
    else if policy == TAGGED_ONLY then packet.tagged
    else policy == ANY_VLAN || (packet.tagged && packet.id == policy)
  }

  /** The profiles in force for a subscriber's packets of a VLAN. */
  function InForce(subscriber: Subscriber, vlan: VLAN): set<nat> {
    if subscriber.servicePackages == [] then {subscriber.profile}
    else set p | p in subscriber.servicePackages && ServiceVLANMatches(p.vlanID, vlan) :: p.operationsProfile
  }

  predicate AllowedPreviewMatches(allowed: AllowedPreview, expires: Option<Time>, request: Join,
                                  aniVLAN: nat, now: Time) {
    && (allowed.duration != 0 ==> allowed.timeLeft != 0 && expires.Some? && expires.value > now)
    && allowed.destination == request.group
    && (allowed.source.NoAddr? || allowed.source.IsUnspecified() || allowed.source == request.source)
    && (if allowed.uniVLAN == 0 then !request.uniVLAN.tagged
        else request.uniVLAN.tagged && request.uniVLAN.id == allowed.uniVLAN)
    && (|| aniVLAN == ANY_VLAN || (aniVLAN == TAGGED_ONLY && allowed.aniVLAN != 0)
        || aniVLAN == allowed.aniVLAN)
  }

  /** What compile guarantees of a subscriber and the profiles. */
  predicate Compiled(subscriber: CompiledSubscriber, profiles: map<nat, Profile>) {
    && (forall id :: id in profiles ==> profiles[id].entityID == id != 0)
    && (subscriber.policy.servicePackages == [] ==> subscriber.policy.profile in profiles)
    && (forall p :: p in subscriber.policy.servicePackages ==> p.operationsProfile in profiles)
    && (forall a :: a in subscriber.policy.allowedPreviews && a.duration == 0 ==>
          a.rowKey !in subscriber.previewExpiry)
  }

  // ---------- the offers, in the order the policy lists them ----------

  function PackageCandidates(packages: seq<ServicePackage>, profiles: map<nat, Profile>, vlan: VLAN): seq<Candidate>
    requires forall p :: p in packages ==> p.operationsProfile in profiles
  {
    if packages == [] then []
    else
      var n := |packages| - 1;
      PackageCandidates(packages[..n], profiles, vlan) +
        if ServiceVLANMatches(packages[n].vlanID, vlan)
        then [Candidate(profiles[packages[n].operationsProfile], Some(packages[n]))] else []
  }

  function Candidates(subscriber: CompiledSubscriber, profiles: map<nat, Profile>, vlan: VLAN): seq<Candidate>
    requires Compiled(subscriber, profiles)
  {
    if subscriber.policy.servicePackages == [] then [Candidate(profiles[subscriber.policy.profile], None)]
    else PackageCandidates(subscriber.policy.servicePackages, profiles, vlan)
  }

  function RowOffers(candidate: Candidate, rows: seq<ACLEntry>, request: Join): seq<Offer> {
    if rows == [] then []
    else
      var n := |rows| - 1;
      RowOffers(candidate, rows[..n], request) +
        if AclMatches(rows[n], request.source, request.group)
        then [Offer(candidate.profile, rows[n], candidate.package)] else []
  }

  function Offers(candidates: seq<Candidate>, request: Join): seq<Offer> {
    if candidates == [] then []
    else
      var n := |candidates| - 1;
      Offers(candidates[..n], request) + RowOffers(candidates[n], candidates[n].profile.dynamicACL, request)
  }

  predicate Free(offer: Offer) { offer.acl.previewLength == 0 }

  predicate Allows(subscriber: CompiledSubscriber, request: Join, now: Time, offer: Offer, a: AllowedPreview) {
    && a in subscriber.policy.allowedPreviews
    && AllowedPreviewMatches(a, ExpiryOf(subscriber, a), request, offer.acl.vlanID, now)
  }

  function ExpiryOf(subscriber: CompiledSubscriber, a: AllowedPreview): Option<Time> {
    if a.rowKey in subscriber.previewExpiry then Some(subscriber.previewExpiry[a.rowKey]) else None
  }

  ghost predicate NotAllowed(subscriber: CompiledSubscriber, request: Join, now: Time, offer: Offer) {
    forall a :: a in subscriber.policy.allowedPreviews ==> !Allows(subscriber, request, now, offer, a)
  }

  /** The outcome for a list of offers: the first free one; else the first with a matching allowed
      preview; else the first. `rank` is the place of the chosen offer. */
  ghost predicate Chosen(subscriber: CompiledSubscriber, request: Join, now: Time, offers: seq<Offer>,
                         chosen: Match, rank: nat) {
    && rank < |offers| && offers[rank] == chosen.offer
    && match chosen.reason
       case Authorized =>
         && Free(offers[rank]) && (forall i :: 0 <= i < rank ==> !Free(offers[i]))
         && chosen.previewUntil == None
       case AllowedPreviewReason =>
         && (forall i :: 0 <= i < |offers| ==> !Free(offers[i]))
         && (forall i :: 0 <= i < rank ==> NotAllowed(subscriber, request, now, offers[i]))
         && (exists a :: Allows(subscriber, request, now, offers[rank], a) &&
              chosen.previewUntil == ExpiryOf(subscriber, a))
       case Preview =>
         && rank == 0
         && (forall i :: 0 <= i < |offers| ==>
               !Free(offers[i]) && NotAllowed(subscriber, request, now, offers[i]))
         && chosen.previewUntil == None
       case _ => false
  }

  lemma {:induction false} OffersPrefix(candidates: seq<Candidate>, request: Join, n: nat)
    requires n <= |candidates|
    ensures Offers(candidates[..n], request) <= Offers(candidates, request)
    decreases |candidates|
  {
    hide RowOffers;
    if n < |candidates| {
      OffersPrefix(candidates[..|candidates| - 1], request, n);
      assert candidates[..|candidates| - 1][..n] == candidates[..n];
    } else {
      assert candidates[..n] == candidates;
    }
  }

  lemma {:induction false} RowOffersPrefix(candidate: Candidate, rows: seq<ACLEntry>, request: Join, n: nat)
    requires n <= |rows|
    ensures RowOffers(candidate, rows[..n], request) <= RowOffers(candidate, rows, request)
    decreases |rows|
  {
    hide AclMatches;
    if n < |rows| {
      RowOffersPrefix(candidate, rows[..|rows| - 1], request, n);
      assert rows[..|rows| - 1][..n] == rows[..n];
    } else {
      assert rows[..n] == rows;
    }
  }

  method CollectCandidates(subscriber: CompiledSubscriber, profiles: map<nat, Profile>, vlan: VLAN)
    returns (candidates: seq<Candidate>)
    requires Compiled(subscriber, profiles)
    ensures candidates == Candidates(subscriber, profiles, vlan)
  {
    var packages := subscriber.policy.servicePackages;
    if |packages| == 0 {
      return [Candidate(profiles[subscriber.policy.profile], None)];
    }
    candidates := [];
    for i := 0 to |packages|
      invariant candidates == PackageCandidates(packages[..i], profiles, vlan)
    {
      assert packages[..i + 1][..i] == packages[..i];
      if ServiceVLANMatches(packages[i].vlanID, vlan) {
        candidates := candidates + [Candidate(profiles[packages[i].operationsProfile], Some(packages[i]))];
      }
    }
    assert packages[..|packages|] == packages;
  }

  /** The rows of one candidate: stop at the first free offer, otherwise remember the previews. */
  method ScanRows(candidate: Candidate, request: Join, previews: seq<Offer>)
    returns (free: Option<Offer>, found: seq<Offer>)
    requires forall i :: 0 <= i < |previews| ==> !Free(previews[i])
    ensures forall i :: 0 <= i < |found| ==> !Free(found[i])
    ensures free.None? ==> found == previews + RowOffers(candidate, candidate.profile.dynamicACL, request)
    ensures free.Some? ==> Free(free.value)
    ensures free.Some? ==>
              found + [free.value] <= previews + RowOffers(candidate, candidate.profile.dynamicACL, request)
  {
    hide AclMatches;
    var rows := candidate.profile.dynamicACL;
    found := previews;
    for i := 0 to |rows|
      invariant forall i :: 0 <= i < |found| ==> !Free(found[i])
      invariant found == previews + RowOffers(candidate, rows[..i], request)
    {
      assert rows[..i + 1][..i] == rows[..i];
      if AclMatches(rows[i], request.source, request.group) {
        var offer := Offer(candidate.profile, rows[i], candidate.package);
        if Free(offer) {
          RowOffersPrefix(candidate, rows, request, i + 1);
          return Some(offer), found;
        }
        found := found + [offer];
      }
    }
    free := None;
    assert rows[..|rows|] == rows;
  }

  /** The previews, once no offer is free. */
  method ChoosePreview(subscriber: CompiledSubscriber, request: Join, now: Time, previews: seq<Offer>)
    returns (chosen: Option<Match>, ghost rank: nat)
    requires forall i :: 0 <= i < |previews| ==> !Free(previews[i])
    ensures chosen.None? <==> previews == []
    ensures chosen.Some? ==> Chosen(subscriber, request, now, previews, chosen.value, rank)
  {
    hide AllowedPreviewMatches, ExpiryOf;
    var rows := subscriber.policy.allowedPreviews;
    for i := 0 to |previews|
      invariant forall k :: 0 <= k < i ==> NotAllowed(subscriber, request, now, previews[k])
    {
      for j := 0 to |rows|
        invariant forall k :: 0 <= k < j ==> !Allows(subscriber, request, now, previews[i], rows[k])
      {
        var expires := ExpiryOf(subscriber, rows[j]);
        if AllowedPreviewMatches(rows[j], expires, request, previews[i].acl.vlanID, now) {
          assert Allows(subscriber, request, now, previews[i], rows[j]);
          return Some(Match(previews[i], AllowedPreviewReason, expires)), i;
        }
      }
    }
    rank := 0;
    chosen := if |previews| != 0 then Some(Match(previews[0], Preview, None)) else None;
  }

  /** Whether some candidate forwards unauthorized joins, and the profile of the first that does. */
  ghost predicate FirstForward(candidates: seq<Candidate>, forward: bool, forwardProfile: nat) {
    if forward then
      exists i :: 0 <= i < |candidates| && candidates[i].profile.unauthorizedJoinBehaviour &&
        candidates[i].profile.entityID == forwardProfile && NoneForwards(candidates[..i])
    else NoneForwards(candidates) && forwardProfile == 0
  }

  ghost predicate NoneForwards(candidates: seq<Candidate>) {
    forall i :: 0 <= i < |candidates| ==> !candidates[i].profile.unauthorizedJoinBehaviour
  }

  lemma NoForwardYet(candidates: seq<Candidate>)
    ensures FirstForward(candidates[..0], false, 0)
  {}

  lemma FirstForwardStep(candidates: seq<Candidate>, forward: bool, forwardProfile: nat, next: Candidate)
    requires FirstForward(candidates, forward, forwardProfile)
    ensures forward ==> FirstForward(candidates + [next], true, forwardProfile)
    ensures !forward && next.profile.unauthorizedJoinBehaviour ==>
              FirstForward(candidates + [next], true, next.profile.entityID)
    ensures !forward && !next.profile.unauthorizedJoinBehaviour ==>
              FirstForward(candidates + [next], false, forwardProfile)
  {
    var more, n := candidates + [next], |candidates|;
    if forward {
      var i :| 0 <= i < n && candidates[i].profile.unauthorizedJoinBehaviour &&
        candidates[i].profile.entityID == forwardProfile && NoneForwards(candidates[..i]);
      assert more[i] == candidates[i] && more[..i] == candidates[..i];
    } else {
      assert more[..n] == candidates && more[n] == next;
    }
  }

  lemma {:induction false} PackageProfiles(packages: seq<ServicePackage>, profiles: map<nat, Profile>, vlan: VLAN)
    requires forall p :: p in packages ==> p.operationsProfile in profiles
    requires forall id :: id in profiles ==> profiles[id].entityID == id != 0
    ensures forall c :: c in PackageCandidates(packages, profiles, vlan) ==> c.profile.entityID != 0
  {
    hide ServiceVLANMatches;
    if packages != [] {
      PackageProfiles(packages[..|packages| - 1], profiles, vlan);
    }
  }

  lemma CandidateProfiles(subscriber: CompiledSubscriber, profiles: map<nat, Profile>, vlan: VLAN)
    requires Compiled(subscriber, profiles)
    ensures forall c :: c in Candidates(subscriber, profiles, vlan) ==> c.profile.entityID != 0
  {
    PackageProfiles(subscriber.policy.servicePackages, profiles, vlan);
  }

  ghost predicate Chooses(subscriber: CompiledSubscriber, request: Join, now: Time, offers: seq<Offer>, chosen: Match) {
    exists rank :: Chosen(subscriber, request, now, offers, chosen, rank)
  }

  method MatchLocked(subscriber: CompiledSubscriber, profiles: map<nat, Profile>, request: Join, now: Time)
    returns (chosen: Option<Match>, forward: bool, forwardProfile: nat)
    requires Compiled(subscriber, profiles)
    ensures var candidates := Candidates(subscriber, profiles, request.uniVLAN);
      && (chosen.None? <==> Offers(candidates, request) == [])
      && (chosen.Some? ==> Chooses(subscriber, request, now, Offers(candidates, request), chosen.value))
      && (chosen.None? ==> FirstForward(candidates, forward, forwardProfile))
      && (chosen.Some? ==> forward && forwardProfile == chosen.value.offer.profile.entityID)
  {
    hide RowOffers, AclMatches, AllowedPreviewMatches, Candidates, NotAllowed, FirstForward;
    var candidates := CollectCandidates(subscriber, profiles, request.uniVLAN);
    assert forall k :: 0 <= k < |candidates| ==> candidates[k].profile.entityID != 0 by {
      CandidateProfiles(subscriber, profiles, request.uniVLAN);
    }
    forward, forwardProfile := false, 0;
    var previews: seq<Offer> := [];
    NoForwardYet(candidates);
    for i := 0 to |candidates|
      invariant previews == Offers(candidates[..i], request)
      invariant forall k :: 0 <= k < |previews| ==> !Free(previews[k])
      invariant FirstForward(candidates[..i], forward, forwardProfile) && (forward <==> forwardProfile != 0)
    {
      assert candidates[..i + 1][..i] == candidates[..i];
      assert candidates[..i + 1] == candidates[..i] + [candidates[i]];
      FirstForwardStep(candidates[..i], forward, forwardProfile, candidates[i]);
      if candidates[i].profile.unauthorizedJoinBehaviour {
        forward := true;
        if forwardProfile == 0 {
          forwardProfile := candidates[i].profile.entityID;
        }
      }
      var free, found := ScanRows(candidates[i], request, previews);
      if free.Some? {
        OffersPrefix(candidates, request, i + 1);
        assert Chosen(subscriber, request, now, Offers(candidates, request), Match(free.value, Authorized, None),
                      |found|);
        return Some(Match(free.value, Authorized, None)), true, free.value.profile.entityID;
      }
      previews := found;
    }
    assert candidates[..|candidates|] == candidates;
    ghost var rank;
    chosen, rank := ChoosePreview(subscriber, request, now, previews);
    if chosen.Some? {
      forward, forwardProfile := true, chosen.value.offer.profile.entityID;
    }
  }

  // ---------- what a match tells its caller ----------

  lemma {:induction false} CandidatePackages(packages: seq<ServicePackage>, profiles: map<nat, Profile>, vlan: VLAN)
    requires forall p :: p in packages ==> p.operationsProfile in profiles
    ensures forall c :: c in PackageCandidates(packages, profiles, vlan) ==>
              c.package.Some? && c.package.value in packages && ServiceVLANMatches(c.package.value.vlanID, vlan)
  {
    hide ServiceVLANMatches;
    if packages != [] {
      CandidatePackages(packages[..|packages| - 1], profiles, vlan);
    }
  }

  lemma {:induction false} CandidatesKnown(packages: seq<ServicePackage>, profiles: map<nat, Profile>, vlan: VLAN)
    requires forall p :: p in packages ==> p.operationsProfile in profiles
    requires forall id :: id in profiles ==> profiles[id].entityID == id != 0
    ensures forall c :: c in PackageCandidates(packages, profiles, vlan) ==> Known(profiles, c.profile)
  {
    if packages != [] {
      CandidatesKnown(packages[..|packages| - 1], profiles, vlan);
    }
  }

  lemma {:induction false} CandidatesInForce(packages: seq<ServicePackage>, profiles: map<nat, Profile>, vlan: VLAN)
    requires forall p :: p in packages ==> p.operationsProfile in profiles
    requires forall id :: id in profiles ==> profiles[id].entityID == id != 0
    ensures forall c :: c in PackageCandidates(packages, profiles, vlan) ==>
              exists p ::
                p in packages && ServiceVLANMatches(p.vlanID, vlan) && p.operationsProfile == c.profile.entityID
  {
    hide ServiceVLANMatches;
    if packages != [] {
      var n := |packages| - 1;
      CandidatesInForce(packages[..n], profiles, vlan);
      forall c | c in PackageCandidates(packages, profiles, vlan)
        ensures exists p :: p in packages && ServiceVLANMatches(p.vlanID, vlan) &&
                            p.operationsProfile == c.profile.entityID
      {
        if c in PackageCandidates(packages[..n], profiles, vlan) {
          var p :| p in packages[..n] && ServiceVLANMatches(p.vlanID, vlan) &&
            p.operationsProfile == c.profile.entityID;
          assert p in packages;
        } else {
          assert packages[n] in packages;
        }
      }
    }
  }

  lemma AllCandidatesInForce(subscriber: CompiledSubscriber, profiles: map<nat, Profile>, vlan: VLAN)
    requires Compiled(subscriber, profiles)
    ensures forall c :: c in Candidates(subscriber, profiles, vlan) ==>
              c.profile.entityID in InForce(subscriber.policy, vlan)
  {
    CandidatesInForce(subscriber.policy.servicePackages, profiles, vlan);
  }

  /** The profile is the configured one of its number. */
  predicate Known(profiles: map<nat, Profile>, profile: Profile) {
    profile.entityID in profiles && profiles[profile.entityID] == profile
  }

  lemma AllCandidatesKnown(subscriber: CompiledSubscriber, profiles: map<nat, Profile>, vlan: VLAN)
    requires Compiled(subscriber, profiles)
    ensures forall c :: c in Candidates(subscriber, profiles, vlan) ==> Known(profiles, c.profile)
  {
    CandidatesKnown(subscriber.policy.servicePackages, profiles, vlan);
  }

  lemma {:induction false} RowOffersMatch(candidate: Candidate, rows: seq<ACLEntry>, request: Join)
    ensures forall o :: o in RowOffers(candidate, rows, request) ==>
              && o.package == candidate.package && o.profile == candidate.profile && o.acl in rows
              && AclMatches(o.acl, request.source, request.group)
  {
    hide AclMatches;
    if rows != [] {
      RowOffersMatch(candidate, rows[..|rows| - 1], request);
    }
  }

  /** The first row of a list that covers source and group. */
  function FirstMatch(rows: seq<ACLEntry>, source: Addr, group: Addr): Option<ACLEntry> {
    if rows == [] then None
    else
      var before, last := FirstMatch(rows[..|rows| - 1], source, group), rows[|rows| - 1];
      if before.Some? then before else if AclMatches(last, source, group) then Some(last) else None
  }

  lemma {:induction false} FirstOfRows(candidate: Candidate, rows: seq<ACLEntry>, request: Join)
    ensures var offers, first := RowOffers(candidate, rows, request), FirstMatch(rows, request.source, request.group);
      if offers == [] then first.None? else first == Some(offers[0].acl) && offers[0].profile == candidate.profile
  {
    hide AclMatches;
    if rows != [] {
      FirstOfRows(candidate, rows[..|rows| - 1], request);
    }
  }

  /** The first offer is the first row of its profile that covers the request. */
  lemma {:induction false} FirstOffer(candidates: seq<Candidate>, request: Join)
    ensures var offers := Offers(candidates, request);
      offers != [] ==>
        FirstMatch(offers[0].profile.dynamicACL, request.source, request.group) == Some(offers[0].acl)
  {
    hide AclMatches, RowOffers, FirstMatch;
    if candidates != [] {
      var n := |candidates| - 1;
      FirstOffer(candidates[..n], request);
      FirstOfRows(candidates[n], candidates[n].profile.dynamicACL, request);
    }
  }

  lemma {:induction false} OffersMatch(candidates: seq<Candidate>, request: Join)
    ensures forall o :: o in Offers(candidates, request) ==>
              && AclMatches(o.acl, request.source, request.group)
              && o.acl in o.profile.dynamicACL
              && exists c :: c in candidates && o.package == c.package && o.profile == c.profile
  {
    hide AclMatches, RowOffers;
    if candidates != [] {
      var n := |candidates| - 1;
      OffersMatch(candidates[..n], request);
      RowOffersMatch(candidates[n], candidates[n].profile.dynamicACL, request);
      forall o | o in Offers(candidates, request)
        ensures exists c :: c in candidates && o.package == c.package && o.profile == c.profile
      {
        if o in Offers(candidates[..n], request) {
          var c :| c in candidates[..n] && o.package == c.package && o.profile == c.profile;
          assert c in candidates;
        } else {
          assert candidates[n] in candidates;
        }
      }
    }
  }

  /** A match is a row of a configured profile that covers the requested group and source, bills a package
      of the subscriber that takes the packet's VLAN, and never carries a deadline that has passed. */
  lemma MatchIsAuthorised(subscriber: CompiledSubscriber, profiles: map<nat, Profile>, request: Join, now: Time,
                          chosen: Match, rank: nat)
    requires Compiled(subscriber, profiles)
    requires Chosen(subscriber, request, now,
                    Offers(Candidates(subscriber, profiles, request.uniVLAN), request), chosen, rank)
    ensures AclMatches(chosen.offer.acl, request.source, request.group)
    ensures Known(profiles, chosen.offer.profile) && chosen.offer.acl in chosen.offer.profile.dynamicACL
    ensures chosen.offer.profile.entityID in InForce(subscriber.policy, request.uniVLAN)
    ensures chosen.offer.package.Some? ==>
              && chosen.offer.package.value in subscriber.policy.servicePackages
              && ServiceVLANMatches(chosen.offer.package.value.vlanID, request.uniVLAN)
    ensures chosen.previewUntil.Some? ==> chosen.previewUntil.value > now
    ensures chosen.reason == Preview ==>
              && chosen.offer.acl.previewLength > 0
              && FirstMatch(chosen.offer.profile.dynamicACL, request.source, request.group) == Some(chosen.offer.acl)
  {
    hide AclMatches, ServiceVLANMatches, InForce;
    var candidates := Candidates(subscriber, profiles, request.uniVLAN);
    OffersMatch(candidates, request);
    FirstOffer(candidates, request);
    hide Offers, RowOffers, FirstMatch;
    var o := Offers(candidates, request)[rank];
    assert o in Offers(candidates, request);
    var c :| c in candidates && o.package == c.package && o.profile == c.profile;
    AllCandidatesKnown(subscriber, profiles, request.uniVLAN);
    AllCandidatesInForce(subscriber, profiles, request.uniVLAN);
    CandidatePackages(subscriber.policy.servicePackages, profiles, request.uniVLAN);
  }
}
