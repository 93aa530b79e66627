/** Compiling a multicast configuration (compile and preserveAllowedPreviewExpiries of
    internal/multicast/policy.go). Row lists arrive sorted by row key, as the tables deliver them. */
module PolicyCompile {
  import opened Clock
  import opened MulticastTypes
  import opened Admission
  import opened PolicyMatch

  datatype Config = Config(profiles: seq<Profile>, subscribers: seq<Subscriber>)

  const RESERVED: nat := 65535
  const MINUTE: nat := 60 * SECOND

  predicate ValidProfile(profile: Profile) {
    && profile.entityID != 0 && profile.entityID != RESERVED
    && profile.igmpVersion in {1, 2, 3, 16, 17}
    && profile.igmpFunction <= 2
    && (forall acl :: acl in profile.dynamicACL ==> ValidACL(acl))
    && (forall acl :: acl in profile.staticACL ==> ValidACL(acl))
  }

  predicate ValidACL(acl: ACLEntry) {
    && acl.rowKey <= 1023 && acl.gemPortID <= 4095
    && (acl.vlanID < 4096 || acl.vlanID == TAGGED_ONLY || acl.vlanID == ANY_VLAN)
    && (acl.ipVersion == 4 || acl.ipVersion == 6)
    && AddressVersion(acl.start, acl.ipVersion) && AddressVersion(acl.stop, acl.ipVersion)
    && acl.start.IsMulticast() && acl.stop.IsMulticast() && !acl.stop.Below(acl.start)
    && (acl.source.IsValid() && !acl.source.IsUnspecified() ==> AddressVersion(acl.source, acl.ipVersion))
    && !(24 < acl.previewResetTime < 241)
  }

  predicate ValidServiceVLAN(vlan: nat) { vlan <= TAGGED_ONLY || vlan == ANY_VLAN }

  predicate ValidAllowedPreview(preview: AllowedPreview) {
    && preview.rowKey <= 1023 && preview.aniVLAN <= 4095 && preview.uniVLAN <= 4095
    && preview.destination.IsValid() && preview.destination.IsMulticast()
    && (preview.source.IsValid() && !preview.source.IsUnspecified() ==>
          preview.source.SameFamily(preview.destination))
    && (preview.duration != 0 ==> preview.timeLeft <= preview.duration)
  }

  ghost predicate WellNamed(profiles: map<nat, Profile>) {
    forall id :: id in profiles ==> profiles[id].entityID == id != 0
  }

  ghost predicate ValidProfiles(list: seq<Profile>) {
    && (forall p :: p in list ==> ValidProfile(p))
    && (forall i, j :: 0 <= i < j < |list| ==> list[i].entityID != list[j].entityID)
  }

  function Numbers(list: seq<Profile>): set<nat> { set p | p in list :: p.entityID }

  method CompileProfiles(list: seq<Profile>) returns (ok: bool, profiles: map<nat, Profile>)
    ensures ok <==> ValidProfiles(list)
    ensures ok ==> WellNamed(profiles) && profiles.Keys == Numbers(list)
    ensures ok ==> forall id :: id in profiles ==> profiles[id] in list
  {
    hide ValidProfile, Numbers;
    profiles := map[];
    for i := 0 to |list|
      invariant WellNamed(profiles)
      invariant forall k :: 0 <= k < i ==> ValidProfile(list[k]) && list[k].entityID in profiles
      invariant forall id :: id in profiles ==> exists k :: 0 <= k < i && list[k] == profiles[id]
      invariant forall j, k :: 0 <= j < k < i ==> list[j].entityID != list[k].entityID
    {
      if !ValidProfile(list[i]) {
        return false, map[];
      }
      NonZeroProfile(list[i]);
      if list[i].entityID in profiles {
        return false, map[];
      }
      profiles := profiles[list[i].entityID := list[i]];
    }
    ok := true;
    AllNumbered(list, profiles);
  }

  lemma AllNumbered(list: seq<Profile>, profiles: map<nat, Profile>)
    requires WellNamed(profiles) && forall k :: 0 <= k < |list| ==> list[k].entityID in profiles
    requires forall id :: id in profiles ==> exists k :: 0 <= k < |list| && list[k] == profiles[id]
    ensures profiles.Keys == Numbers(list)
  {
    forall id | id in profiles ensures id in Numbers(list) {
      var k :| 0 <= k < |list| && list[k] == profiles[id];
      assert list[k] in list;
    }
  }

  lemma NonZeroProfile(profile: Profile)
    ensures ValidProfile(profile) ==> profile.entityID != 0
  {}

  /** Service packages have distinct rows, valid VLANs and existing profiles. */
  ghost predicate ValidPackages(packages: seq<ServicePackage>, known: set<nat>) {
    UniquePackages(packages) && forall p :: p in packages ==> ValidServiceVLAN(p.vlanID) && p.operationsProfile in known
  }

  method CheckPackages(packages: seq<ServicePackage>, profiles: map<nat, Profile>) returns (ok: bool)
    ensures ok <==> ValidPackages(packages, profiles.Keys)
  {
    var seen: set<nat> := {};
    for i := 0 to |packages|
      invariant forall j, k :: 0 <= j < k < i ==> packages[j].rowKey != packages[k].rowKey
      invariant forall row :: row in seen <==> exists k :: 0 <= k < i && packages[k].rowKey == row
      invariant forall k :: 0 <= k < i ==>
                  ValidServiceVLAN(packages[k].vlanID) && packages[k].operationsProfile in profiles
    {
      if packages[i].rowKey in seen || !ValidServiceVLAN(packages[i].vlanID)
         || packages[i].operationsProfile !in profiles {
        return false;
      }
      seen := seen + {packages[i].rowKey};
    }
    ok := true;
  }

  predicate UniquePreviews(previews: seq<AllowedPreview>) {
    forall i, j :: 0 <= i < j < |previews| ==> previews[i].rowKey != previews[j].rowKey
  }

  predicate Timed(preview: AllowedPreview) { preview.duration != 0 && preview.timeLeft != 0 }

  ghost predicate ValidPreviews(previews: seq<AllowedPreview>) {
    UniquePreviews(previews) && forall p :: p in previews ==> ValidAllowedPreview(p)
  }

  /** The deadline of each running allowed preview. */
  method CompilePreviews(previews: seq<AllowedPreview>, now: Time) returns (ok: bool, expiry: map<nat, Time>)
    ensures ok <==> ValidPreviews(previews)
    ensures ok ==> forall i :: 0 <= i < |previews| ==> (previews[i].rowKey in expiry <==> Timed(previews[i]))
    ensures ok ==> forall i :: 0 <= i < |previews| && Timed(previews[i]) ==>
              expiry[previews[i].rowKey] == now + previews[i].timeLeft * MINUTE
  {
    hide ValidAllowedPreview;
    var seen: set<nat> := {};
    expiry := map[];
    for i := 0 to |previews|
      invariant forall j, k :: 0 <= j < k < i ==> previews[j].rowKey != previews[k].rowKey
      invariant forall row :: row in seen <==> exists k :: 0 <= k < i && previews[k].rowKey == row
      invariant forall k :: 0 <= k < i ==> ValidAllowedPreview(previews[k])
      invariant expiry.Keys <= seen
      invariant forall k :: 0 <= k < i ==> (previews[k].rowKey in expiry <==> Timed(previews[k]))
      invariant forall k :: 0 <= k < i && Timed(previews[k]) ==>
                  expiry[previews[k].rowKey] == now + previews[k].timeLeft * MINUTE
    {
      if previews[i].rowKey in seen || !ValidAllowedPreview(previews[i]) {
        return false, map[];
      }
      seen := seen + {previews[i].rowKey};
      if Timed(previews[i]) {
        expiry := expiry[previews[i].rowKey := now + previews[i].timeLeft * MINUTE];
      }
    }
    ok := true;
  }

  ghost predicate Ready(subscribers: map<nat, CompiledSubscriber>, profiles: map<nat, Profile>) {
    forall id :: id in subscribers ==>
      && Compiled(subscribers[id], profiles)
      && UniquePackages(subscribers[id].policy.servicePackages)
      && UniquePreviews(subscribers[id].policy.allowedPreviews)
  }

  ghost predicate ValidSubscriber(subscriber: Subscriber, known: set<nat>) {
    && ValidPackages(subscriber.servicePackages, known)
    && (subscriber.servicePackages == [] ==> subscriber.profile in known)
    && ValidPreviews(subscriber.allowedPreviews)
  }

  method CompileSubscriber(subscriber: Subscriber, profiles: map<nat, Profile>, now: Time)
    returns (ok: bool, compiled: CompiledSubscriber)
    requires WellNamed(profiles)
    ensures ok <==> ValidSubscriber(subscriber, profiles.Keys)
    ensures ok ==> compiled.policy == subscriber
    ensures ok ==> Compiled(compiled, profiles)
    ensures ok ==> UniquePackages(subscriber.servicePackages) && UniquePreviews(subscriber.allowedPreviews)
  {
    hide ValidAllowedPreview, ValidServiceVLAN;
    compiled := CompiledSubscriber(subscriber, map[]);
    ok := CheckPackages(subscriber.servicePackages, profiles);
    if !ok || (|subscriber.servicePackages| == 0 && subscriber.profile !in profiles) {
      return false, compiled;
    }
    var expiry;
    ok, expiry := CompilePreviews(subscriber.allowedPreviews, now);
    compiled := CompiledSubscriber(subscriber, expiry);
  }

  ghost predicate ValidSubscribers(list: seq<Subscriber>, known: set<nat>) {
    && (forall s :: s in list ==> ValidSubscriber(s, known))
    && (forall i, j :: 0 <= i < j < |list| ==> list[i].entityID != list[j].entityID)
  }

  /** What a configuration has to satisfy. */
  ghost predicate ValidConfig(config: Config) {
    ValidProfiles(config.profiles) && ValidSubscribers(config.subscribers, Numbers(config.profiles))
  }

  /** The compiled subscribers are exactly those of the list, each under its number. */
  ghost predicate Collects(list: seq<Subscriber>, subscribers: map<nat, CompiledSubscriber>) {
    && (forall s :: s in list ==> s.entityID in subscribers && subscribers[s.entityID].policy == s)
    && (forall id :: id in subscribers ==> subscribers[id].policy in list && subscribers[id].policy.entityID == id)
  }

  lemma CollectsNext(list: seq<Subscriber>, subscribers: map<nat, CompiledSubscriber>, known: set<nat>,
                     compiled: CompiledSubscriber)
    requires ValidSubscribers(list, known) && Collects(list, subscribers) && ValidSubscriber(compiled.policy, known)
    requires compiled.policy.entityID !in subscribers
    ensures var next := list + [compiled.policy];
      ValidSubscribers(next, known) && Collects(next, subscribers[compiled.policy.entityID := compiled])
  {
    hide ValidSubscriber;
    var next := list + [compiled.policy];
    assert forall i :: 0 <= i < |list| ==> next[i] == list[i] && list[i] in list;
  }

  lemma Repeats(list: seq<Subscriber>, subscribers: map<nat, CompiledSubscriber>, i: nat)
    requires i < |list| && Collects(list[..i], subscribers) && list[i].entityID in subscribers
    ensures exists j :: 0 <= j < i && list[j].entityID == list[i].entityID
  {
    var s := subscribers[list[i].entityID].policy;
    var j :| 0 <= j < i && list[..i][j] == s;
    assert list[j].entityID == list[i].entityID;
  }

  method CompileSubscribers(list: seq<Subscriber>, profiles: map<nat, Profile>, now: Time)
    returns (ok: bool, subscribers: map<nat, CompiledSubscriber>)
    requires WellNamed(profiles)
    ensures ok <==> ValidSubscribers(list, profiles.Keys)
    ensures ok ==> Ready(subscribers, profiles) && Collects(list, subscribers)
  {
    hide Compiled, UniquePackages, ValidSubscriber, WellNamed, Collects;
    subscribers := map[];
    NothingCollected();
    for i := 0 to |list|
      invariant Ready(subscribers, profiles)
      invariant ValidSubscribers(list[..i], profiles.Keys) && Collects(list[..i], subscribers)
    {
      if list[i].entityID in subscribers {
        Repeats(list, subscribers, i);
        return false, map[];
      }
      var fine, compiled := CompileSubscriber(list[i], profiles, now);
      if !fine {
        assert list[i] in list;
        return false, map[];
      }
      CollectsNext(list[..i], subscribers, profiles.Keys, compiled);
      assert list[..i + 1] == list[..i] + [list[i]];
      subscribers := subscribers[list[i].entityID := compiled];
    }
    assert list[..|list|] == list;
    ok := true;
  }

  lemma NothingCollected()
    ensures Collects([], map[])
  {}

  /** Exactly the valid configurations are accepted, and they give the engine what it relies on. */
  method Compile(config: Config, now: Time)
    returns (ok: bool, profiles: map<nat, Profile>, subscribers: map<nat, CompiledSubscriber>)
    ensures ok <==> ValidConfig(config)
    ensures ok ==> WellNamed(profiles) && Ready(subscribers, profiles) && Collects(config.subscribers, subscribers)
    ensures ok ==> profiles.Keys == Numbers(config.profiles)
    ensures ok ==> forall id :: id in profiles ==> profiles[id] in config.profiles
  {
    hide Ready, ValidProfiles, ValidSubscribers, WellNamed, Numbers, Collects;
    ok, profiles := CompileProfiles(config.profiles);
    subscribers := map[];
    if ok {
      ok, subscribers := CompileSubscribers(config.subscribers, profiles, now);
    }
  }

  /** Running allowed previews keep their exact deadline when their row is unchanged. */
  function Kept(current: CompiledSubscriber, previous: CompiledSubscriber): CompiledSubscriber {
    var rows := set a | a in current.policy.allowedPreviews && a in previous.policy.allowedPreviews
                        && a.rowKey in previous.previewExpiry :: a.rowKey;
    current.(previewExpiry := map row | row in current.previewExpiry.Keys + rows ::
      if row in rows then previous.previewExpiry[row] else current.previewExpiry[row])
  }

  function PreserveExpiries(current: map<nat, CompiledSubscriber>, previous: map<nat, CompiledSubscriber>):
    map<nat, CompiledSubscriber>
  {
    map id | id in current :: if id in previous then Kept(current[id], previous[id]) else current[id]
  }

  lemma PreserveKeepsReady(current: map<nat, CompiledSubscriber>, profiles: map<nat, Profile>,
                           previous: map<nat, CompiledSubscriber>, oldProfiles: map<nat, Profile>)
    requires Ready(current, profiles) && forall id :: id in previous ==> Compiled(previous[id], oldProfiles)
    ensures Ready(PreserveExpiries(current, previous), profiles)
  {
    forall id | id in current && id in previous ensures Compiled(Kept(current[id], previous[id]), profiles) {
      KeptIsCompiled(current[id], profiles, previous[id], oldProfiles);
    }
  }

  lemma KeptIsCompiled(current: CompiledSubscriber, profiles: map<nat, Profile>,
                       previous: CompiledSubscriber, oldProfiles: map<nat, Profile>)
    requires Compiled(current, profiles) && Compiled(previous, oldProfiles)
    requires UniquePreviews(current.policy.allowedPreviews)
    ensures Compiled(Kept(current, previous), profiles)
  {
    var previews := current.policy.allowedPreviews;
    forall a | a in previews && a.duration == 0 ensures a.rowKey !in Kept(current, previous).previewExpiry {
      forall b | b in previews && b.rowKey == a.rowKey ensures b == a {
        var i :| 0 <= i < |previews| && previews[i] == a;
        var j :| 0 <= j < |previews| && previews[j] == b;
      }
    }
  }
}
