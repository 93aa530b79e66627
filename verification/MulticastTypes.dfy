/** Addresses, policies and requests shared by the multicast policy engine, runtime and filter backend
    (internal/multicast/policy.go, internal/multicast/runtime.go). */
module MulticastTypes {
  import opened Clock
  import opened Sequences

  /** netip.Addr: a family and a value. NoAddr is the invalid address. */
  datatype Addr = NoAddr | V4(value: nat) | V6(value: nat) {

    predicate IsValid() { !NoAddr? }

    predicate IsUnspecified() { this == V4(0) || this == V6(0) }

    predicate IsMulticast() {
      match this
      case NoAddr => false
      case V4(v) => 0xe000_0000 <= v < 0xf000_0000
      case V6(v) =>
        0xff00_0000_0000_0000_0000_0000_0000_0000 <= v < 0x1_0000_0000_0000_0000_0000_0000_0000_0000
    }

    predicate SameFamily(other: Addr) { NoAddr? == other.NoAddr? && V4? == other.V4? }

    /** netip.Addr.Compare: by family, then by value. */
    predicate Below(other: Addr) {
      match (this, other)
      case (NoAddr, _) => other != NoAddr
      case (V4(a), V4(b)) => a < b
      case (V4(_), _) => other.V6?
      case (V6(a), V6(b)) => a < b
      case (V6(_), _) => false
    }
  }

  function Wildcard(group: Addr): Addr { if group.V4? then V4(0) else V6(0) }

  datatype VLAN = VLAN(tagged: bool, id: nat)

  datatype VLANTag = VLANTag(tpid: nat, tci: nat)

  const SECOND: nat := 1_000_000_000

  datatype ACLEntry = ACLEntry(rowKey: nat, ipVersion: nat, gemPortID: nat, vlanID: nat,
                               source: Addr, start: Addr, stop: Addr, imputedBandwidth: nat,
                               previewLength: nat, previewRepeatTime: nat,
                               previewRepeatCount: nat, previewResetTime: nat)

  datatype Profile = Profile(entityID: nat, igmpVersion: nat, igmpFunction: nat, immediateLeave: bool,
                             upstreamRate: nat, robustness: nat, queryInterval: nat,
                             queryMaxResponseTime: nat, lastMemberQueryInterval: nat,
                             unauthorizedJoinBehaviour: bool,
                             dynamicACL: seq<ACLEntry>, staticACL: seq<ACLEntry>)

  datatype ServicePackage = ServicePackage(rowKey: nat, vlanID: nat, maxSimultaneousGroups: nat,
                                           maxMulticastBandwidth: nat, operationsProfile: nat)

  datatype AllowedPreview = AllowedPreview(rowKey: nat, source: Addr, destination: Addr,
                                           aniVLAN: nat, uniVLAN: nat, duration: nat, timeLeft: nat)

  datatype Subscriber = Subscriber(entityID: nat, interfaces: seq<string>, profile: nat,
                                   maxSimultaneousGroups: nat, maxMulticastBandwidth: nat,
                                   bandwidthEnforcement: bool, servicePackages: seq<ServicePackage>,
                                   allowedPreviews: seq<AllowedPreview>)

  datatype Join = Join(subscriberID: nat, interfaceName: string, uniVLAN: VLAN,
                       source: Addr, group: Addr, client: Addr)

  datatype ActiveGroup = ActiveGroup(interfaceName: string, source: Addr,
                                     includedSources: seq<Addr>, excludedSources: seq<Addr>,
                                     group: Addr, client: Addr, uniVLAN: VLAN, aniVLAN: nat,
                                     profileID: nat, aclRowKey: nat, gemPortID: nat,
                                     imputedBandwidth: nat, previewUntil: Option<Time>)

  datatype Reason =
    | Authorized | AllowedPreviewReason | Preview | Unauthorized | GroupLimit | BandwidthExceeded
    | PreviewExhausted | PreviewInterval | UnknownSubscriber

  datatype Decision = Decision(accepted: bool, forwardUpstream: bool, replicate: bool, reason: Reason,
                               profileID: nat, aclRowKey: nat, gemPortID: nat, aniVLAN: nat,
                               imputedBandwidth: nat, bandwidthExceeded: bool, previewUntil: Option<Time>)

  predicate ValidJoin(request: Join) {
    && request.group.IsValid() && request.group.IsMulticast()
    && request.source.IsValid() && request.source.SameFamily(request.group)
    && request.uniVLAN.id <= 4095 && (request.uniVLAN.tagged || request.uniVLAN.id == 0)
    && (request.client.IsValid() ==> request.client.SameFamily(request.group))
  }
}
