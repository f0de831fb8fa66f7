/**
  What the policy promises about its reaction to availability changes,
  stated on the value model of `SwitchOnPortAvailable`.
*/
module SwitchProperties {
  import opened Wrappers
  import opened Selection
  import opened DevicePort
  import opened SwitchOnPortAvailable

  /** The sinks for an output port, the sources for an input port. */
  function OwnerDevices(s: CardState, port: Port): seq<Device> {
    if port.direction == Output then s.sinks else s.sources
  }

  /** The position of the device that exposes the port among `OwnerDevices`. */
  function Owner(s: CardState, port: Port): (r: Option<nat>)
    ensures r.Some? ==> r.value < |OwnerDevices(s, port)| && Exposes(OwnerDevices(s, port)[r.value], port)
  {
    if port.direction == Output then ExposingSink(s, port) else ExposingSource(s, port)
  }

  /** The device re-resolved for the port, if any, has the port as its active port. */
  ghost predicate ResolvedUsesPort(s: CardState, port: Port) {
    var i := Owner(s, port);
    i.Some? ==> OwnerDevices(s, port)[i.value].activePort == Some(port)
  }

  /** Switching one device's active port does not change which device exposes a port. */
  lemma {:induction false} UsePortKeepsExposing(devices: seq<Device>, i: Option<nat>, p: Port, port: Port, from: nat)
    ensures FirstExposing(UsePort(devices, i, p), port, from) == FirstExposing(devices, port, from)
    decreases |devices| - from
  {
    var after := UsePort(devices, i, p);
    assert |after| == |devices|;
    if from < |devices| {
      assert after[from].ports == devices[from].ports;
      UsePortKeepsExposing(devices, i, p, port, from + 1);
    }
  }

  /** Switching an active port keeps the exposing sink and source. */
  lemma SelectPortKeepsOwners(s: CardState, t: CardState, i: Option<nat>, j: Option<nat>, p: Port, port: Port)
    requires t == s.(sinks := UsePort(s.sinks, i, p), sources := UsePort(s.sources, j, p))
    ensures ExposingSink(t, port) == ExposingSink(s, port)
    ensures ExposingSource(t, port) == ExposingSource(s, port)
  {
    UsePortKeepsExposing(s.sinks, i, p, port, 0);
    UsePortKeepsExposing(s.sources, j, p, port, 0);
  }

  // ---------------------------------------------------------------------
  // Early outs
  // ---------------------------------------------------------------------

  /** The handler changes nothing for an UNKNOWN port, a card without devices, an inactive NO port or an active YES port. */
  lemma EarlyOutsChangeNothing(s: CardState, port: Port, host: Host)
    requires
      || port.available == Unknown
      || (|s.sinks| == 0 && |s.sources| == 0)
      || (port.available == No && !IsActivePort(s, port))
      || (port.available == Yes && IsActivePort(s, port))
    ensures AfterPortAvailable(s, port, host) == s
  {
  }

  /** Delivering the same event twice has the effect of delivering it once. */
  lemma AfterPortAvailableIsIdempotent(s: CardState, port: Port, host: Host)
    requires UniqueProfileNames(port.profiles)
    ensures AfterPortAvailable(AfterPortAvailable(s, port, host), port, host) == AfterPortAvailable(s, port, host)
  {
    var r := AfterPortAvailable(s, port, host);
    if port.available == Unknown || (|s.sinks| == 0 && |s.sources| == 0) || r == s {
    } else if port.available == Yes {
      assert !IsActivePort(s, port);
      var t := if IsActiveProfile(s.activeProfile, port) then s else SwitchProfile(s, port, host).value;
      assert r == SelectPort(t, port);
      if !IsActiveProfile(s.activeProfile, port) {
        var k := Best(ProfileScores(port, s.activeProfile, s.sinks)).value;
        LookupProfileFindsMember(port.profiles, port.profiles[k]);
      }
      assert IsActiveProfile(r.activeProfile, port);
      SelectPortKeepsOwners(t, r, ExposingSink(t, port), ExposingSource(t, port), port, port);
      if ExposingSink(t, port).Some? || ExposingSource(t, port).Some? {
        assert IsActivePort(r, port);
      } else {
        assert SelectPort(r, port) == r;
      }
    } else {
      assert port.available == No && IsActivePort(s, port);
      assert r == ReleasePort(s, port);
      ReleaseDropsPort(s, port);
    }
  }

  /** After an active port that is NO has been released, either nothing changed or the port is no longer active. */
  lemma ReleaseDropsPort(s: CardState, port: Port)
    requires port.available == No
    ensures ReleasePort(s, port) == s || !IsActivePort(ReleasePort(s, port), port)
  {
  }

  // ---------------------------------------------------------------------
  // A port becoming available
  // ---------------------------------------------------------------------

  /**
    How one device set looks after a port was selected: only the device
    `owner` changes, and only its active port, which becomes `port`.
  */
  ghost predicate SelectOutcome(before: seq<Device>, after: seq<Device>, owner: Option<nat>, port: Port) {
    && |after| == |before|
    && forall i | 0 <= i < |before| ::
         && after[i].name == before[i].name
         && after[i].ports == before[i].ports
         && after[i].activePort == if owner == Some(i) then Some(port) else before[i].activePort
  }

  /**
    When a port that is not active becomes YES on a card that has devices,
    either its profile is (or becomes) active and the device exposing it
    uses it, or nothing changes at all: there is no partial switch. When the
    port's profile is already active, no profile switch is attempted, and
    only the active port of the exposing device changes. After a switch, the
    devices are the ones the host rebuilt for the new profile, of which only
    the one exposing the port changes, to that port. The card's profiles and
    ports never change.
  */
  lemma PortBecomingAvailable(s: CardState, port: Port, host: Host)
    requires port.available == Yes
    requires UniqueProfileNames(port.profiles)
    requires |s.sinks| > 0 || |s.sources| > 0
    requires !IsActivePort(s, port)
    ensures var r := AfterPortAvailable(s, port, host);
      if IsActiveProfile(s.activeProfile, port) || SwitchProfile(s, port, host).Some?
      then IsActiveProfile(r.activeProfile, port) && ResolvedUsesPort(r, port)
      else r == s
    ensures var r := AfterPortAvailable(s, port, host);
      r.profiles == s.profiles && r.ports == s.ports
    ensures var r := AfterPortAvailable(s, port, host);
      IsActiveProfile(s.activeProfile, port) ==>
        && r.activeProfile == s.activeProfile
        && SelectOutcome(s.sinks, r.sinks, ExposingSink(s, port), port)
        && SelectOutcome(s.sources, r.sources, ExposingSource(s, port), port)
    ensures var r := AfterPortAvailable(s, port, host);
      !IsActiveProfile(s.activeProfile, port) && SwitchProfile(s, port, host).Some? ==>
        var h := host(r.activeProfile, false);
        && h.Applied?
        && SelectOutcome(h.sinks, r.sinks, ExposingSink(r, port), port)
        && SelectOutcome(h.sources, r.sources, ExposingSource(r, port), port)
  {
    var r := AfterPortAvailable(s, port, host);
    if IsActiveProfile(s.activeProfile, port) || SwitchProfile(s, port, host).Some? {
      var t := if IsActiveProfile(s.activeProfile, port) then s else SwitchProfile(s, port, host).value;
      assert r == SelectPort(t, port);
      if !IsActiveProfile(s.activeProfile, port) {
        var k := Best(ProfileScores(port, s.activeProfile, s.sinks)).value;
        LookupProfileFindsMember(port.profiles, port.profiles[k]);
      }
      SelectPortKeepsOwners(t, r, ExposingSink(t, port), ExposingSource(t, port), port, port);
    }
  }

  /**
    A profile switch only happens for a port becoming YES, and it goes to the
    first profile of maximal priority, among the port's own profiles, that is
    good for the port's direction; the host must have accepted it, asked
    not to save it as the user's choice.
  */
  lemma ProfileSwitchPicksBest(s: CardState, port: Port, host: Host)
    ensures var r := AfterPortAvailable(s, port, host);
      var scores := ProfileScores(port, s.activeProfile, s.sinks);
      r.activeProfile != s.activeProfile ==>
        && port.available == Yes
        && Best(scores).Some?
        && IsFirstBest(scores, Best(scores).value)
        && r.activeProfile == port.profiles[Best(scores).value]
        && host(r.activeProfile, false).Applied?
  {
    var r := AfterPortAvailable(s, port, host);
    var scores := ProfileScores(port, s.activeProfile, s.sinks);
    BestChoosesBest(scores);
    if r.activeProfile != s.activeProfile {
      if port.available == No {
        PortBecomingUnavailable(s, port, host);
      } else {
        assert port.available == Yes;
        assert SwitchProfile(s, port, host).Some?;
      }
    }
  }

  /**
    A switch driven by an output port keeps the capture side of the active
    profile and happens only when every sink with an active port has it at
    NO; one driven by an input port keeps the playback side.
  */
  lemma OtherDirectionPreserved(s: CardState, port: Port, host: Host)
    ensures var r := AfterPortAvailable(s, port, host);
      r.activeProfile != s.activeProfile ==>
        match port.direction
        case Output =>
          && r.activeProfile.nSources == s.activeProfile.nSources
          && r.activeProfile.maxSourceChannels == s.activeProfile.maxSourceChannels
          && forall i | 0 <= i < |s.sinks| ::
               s.sinks[i].activePort.Some? ==> s.sinks[i].activePort.value.available == No
        case Input =>
          && r.activeProfile.nSinks == s.activeProfile.nSinks
          && r.activeProfile.maxSinkChannels == s.activeProfile.maxSinkChannels
  {
  }

  // ---------------------------------------------------------------------
  // A port becoming unavailable
  // ---------------------------------------------------------------------

  /**
    How one device set looks after a loss: only the device `owner` whose
    active port was the lost one may change, and then only to the best port
    of its map, and only when that port is not NO.
  */
  ghost predicate LossOutcome(before: seq<Device>, after: seq<Device>, owner: Option<nat>, port: Port) {
    && |after| == |before|
    && forall i | 0 <= i < |before| ::
         && after[i].name == before[i].name
         && after[i].ports == before[i].ports
         && after[i].activePort ==
              if && owner == Some(i)
                 && before[i].activePort == Some(port)
                 && FindBest(before[i].ports).Some?
                 && FindBest(before[i].ports).value.available != No
              then FindBest(before[i].ports)
              else before[i].activePort
  }

  /** A port becoming NO never changes the profile, and moves only its own device, only to a port that is not NO. */
  lemma PortBecomingUnavailable(s: CardState, port: Port, host: Host)
    requires port.available == No
    ensures var r := AfterPortAvailable(s, port, host);
      && r.activeProfile == s.activeProfile
      && r.profiles == s.profiles
      && r.ports == s.ports
      && LossOutcome(s.sinks, r.sinks, ExposingSink(s, port), port)
      && LossOutcome(s.sources, r.sources, ExposingSource(s, port), port)
  {
  }

  /**
    Under the assumed rule of the host's best-port search, the device losing
    its active port moves to a port that is not NO and of maximal priority
    among those, whenever its map has one: ports that are NO do not compete,
    whatever their priority.
  */
  lemma LossPicksHighestAvailableSibling(s: CardState, port: Port, host: Host, q: Port)
    requires port.available == No
    requires Owner(s, port).Some?
    requires OwnerDevices(s, port)[Owner(s, port).value].activePort == Some(port)
    requires q in OwnerDevices(s, port)[Owner(s, port).value].ports && q.available != No
    ensures var r := AfterPortAvailable(s, port, host);
      var active := OwnerDevices(r, port)[Owner(s, port).value].activePort;
      && active.Some?
      && active.value in OwnerDevices(s, port)[Owner(s, port).value].ports
      && active.value.available != No
      && active.value.priority >= q.priority
  {
    var i := Owner(s, port).value;
    FindBestPrefersAvailable(OwnerDevices(s, port)[i].ports, q);
    PortBecomingUnavailable(s, port, host);
  }

  // ---------------------------------------------------------------------
  // Reconciliation at attach time
  // ---------------------------------------------------------------------

  /** Replaying the NO ports never changes the card's profile, profiles or ports. */
  lemma {:induction false} ReplayKeepsProfile(s: CardState, ports: seq<Port>, host: Host)
    ensures ReplayUnavailable(s, ports, host).activeProfile == s.activeProfile
    ensures ReplayUnavailable(s, ports, host).profiles == s.profiles
    ensures ReplayUnavailable(s, ports, host).ports == s.ports
    decreases |ports|
  {
    if ports != [] {
      var init := ports[..|ports| - 1];
      ReplayKeepsProfile(s, init, host);
      var last := ports[|ports| - 1];
      if last.available == No {
        PortBecomingUnavailable(ReplayUnavailable(s, init, host), last, host);
      }
    }
  }

  /** The host's profile switch is never asked during the replay: its answers do not matter. */
  lemma {:induction false} ReplayIgnoresHost(s: CardState, ports: seq<Port>, host1: Host, host2: Host)
    ensures ReplayUnavailable(s, ports, host1) == ReplayUnavailable(s, ports, host2)
    decreases |ports|
  {
    if ports != [] {
      ReplayIgnoresHost(s, ports[..|ports| - 1], host1, host2);
    }
  }
}
