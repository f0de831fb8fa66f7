/**
  The reaction of the policy to a port whose availability changed, and the
  replay of that reaction over ports that were already unavailable when
  the policy attached.

  Each operation is given twice: as a function on a value snapshot of the
  card (`CardState`), which the lemmas of `SwitchProperties` reason about,
  and as the imperative code that works on a `Card` object, proved to end
  in the state the function describes.
*/
module SwitchOnPortAvailable {
  import opened Wrappers
  import opened Selection
  import opened DevicePort

  // ---------------------------------------------------------------------
  // Deciding whether a candidate profile leaves the other direction alone
  // ---------------------------------------------------------------------

  /** Every sink that has an active port has it at availability NO. */
  function ActiveSinkPortsUnavailable(sinks: seq<Device>): (r: bool)
    ensures r <==> forall i | 0 <= i < |sinks| ::
      sinks[i].activePort.Some? ==> sinks[i].activePort.value.available == No
  {
    if sinks == [] then true
    else if sinks[0].activePort.Some? && sinks[0].activePort.value.available != No then false
    else ActiveSinkPortsUnavailable(sinks[1..])
  }

  /**
    A profile is good for an output port when it keeps the capture side of
    the active profile and no sink is playing through a port that is still
    (or may still be) plugged in.
  */
  function ProfileGoodForOutput(profile: Profile, active: Profile, sinks: seq<Device>): (r: bool)
    ensures r <==>
      && profile.nSources == active.nSources
      && profile.maxSourceChannels == active.maxSourceChannels
      && forall i | 0 <= i < |sinks| ::
           sinks[i].activePort.Some? ==> sinks[i].activePort.value.available == No
  {
    if active.nSources != profile.nSources then false
    else if active.maxSourceChannels != profile.maxSourceChannels then false
    else ActiveSinkPortsUnavailable(sinks)
  }

  /** A profile is good for an input port when it keeps the playback side of the active profile. */
  function ProfileGoodForInput(profile: Profile, active: Profile): (r: bool)
    ensures r <==> profile.nSinks == active.nSinks && profile.maxSinkChannels == active.maxSinkChannels
  {
    if active.nSinks != profile.nSinks then false
    else if active.maxSinkChannels != profile.maxSinkChannels then false
    else true
  }

  /** The direction-appropriate test of a candidate profile. */
  function GoodFor(direction: Direction, profile: Profile, active: Profile, sinks: seq<Device>): bool {
    match direction
    case Output => ProfileGoodForOutput(profile, active, sinks)
    case Input => ProfileGoodForInput(profile, active)
  }

  /** Scores of a port's profiles: the candidates are those good for the port's direction. */
  function ProfileScores(port: Port, active: Profile, sinks: seq<Device>): seq<Option<nat>> {
    seq(|port.profiles|, i requires 0 <= i < |port.profiles| =>
      if GoodFor(port.direction, port.profiles[i], active, sinks)
      then Some(port.profiles[i].priority) else None)
  }

  /**
    The search of the profile switch: the position, among the port's own
    profiles, of the first good profile of maximal priority.
  */
  method SelectProfile(port: Port, active: Profile, sinks: seq<Device>) returns (best: Option<nat>)
    ensures best == Best(ProfileScores(port, active, sinks))
    ensures ChoosesBest(ProfileScores(port, active, sinks), best)
    ensures best.Some? ==> best.value < |port.profiles|
  {
    ghost var scores := ProfileScores(port, active, sinks);
    var profiles := port.profiles;
    best := None;
    var i := 0;
    while i < |profiles|
      invariant 0 <= i <= |profiles|
      invariant best == Best(scores[..i])
    {
      var profile := profiles[i];
      PrefixStep(scores, i);
      if best.None? || profiles[best.value].priority < profile.priority {
        var good: bool;
        match port.direction {
          case Output => good := ProfileGoodForOutput(profile, active, sinks);
          case Input => good := ProfileGoodForInput(profile, active);
        }
        if good {
          best := Some(i);
        }
      }
      i := i + 1;
    }
    assert scores[..i] == scores;
    BestChoosesBest(scores);
  }

  // ---------------------------------------------------------------------
  // Finding the sink or source that exposes a port
  // ---------------------------------------------------------------------

  /** A device exposes a port when its port map holds that very port under the port's name. */
  predicate Exposes(device: Device, port: Port) {
    LookupPort(device.ports, port.name) == Some(port)
  }

  /** The first device at or after position `from` that exposes the port. */
  function FirstExposing(devices: seq<Device>, port: Port, from: nat): (r: Option<nat>)
    ensures r.Some? ==> from <= r.value < |devices| && Exposes(devices[r.value], port)
    ensures r.Some? ==> forall j | from <= j < r.value :: !Exposes(devices[j], port)
    ensures r.None? ==> forall j | from <= j < |devices| :: !Exposes(devices[j], port)
    decreases |devices| - from
  {
    if from >= |devices| then None
    else if Exposes(devices[from], port) then Some(from)
    else FirstExposing(devices, port, from + 1)
  }

  /** The loop over a card's sinks (or sources) that stops at the first one exposing the port. */
  method FindExposing(devices: seq<Device>, port: Port) returns (r: Option<nat>)
    ensures r == FirstExposing(devices, port, 0)
    ensures r.Some? ==> r.value < |devices| && Exposes(devices[r.value], port)
    ensures r.None? ==> forall j | 0 <= j < |devices| :: !Exposes(devices[j], port)
  {
    var i := 0;
    while i < |devices|
      invariant 0 <= i <= |devices|
      invariant FirstExposing(devices, port, i) == FirstExposing(devices, port, 0)
    {
      if LookupPort(devices[i].ports, port.name) == Some(port) {
        return Some(i);
      }
      i := i + 1;
    }
    r := None;
  }

  /** The sink exposing a port, when it is an output port. */
  function ExposingSink(s: CardState, port: Port): (r: Option<nat>)
    ensures r.Some? ==> r.value < |s.sinks|
  {
    if port.direction == Output then FirstExposing(s.sinks, port, 0) else None
  }

  /** The source exposing a port, when it is an input port. */
  function ExposingSource(s: CardState, port: Port): (r: Option<nat>)
    ensures r.Some? ==> r.value < |s.sources|
  {
    if port.direction == Input then FirstExposing(s.sources, port, 0) else None
  }

  /** Only the device set of the port's direction is searched; the other result is always absent. */
  method FindSinkAndSource(sinks: seq<Device>, sources: seq<Device>, port: Port)
    returns (sink: Option<nat>, source: Option<nat>)
    ensures port.direction == Output ==> source.None? && sink == FirstExposing(sinks, port, 0)
    ensures port.direction == Input ==> sink.None? && source == FirstExposing(sources, port, 0)
  {
    sink, source := None, None;
    match port.direction {
      case Output => sink := FindExposing(sinks, port);
      case Input => source := FindExposing(sources, port);
    }
  }

  // ---------------------------------------------------------------------
  // The card as a value
  // ---------------------------------------------------------------------

  datatype CardState = CardState(
    profiles: seq<Profile>,
    ports: seq<Port>,
    activeProfile: Profile,
    sinks: seq<Device>,
    sources: seq<Device>)

  /**
    The host's invariants the policy relies on: the active profile is one of
    the card's profiles, the card's port map has unique keys, and every
    port's profile map has unique keys and holds only profiles of the card.
  */
  ghost predicate WellFormed(s: CardState) {
    && s.activeProfile in s.profiles
    && UniquePortNames(s.ports)
    && forall port | port in s.ports ::
         && UniqueProfileNames(port.profiles)
         && forall p | p in port.profiles :: p in s.profiles
  }

  /** The port's profile map holds the card's active profile. */
  predicate IsActiveProfile(active: Profile, port: Port) {
    LookupProfile(port.profiles, active.name) == Some(active)
  }

  /** The sink or source exposing the port has it as its active port. */
  predicate IsActivePort(s: CardState, port: Port) {
    var sink := ExposingSink(s, port);
    var source := ExposingSource(s, port);
    || (sink.Some? && s.sinks[sink.value].activePort == Some(port))
    || (source.Some? && s.sources[source.value].activePort == Some(port))
  }

  /** What the host does when asked for a profile: refuse, or apply it and rebuild the sinks and sources. */
  datatype ProfileSwitch = Rejected | Applied(sinks: seq<Device>, sources: seq<Device>)

  /**
    The host's answer to every profile it may be asked to switch to, with the
    flag that asks it to save the choice as the user's preference.
  */
  type Host = (Profile, bool) -> ProfileSwitch

  /** The card after a profile request, or nothing when the host rejects it. */
  function ApplyProfile(s: CardState, profile: Profile, save: bool, host: Host): Option<CardState> {
    match host(profile, save)
    case Rejected => None
    case Applied(sinks, sources) => Some(s.(activeProfile := profile, sinks := sinks, sources := sources))
  }

  /**
    The profile switch: the best profile is requested, never to be saved;
    nothing happens when there is none or it is rejected.
  */
  function SwitchProfile(s: CardState, port: Port, host: Host): Option<CardState> {
    match Best(ProfileScores(port, s.activeProfile, s.sinks))
    case None => None
    case Some(k) => ApplyProfile(s, port.profiles[k], false, host)
  }

  /** The device at position `i`, if any, switched to a port. */
  function UsePort(devices: seq<Device>, i: Option<nat>, port: Port): seq<Device> {
    if i.Some? && i.value < |devices|
    then devices[i.value := devices[i.value].(activePort := Some(port))]
    else devices
  }

  /** The device at position `i`, if any, switched to its best port when that port is not NO. */
  function FallBack(devices: seq<Device>, i: Option<nat>): seq<Device> {
    if i.Some? && i.value < |devices| then
      match FindBest(devices[i.value].ports)
      case Some(p2) => if p2.available != No then UsePort(devices, i, p2) else devices
      case None => devices
    else devices
  }

  /** The port made active on the sink or source that exposes it. */
  function SelectPort(s: CardState, port: Port): CardState {
    s.(sinks := UsePort(s.sinks, ExposingSink(s, port), port),
       sources := UsePort(s.sources, ExposingSource(s, port), port))
  }

  /** The sink or source that exposes the port falls back to its best port. */
  function ReleasePort(s: CardState, port: Port): CardState {
    s.(sinks := FallBack(s.sinks, ExposingSink(s, port)),
       sources := FallBack(s.sources, ExposingSource(s, port)))
  }

  /** The card after the policy has handled a change of availability of `port`. */
  function AfterPortAvailable(s: CardState, port: Port, host: Host): CardState {
    if port.available == Unknown then s
    else if |s.sinks| == 0 && |s.sources| == 0 then s
    else if port.available == No && !IsActivePort(s, port) then s
    else if port.available == Yes then
      if IsActivePort(s, port) then s
      else if IsActiveProfile(s.activeProfile, port) then SelectPort(s, port)
      else
        match SwitchProfile(s, port, host)
        case None => s
        case Some(t) => SelectPort(t, port)
    else ReleasePort(s, port)
  }

  /** The card after the availability handler has been replayed, in order, for those of `ports` that are NO. */
  function ReplayUnavailable(s: CardState, ports: seq<Port>, host: Host): CardState
    decreases |ports|
  {
    if ports == [] then s
    else
      var t := ReplayUnavailable(s, ports[..|ports| - 1], host);
      var port := ports[|ports| - 1];
      if port.available == No then AfterPortAvailable(t, port, host) else t
  }

  // ---------------------------------------------------------------------
  // The card as an object of the host
  // ---------------------------------------------------------------------

  class Card {
    var profiles: seq<Profile>
    var ports: seq<Port>
    var activeProfile: Profile
    var sinks: seq<Device>
    var sources: seq<Device>

    function State(): CardState
      reads this
    {
      CardState(profiles, ports, activeProfile, sinks, sources)
    }

    ghost predicate Valid()
      reads this
    {
      WellFormed(State())
    }

    /** The host's profile switch; it may refuse, and on success it rebuilds the sinks and sources. */
    method SetProfile(profile: Profile, save: bool, host: Host) returns (ok: bool)
      modifies this
      ensures ok == ApplyProfile(old(State()), profile, save, host).Some?
      ensures State() == if ok then ApplyProfile(old(State()), profile, save, host).value else old(State())
    {
      match host(profile, save) {
        case Rejected =>
          ok := false;
        case Applied(newSinks, newSources) =>
          activeProfile, sinks, sources := profile, newSinks, newSources;
          ok := true;
      }
    }

    /** The host's port switch of a sink. */
    method SetSinkPort(i: nat, port: Port)
      requires i < |sinks|
      modifies this
      ensures State() == old(State()).(sinks := UsePort(old(sinks), Some(i), port))
    {
      sinks := sinks[i := sinks[i].(activePort := Some(port))];
    }

    /** The host's port switch of a source. */
    method SetSourcePort(i: nat, port: Port)
      requires i < |sources|
      modifies this
      ensures State() == old(State()).(sources := UsePort(old(sources), Some(i), port))
    {
      sources := sources[i := sources[i].(activePort := Some(port))];
    }

    /** Switches to the best profile of the port, if there is one and the host accepts it. */
    method TryToSwitchProfile(port: Port, host: Host) returns (ok: bool)
      modifies this
      ensures ok == SwitchProfile(old(State()), port, host).Some?
      ensures State() == if ok then SwitchProfile(old(State()), port, host).value else old(State())
    {
      var best := SelectProfile(port, activeProfile, sinks);
      if best.None? {
        ok := false;
        return;
      }
      ok := SetProfile(port.profiles[best.value], false, host);
    }
  }

  /**
    The handler of a change of availability of `port`; `card` is the port's
    card, null when the port has none.
  */
  method PortAvailableHookCallback(card: Card?, port: Port, host: Host)
    requires card != null ==> card.Valid() && port in card.ports
    modifies card
    ensures card != null ==> card.Valid()
    ensures card != null ==> card.State() == AfterPortAvailable(old(card.State()), port, host)
  {
    if port.available == Unknown {
      return;
    }
    if card == null {
      return;
    }
    if |card.sinks| == 0 && |card.sources| == 0 {
      return;
    }
    ghost var s := card.State();
    var sink, source := FindSinkAndSource(card.sinks, card.sources, port);
    assert sink == ExposingSink(s, port) && source == ExposingSource(s, port);
    var isActiveProfile := LookupProfile(port.profiles, card.activeProfile.name) == Some(card.activeProfile);
    var isActivePort :=
      || (sink.Some? && card.sinks[sink.value].activePort == Some(port))
      || (source.Some? && card.sources[source.value].activePort == Some(port));
    assert isActivePort == IsActivePort(s, port);
    if port.available == No && !isActivePort {
      return;
    }
    if port.available == Yes {
      if isActivePort {
        return;
      }
      if !isActiveProfile {
        var switched := card.TryToSwitchProfile(port, host);
        if !switched {
          return;
        }
        LookupProfileFindsMember(port.profiles, card.activeProfile);
        assert LookupProfile(port.profiles, card.activeProfile.name) == Some(card.activeProfile);
        sink, source := FindSinkAndSource(card.sinks, card.sources, port);
      }
      ghost var t := card.State();
      assert sink == ExposingSink(t, port) && source == ExposingSource(t, port);
      if source.Some? {
        card.SetSourcePort(source.value, port);
      }
      assert card.State() == t.(sources := UsePort(t.sources, source, port));
      if sink.Some? {
        card.SetSinkPort(sink.value, port);
      }
      assert card.State() == SelectPort(t, port);
      return;
    }
    assert port.available == No;
    if sink.Some? {
      var p2 := FindBest(card.sinks[sink.value].ports);
      if p2.Some? && p2.value.available != No {
        card.SetSinkPort(sink.value, p2.value);
      }
    }
    assert card.State() == s.(sinks := FallBack(s.sinks, sink));
    if source.Some? {
      var p2 := FindBest(card.sources[source.value].ports);
      if p2.Some? && p2.value.available != No {
        card.SetSourcePort(source.value, p2.value);
      }
    }
    assert card.State() == ReleasePort(s, port);
  }

  /**
    The reconciliation run when the policy attaches: for every card, in
    order, every port of the card that is NO is handled as if its
    availability had just changed.
  */
  method HandleAllUnavailable(cards: seq<Card>, host: Host)
    requires forall i, j | 0 <= i < j < |cards| :: cards[i] != cards[j]
    requires forall i | 0 <= i < |cards| :: cards[i].Valid()
    modifies set i | 0 <= i < |cards| :: cards[i]
    ensures forall i | 0 <= i < |cards| :: cards[i].Valid()
    ensures forall i | 0 <= i < |cards| ::
      cards[i].State() == ReplayUnavailable(old(cards[i].State()), old(cards[i].ports), host)
  {
    var i := 0;
    while i < |cards|
      invariant 0 <= i <= |cards|
      invariant forall k | 0 <= k < |cards| :: cards[k].Valid()
      invariant forall k | 0 <= k < i ::
        cards[k].State() == ReplayUnavailable(old(cards[k].State()), old(cards[k].ports), host)
      invariant forall k | i <= k < |cards| :: cards[k].State() == old(cards[k].State())
    {
      var card := cards[i];
      var ports := card.ports;
      ghost var start := card.State();
      var j := 0;
      while j < |ports|
        invariant 0 <= j <= |ports|
        invariant card.Valid() && card.ports == ports
        invariant card.State() == ReplayUnavailable(start, ports[..j], host)
        invariant forall k | 0 <= k < |cards| && k != i :: cards[k].Valid()
        invariant forall k | 0 <= k < i ::
          cards[k].State() == ReplayUnavailable(old(cards[k].State()), old(cards[k].ports), host)
        invariant forall k | i < k < |cards| :: cards[k].State() == old(cards[k].State())
      {
        assert ports[..j + 1][..j] == ports[..j];
        if ports[j].available == No {
          PortAvailableHookCallback(card, ports[j], host);
        }
        j := j + 1;
      }
      assert ports[..j] == ports;
      i := i + 1;
    }
  }
}
