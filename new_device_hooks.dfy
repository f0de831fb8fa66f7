/**
  The policy's suggestions for cards, sinks and sources that are being
  created: the host offers the proposal before the object exists, and the
  policy may overwrite the proposed profile or port.
*/
module NewDeviceHooks {
  import opened Wrappers
  import opened Selection
  import opened DevicePort

  // ---------------------------------------------------------------------
  // New cards
  // ---------------------------------------------------------------------

  /** Some port whose availability is not NO has the named profile in its profile map. */
  function ProfileContainsAvailablePorts(name: string, ports: seq<Port>): (r: bool)
    ensures r <==> exists i | 0 <= i < |ports| ::
      LookupProfile(ports[i].profiles, name).Some? && ports[i].available != No
  {
    if ports == [] then false
    else if LookupProfile(ports[0].profiles, name).Some? && ports[0].available != No then true
    else
      var rest := ProfileContainsAvailablePorts(name, ports[1..]);
      assert forall i | 1 <= i < |ports| :: ports[i] == ports[1..][i - 1];
      rest
  }

  /** Scores of a card's profiles: candidates are profiles not NO that some port not NO belongs to. */
  function UsableProfileScores(profiles: seq<Profile>, ports: seq<Port>): seq<Option<nat>> {
    seq(|profiles|, i requires 0 <= i < |profiles| =>
      if profiles[i].available != No && ProfileContainsAvailablePorts(profiles[i].name, ports)
      then Some(profiles[i].priority) else None)
  }

  /** The first profile of maximal priority among those that are not NO and contain a port that is not NO. */
  method FindBestProfileWithAvailablePorts(profiles: seq<Profile>, ports: seq<Port>) returns (best: Option<nat>)
    ensures best == Best(UsableProfileScores(profiles, ports))
    ensures ChoosesBest(UsableProfileScores(profiles, ports), best)
    ensures best.Some? ==> best.value < |profiles|
  {
    ghost var scores := UsableProfileScores(profiles, ports);
    best := None;
    var i := 0;
    while i < |profiles|
      invariant 0 <= i <= |profiles|
      invariant best == Best(scores[..i])
    {
      var profile := profiles[i];
      PrefixStep(scores, i);
      if profile.available != No && ProfileContainsAvailablePorts(profile.name, ports) {
        if best.None? || profile.priority > profiles[best.value].priority {
          best := Some(i);
        }
      }
      i := i + 1;
    }
    assert scores[..i] == scores;
    BestChoosesBest(scores);
  }

  /** The proposed profile name and save flag of a new card after the policy has seen them. */
  function CardNewProfile(profiles: seq<Profile>, ports: seq<Port>, active: Option<string>, save: bool)
    : (Option<string>, bool)
  {
    if active.Some? && ProfileContainsAvailablePorts(active.value, ports) then (active, save)
    else
      match Best(UsableProfileScores(profiles, ports))
      case None => (active, save)
      case Some(k) => (Some(profiles[k].name), false)
  }

  /** The host's proposal for a card being created. */
  class CardNewData {
    var profiles: seq<Profile>
    var ports: seq<Port>
    var activeProfile: Option<string>
    var saveProfile: bool

    /** The host's setter of the proposed profile. */
    method SetProfile(name: string)
      modifies this`activeProfile
      ensures activeProfile == Some(name)
    {
      activeProfile := Some(name);
    }
  }

  method CardNewHookCallback(data: CardNewData)
    modifies data`activeProfile, data`saveProfile
    ensures (data.activeProfile, data.saveProfile) ==
      CardNewProfile(data.profiles, data.ports, old(data.activeProfile), old(data.saveProfile))
  {
    if data.activeProfile.Some? && ProfileContainsAvailablePorts(data.activeProfile.value, data.ports) {
      return;
    }
    var alt := FindBestProfileWithAvailablePorts(data.profiles, data.ports);
    if alt.Some? {
      data.SetProfile(data.profiles[alt.value].name);
      data.saveProfile := false;
    }
  }

  // ---------------------------------------------------------------------
  // New sinks and sources
  // ---------------------------------------------------------------------

  /** The port a new device would start on: the named one if the map has it, else the first of maximal priority. */
  function InitialCandidate(ports: seq<Port>, name: Option<string>): (r: Option<Port>)
    ensures r.Some? <==> ports != []
    ensures r.Some? ==> r.value in ports
    ensures name.Some? && LookupPort(ports, name.value).Some? ==> r == LookupPort(ports, name.value)
    ensures (name.None? || LookupPort(ports, name.value).None?) && ports != [] ==>
      exists k | 0 <= k < |ports| && IsFirstBest(PortScores(ports), k) :: r == Some(ports[k])
  {
    BestChoosesBest(PortScores(ports));
    if name.Some? && LookupPort(ports, name.value).Some? then LookupPort(ports, name.value)
    else PortAt(ports, Best(PortScores(ports)))
  }

  /** The port map is present and the port a new device would start on is NO. */
  ghost predicate NeedsOverride(ports: Option<seq<Port>>, name: Option<string>) {
    ports.Some? && ports.value != [] && InitialCandidate(ports.value, name).value.available == No
  }

  /**
    The policy's choice of an initial port: none (keep the proposal) unless
    the port map is present and its candidate is NO; then the best port of
    the map.
  */
  method NewSinkSource(ports: Option<seq<Port>>, name: Option<string>) returns (r: Option<Port>)
    ensures r.Some? <==> NeedsOverride(ports, name)
    ensures r.Some? ==> r == FindBest(ports.value) && r.value in ports.value
  {
    if ports.None? {
      return None;
    }
    var portMap := ports.value;
    var p: Option<Port> := None;
    if name.Some? {
      p := LookupPort(portMap, name.value);
    }
    if p.None? {
      ghost var scores := PortScores(portMap);
      var best: Option<nat> := None;
      var i := 0;
      while i < |portMap|
        invariant 0 <= i <= |portMap|
        invariant best == Best(scores[..i])
      {
        PrefixStep(scores, i);
        if best.None? || portMap[i].priority > portMap[best.value].priority {
          best := Some(i);
        }
        i := i + 1;
      }
      assert scores[..i] == scores;
      p := PortAt(portMap, best);
    }
    assert p == InitialCandidate(portMap, name);
    if p.None? {
      return None;
    }
    if p.value.available != No {
      return None;
    }
    r := FindBest(portMap);
    assert r.Some?;
  }

  /** The proposed port after the policy's choice: overwritten only when the policy chose one. */
  ghost function DeviceNewPort(ports: Option<seq<Port>>, name: Option<string>): Option<string> {
    if NeedsOverride(ports, name)
    then Some(FindBest(ports.value).value.name)
    else name
  }

  /** The host's proposal for a sink or a source being created. */
  class DeviceNewData {
    var name: string
    var ports: Option<seq<Port>>
    var activePort: Option<string>

    /** The host's setter of the proposed port. */
    method SetPort(portName: string)
      modifies this`activePort
      ensures activePort == Some(portName)
    {
      activePort := Some(portName);
    }
  }

  /** The handler for a sink or a source being created (the two handlers are identical). */
  method DeviceNewHookCallback(data: DeviceNewData)
    modifies data`activePort
    ensures data.activePort == DeviceNewPort(data.ports, old(data.activePort))
  {
    var p := NewSinkSource(data.ports, data.activePort);
    if p.Some? {
      data.SetPort(p.value.name);
    }
  }

  // ---------------------------------------------------------------------
  // What the suggestions achieve
  // ---------------------------------------------------------------------

  /**
    A proposal whose profile has a usable port is kept; otherwise, when some
    profile qualifies, the card settles on a profile with a port not NO, the
    first qualifying one of maximal priority, and the choice is not saved.
  */
  lemma CardNewSettlesOnUsableProfile(profiles: seq<Profile>, ports: seq<Port>, active: Option<string>, save: bool)
    ensures var (chosen, saved) := CardNewProfile(profiles, ports, active, save);
      && (active.Some? && ProfileContainsAvailablePorts(active.value, ports) ==> chosen == active && saved == save)
      && ((exists i | 0 <= i < |profiles| ::
             profiles[i].available != No && ProfileContainsAvailablePorts(profiles[i].name, ports))
          ==> chosen.Some? && ProfileContainsAvailablePorts(chosen.value, ports))
      && ((chosen, saved) != (active, save) ==>
            && !saved
            && exists k | 0 <= k < |profiles| && IsFirstBest(UsableProfileScores(profiles, ports), k) ::
                 chosen == Some(profiles[k].name))
  {
    var scores := UsableProfileScores(profiles, ports);
    BestChoosesBest(scores);
    if exists i | 0 <= i < |profiles| ::
         profiles[i].available != No && ProfileContainsAvailablePorts(profiles[i].name, ports) {
      var i :| 0 <= i < |profiles| &&
        profiles[i].available != No && ProfileContainsAvailablePorts(profiles[i].name, ports);
      assert scores[i].Some?;
    }
  }

  /**
    Under the assumed rule of the host's best-port search, a new sink or
    source whose port map has a port not NO starts on such a port, whatever
    was proposed.
  */
  lemma NewDeviceStartsOnAvailablePort(ports: seq<Port>, name: Option<string>, q: Port)
    requires UniquePortNames(ports)
    requires q in ports && q.available != No
    ensures InitialCandidate(ports, DeviceNewPort(Some(ports), name)).value.available != No
  {
    if InitialCandidate(ports, name).value.available == No {
      var best := FindBest(ports).value;
      FindBestPrefersAvailable(ports, q);
      LookupPortFindsMember(ports, best);
      assert DeviceNewPort(Some(ports), name) == Some(best.name);
    }
  }
}
