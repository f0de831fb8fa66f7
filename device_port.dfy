/**
  The card, profile, port and device entities the policy reads, as values.
  Pointer identity between ports (or between profiles) is value equality:
  inside one hashmap names are unique, so equal names and equal contents
  single out one object.
*/
module DevicePort {
  import opened Wrappers
  import opened Selection

  /** The tri-state availability of a port or a profile. */
  datatype Available = Yes | No | Unknown

  datatype Direction = Output | Input

  /** A card profile with its declared capability counts. */
  datatype Profile = Profile(
    name: string,
    nSinks: nat,
    nSources: nat,
    maxSinkChannels: nat,
    maxSourceChannels: nat,
    priority: nat,
    available: Available)

  /** A connector of a card; `profiles` is its hashmap of the profiles it belongs to, keyed by name. */
  datatype Port = Port(
    name: string,
    direction: Direction,
    priority: nat,
    available: Available,
    profiles: seq<Profile>)

  /** A sink (playback) or source (capture): its hashmap of ports and its active port, if any. */
  datatype Device = Device(name: string, ports: seq<Port>, activePort: Option<Port>)

  /** The hashmap get of a port by name: the first entry with that key. */
  function LookupPort(ports: seq<Port>, name: string): (r: Option<Port>)
    ensures r.Some? ==> r.value in ports && r.value.name == name
    ensures r.None? ==> forall i | 0 <= i < |ports| :: ports[i].name != name
  {
    if ports == [] then None
    else if ports[0].name == name then Some(ports[0])
    else LookupPort(ports[1..], name)
  }

  /** The hashmap get of a profile by name: the first entry with that key. */
  function LookupProfile(profiles: seq<Profile>, name: string): (r: Option<Profile>)
    ensures r.Some? ==> r.value in profiles && r.value.name == name
    ensures r.None? ==> forall i | 0 <= i < |profiles| :: profiles[i].name != name
  {
    if profiles == [] then None
    else if profiles[0].name == name then Some(profiles[0])
    else LookupProfile(profiles[1..], name)
  }

  /** A hashmap keyed by profile name holds each key once. */
  ghost predicate UniqueProfileNames(profiles: seq<Profile>) {
    forall i, j | 0 <= i < j < |profiles| :: profiles[i].name != profiles[j].name
  }

  /** With unique keys, looking a member up by its own name finds that member. */
  lemma LookupProfileFindsMember(profiles: seq<Profile>, p: Profile)
    requires UniqueProfileNames(profiles)
    requires p in profiles
    ensures LookupProfile(profiles, p.name) == Some(p)
  {
  }

  /** A hashmap keyed by port name holds each key once. */
  ghost predicate UniquePortNames(ports: seq<Port>) {
    forall i, j | 0 <= i < j < |ports| :: ports[i].name != ports[j].name
  }

  /** With unique keys, looking a port up by its own name finds that port. */
  lemma LookupPortFindsMember(ports: seq<Port>, p: Port)
    requires UniquePortNames(ports)
    requires p in ports
    ensures LookupPort(ports, p.name) == Some(p)
  {
  }

  /** Scores of a port map when every port is a candidate. */
  function PortScores(ports: seq<Port>): seq<Option<nat>> {
    seq(|ports|, i requires 0 <= i < |ports| => Some(ports[i].priority))
  }

  /** Scores of a port map when only ports whose availability is not NO are candidates. */
  function AvailablePortScores(ports: seq<Port>): seq<Option<nat>> {
    seq(|ports|, i requires 0 <= i < |ports| =>
      if ports[i].available != No then Some(ports[i].priority) else None)
  }

  /** The port at a chosen position, if a position was chosen. */
  function PortAt(ports: seq<Port>, k: Option<nat>): Option<Port>
    requires k.Some? ==> k.value < |ports|
  {
    match k
    case None => None
    case Some(i) => Some(ports[i])
  }

  /**
    The best port of a port map, in the rule of the host's device-port code:
    the highest-priority port whose availability is not NO, and when every
    port is NO, the highest-priority port. The host's code is not part of
    this model; the rule is an assumption, and the policy's own properties
    rely only on the first two postconditions.
  */
  function FindBest(ports: seq<Port>): (r: Option<Port>)
    ensures r.Some? <==> ports != []
    ensures r.Some? ==> r.value in ports
  {
    BestChoosesBest(PortScores(ports));
    var available := Best(AvailablePortScores(ports));
    if available.Some? then PortAt(ports, available) else PortAt(ports, Best(PortScores(ports)))
  }

  /** Under the assumed rule, a map with some port that is not NO yields such a port, of maximal priority. */
  lemma FindBestPrefersAvailable(ports: seq<Port>, q: Port)
    requires q in ports && q.available != No
    ensures FindBest(ports).Some?
    ensures FindBest(ports).value.available != No
    ensures FindBest(ports).value.priority >= q.priority
  {
    var s := AvailablePortScores(ports);
    BestChoosesBest(s);
    var k :| 0 <= k < |ports| && ports[k] == q;
    assert s[k].Some?;
  }
}
