# Automatic port and profile switching, modelled in Dafny

This project models PulseAudio's `module-switch-on-port-available`.
The module watches the availability of a card's ports (jacks and connectors).
Availability is one of YES, NO or UNKNOWN.
When a port changes, the module may switch the card's active profile.
It may also switch the active port of the sink (playback) or source (capture) that exposes the port.
It also corrects the proposals the host makes for new cards, sinks and sources.
When it attaches, it replays the ports that are already NO.

## Layout

- `wrappers.dfy`: `Option`, the model's stand-in for a pointer that may be NULL.
- `selection.dfy`: every choice in the module is one loop.
  The loop keeps the first candidate of strictly greater priority, so ties go to the first seen.
  `Best` is that loop's answer over a sequence of scores (`None` = filtered out).
  `BestChoosesBest` proves the answer is the first candidate of maximal priority, or nothing when no candidate passes.
- `device_port.dfy`: profiles, ports and devices (sinks and sources) as values.
  It also holds the hashmap lookups and the best-port search of the host.
- `switch_on_port_available.dfy`: the availability handler and the replay at attach time.
  Each exists as a function on a value snapshot of the card (`AfterPortAvailable`, `ReplayUnavailable`).
  Each also exists as imperative code on a `Card` object (`PortAvailableHookCallback`, `HandleAllUnavailable`).
  The code is proved to end in exactly the state the function gives.
- `switch_properties.dfy`: the properties of the availability handler, as lemmas on the value model.
- `new_device_hooks.dfy`: the handlers for new cards, sinks and sources, with their properties.
- `scenarios.dfy`: small worked examples.

Modelling choices:

- Hashmaps and idxsets are sequences, and iteration order is sequence order.
  That order decides every tie.
- Pointer identity of ports and profiles is value equality.
  Unique keys are assumed only where a proof needs them.
  `WellFormed` requires them for the card's port map (`UniquePortNames`) and for each port's profile map (`UniqueProfileNames`).
  `NewDeviceStartsOnAvailablePort` requires them of the new device's port map (`UniquePortNames`).
  Nothing requires them of the card's profile map or of a sink's or source's port map.
- `pa_card_set_profile` is the `Host` parameter: a function from the requested profile and its save flag to `Rejected` or `Applied(sinks, sources)`.
  `Applied` carries the sinks and sources the host rebuilds for the new profile.
  The policy always passes `false` as the save flag (line 101), so its corrective switches are never stored as the user's choice.
- `pa_sink_set_port` and `pa_source_set_port` assign the device's active port.
- The card's invariant (`WellFormed`) says four things: the active profile is a profile of the card, the card's port map has unique keys, every port's profile map has unique keys, and that map holds only profiles of the card.
  The handler keeps this invariant.

The model follows the code in these points, which a reader might expect otherwise:

- A profile is good for an output port only if every sink that has an active port has it at NO (`src/modules/module-switch-on-port-available.c:44-50`).
  So an active sink port that is UNKNOWN also blocks the switch, not only one that is YES.
- The profile search runs over the port's own profiles (line 73), not over all profiles of the card.
- When an active port becomes NO, the device moves to the host's best port only if that port is not NO (lines 185 and 195).
  The result is the same as a search that returns nothing when every port is NO.

## Model

| member | source | states |
|---|---|---|
| Selection.Best | src/modules/module-switch-on-port-available.c:73-94 | the kept index, if any, points at a candidate that passed the filter |
| Selection.BestChoosesBest | src/modules/module-switch-on-port-available.c:73-94 | the loop's answer is the first candidate of maximal priority, and it is nothing exactly when no candidate passes the filter |
| Selection.ChoiceIsUnique | src/modules/module-switch-on-port-available.c:265-276 | "first of maximal priority, or nothing if none qualifies" determines the answer uniquely |
| Selection.ChoosesBestIsBest | src/modules/module-switch-on-port-available.c:231-233 | an answer is the first of maximal priority (or nothing when none qualifies) exactly when it is the loop's answer |
| DevicePort.LookupPort | src/modules/module-switch-on-port-available.c:117 | a hashmap get by name returns an entry with that name, and returns nothing only when no entry has it |
| DevicePort.LookupProfile | src/modules/module-switch-on-port-available.c:155 | same, for a port's profile map |
| DevicePort.LookupProfileFindsMember | src/modules/module-switch-on-port-available.c:169 | with unique keys, looking a profile up by its own name finds that profile; this is why the assertion after a successful switch holds |
| DevicePort.LookupPortFindsMember | src/modules/module-switch-on-port-available.c:299-301 | with unique keys, looking a port up by its own name finds that port |
| DevicePort.FindBest | src/modules/module-switch-on-port-available.c:183-185 | the host's best port exists exactly for a non-empty map and is a member of it (the assertion at line 239) |
| DevicePort.FindBestPrefersAvailable | src/modules/module-switch-on-port-available.c:193-196 | under the assumed rule, a map with a port that is not NO yields a port that is not NO, of at least that priority |
| SwitchOnPortAvailable.ActiveSinkPortsUnavailable | src/modules/module-switch-on-port-available.c:44-50 | true exactly when every sink that has an active port has it at NO |
| SwitchOnPortAvailable.ProfileGoodForOutput | src/modules/module-switch-on-port-available.c:31-53 | true exactly when the candidate keeps the active profile's source count and source channels and no sink's active port is other than NO |
| SwitchOnPortAvailable.ProfileGoodForInput | src/modules/module-switch-on-port-available.c:55-65 | true exactly when the candidate keeps the active profile's sink count and sink channels |
| SwitchOnPortAvailable.SelectProfile | src/modules/module-switch-on-port-available.c:73-94 | returns the position of the first profile of maximal priority among the port's profiles that are good for its direction, or nothing when none is |
| SwitchOnPortAvailable.FirstExposing | src/modules/module-switch-on-port-available.c:114-126 | the result is the first device whose port map holds this very port under its name; nothing means no device does |
| SwitchOnPortAvailable.FindExposing | src/modules/module-switch-on-port-available.c:116-118 | the loop stops at the first device exposing the port, or reports that none does |
| SwitchOnPortAvailable.FindSinkAndSource | src/modules/module-switch-on-port-available.c:109-130 | an output port is looked up only among sinks and an input port only among sources; the other result is always absent |
| SwitchOnPortAvailable.Card.SetProfile | src/modules/module-switch-on-port-available.c:101-104 | succeeds exactly when the host accepts the profile with the given save flag; then the active profile is the requested one and the devices are the rebuilt ones, else nothing changes |
| SwitchOnPortAvailable.Card.SetSinkPort | src/modules/module-switch-on-port-available.c:177-178 | only that sink's active port changes, to the given port |
| SwitchOnPortAvailable.Card.SetSourcePort | src/modules/module-switch-on-port-available.c:175-176 | only that source's active port changes, to the given port |
| SwitchOnPortAvailable.Card.TryToSwitchProfile | src/modules/module-switch-on-port-available.c:67-107 | fails without touching the card when no profile qualifies or the host rejects the best one; else the card is switched to the best one, requested with the save flag off |
| SwitchOnPortAvailable.PortAvailableHookCallback | src/modules/module-switch-on-port-available.c:132-204 | keeps the card invariant and leaves the card exactly in the state `AfterPortAvailable` describes; with no card it changes nothing |
| SwitchOnPortAvailable.HandleAllUnavailable | src/modules/module-switch-on-port-available.c:206-219 | every card ends as if the handler had run for each of its NO ports in iteration order, and keeps its invariant |
| SwitchProperties.EarlyOutsChangeNothing | src/modules/module-switch-on-port-available.c:138-163 | UNKNOWN, a card without sinks and sources, a NO port that is not active and a YES port that is already active leave the card unchanged |
| SwitchProperties.AfterPortAvailableIsIdempotent | src/modules/module-switch-on-port-available.c:138-201 | delivering the same event a second time changes nothing |
| SwitchProperties.PortBecomingAvailable | src/modules/module-switch-on-port-available.c:161-178 | a YES port that is not active ends with its profile active and its device using it, or, when no profile qualifies or the host rejects it, nothing changes at all; when its profile is already active, no switch is attempted and only the exposing device's active port changes; after a switch the sinks and sources are the ones the host rebuilt (line 101), of which only the device exposing the port changes, to that port (lines 175-178); profiles and ports never change |
| SwitchProperties.ProfileSwitchPicksBest | src/modules/module-switch-on-port-available.c:73-101 | the active profile changes only for a YES port, onto the first good profile of maximal priority among the port's own profiles, and only when the host accepted it as a request not to be saved |
| SwitchProperties.OtherDirectionPreserved | src/modules/module-switch-on-port-available.c:31-65 | a switch for an output port keeps the source count and source channels and needs every active sink port at NO; one for an input port keeps the sink count and sink channels |
| SwitchProperties.PortBecomingUnavailable | src/modules/module-switch-on-port-available.c:181-201 | a NO port never changes the profile; only the device whose active port it was may change, only to the host's best port, and only when that port is not NO |
| SwitchProperties.LossPicksHighestAvailableSibling | src/modules/module-switch-on-port-available.c:181-190 | under the assumed best-port rule, the device moves to a port that is not NO, of maximal priority among those, however NO ports are ranked |
| SwitchProperties.ReplayKeepsProfile | src/modules/module-switch-on-port-available.c:206-219 | the replay at attach time never changes a card's active profile, profiles or ports |
| SwitchProperties.ReplayIgnoresHost | src/modules/module-switch-on-port-available.c:210-217 | the replay never asks the host for a profile switch |
| NewDeviceHooks.ProfileContainsAvailablePorts | src/modules/module-switch-on-port-available.c:243-256 | true exactly when some port that is not NO has the named profile in its profile map |
| NewDeviceHooks.FindBestProfileWithAvailablePorts | src/modules/module-switch-on-port-available.c:258-277 | returns the first profile of maximal priority among those not NO that contain a port not NO, or nothing when there is none |
| NewDeviceHooks.CardNewData.SetProfile | src/modules/module-switch-on-port-available.c:288 | the proposed profile becomes the given name |
| NewDeviceHooks.CardNewHookCallback | src/modules/module-switch-on-port-available.c:279-293 | leaves the proposal and the save flag as `CardNewProfile` says, changing nothing else |
| NewDeviceHooks.CardNewSettlesOnUsableProfile | src/modules/module-switch-on-port-available.c:279-293 | a proposal with a usable port is kept; else, when some profile qualifies, the card settles on one with a port not NO; any change is to the first best qualifying profile and clears the save flag |
| NewDeviceHooks.InitialCandidate | src/modules/module-switch-on-port-available.c:228-233 | the candidate is the named port when the map has it, and otherwise the first port of maximal priority; it exists exactly for a non-empty map and is a member of it |
| NewDeviceHooks.NewSinkSource | src/modules/module-switch-on-port-available.c:221-241 | returns a port exactly when the map is present, non-empty and its candidate is NO, and then returns the host's best port, a member of the map |
| NewDeviceHooks.DeviceNewData.SetPort | src/modules/module-switch-on-port-available.c:301 | the proposed port becomes the given name |
| NewDeviceHooks.DeviceNewHookCallback | src/modules/module-switch-on-port-available.c:295-315 | overwrites the proposed port only when the choice yields a port, as `DeviceNewPort` says |
| NewDeviceHooks.NewDeviceStartsOnAvailablePort | src/modules/module-switch-on-port-available.c:221-241 | under the assumed best-port rule, a new device whose map has a port not NO starts on such a port |
| Scenarios.ScenarioSwitchToHdmi | src/modules/module-switch-on-port-available.c:161-178 | HDMI becoming YES while the analog sink's port is NO switches the card to HDMI and its sink to the HDMI port |
| Scenarios.ScenarioAnalogKept | src/modules/module-switch-on-port-available.c:43-50 | HDMI becoming YES while the analog sink's port is YES changes nothing |
| Scenarios.ScenarioIncompatibleMicrophone | src/modules/module-switch-on-port-available.c:55-65 | on a well-formed card, a microphone whose only profile changes the playback side changes nothing |
| Scenarios.ScenarioFallBackToLineOut | src/modules/module-switch-on-port-available.c:181-186 | losing the active headphones moves the sink to line-out, the only port not NO, ahead of a higher-priority speaker that is NO |

`AfterPortAvailable`, `ReplayUnavailable`, `CardNewProfile`, `NeedsOverride` and `DeviceNewPort` are the value-level definitions the rows above are stated with.
`sink_new_hook_callback` and `source_new_hook_callback` are the same code on two structures, so both are `DeviceNewHookCallback` on one `DeviceNewData` class.

## Left out

- `src/modules/bluetooth/module-bluetooth-discover.c` is not part of this model: it loads and unloads other modules and makes no decisions.
- `pa__init`: the registration of the four handlers and their order against the device-restore module is host configuration; only its call of `handle_all_unavailable` is modelled.
- Logging (`pa_log_debug`, `pa_log_warn`) and the unused `pa_core` and user-data arguments.
- Concurrency: the host calls the handlers one at a time on one thread, so there is nothing to model.
- How `pa_card_set_profile` rebuilds sinks and sources is not modelled; the host's answer is a parameter. A rebuild also fires this module's own sink-new and source-new handlers, and the model does not chain them.
- `pa_sink_set_port` and `pa_source_set_port` are plain assignments: moving streams, their `false` save flag (lines 176, 178, 186, 196) and a failure to find the name are not modelled. The model sets the port value directly; the code looks it up by name in the device's map, which yields the same port when keys are unique.
- DevicePort.FindBest: the host's device-port code is not part of this model. The handler lemmas rely only on "a member of a non-empty map". The rule "highest-priority port that is not NO, else highest-priority port, first seen on ties" is an assumption, used only by `FindBestPrefersAvailable`, `LossPicksHighestAvailableSibling`, `NewDeviceStartsOnAvailablePort` and `ScenarioFallBackToLineOut`.
- Only consistent snapshots stand for real cards. The copies of one port are not tied together by the invariant: those in the card's port map, in each device's port map and in each device's active port. In the code they are one object. A snapshot with a stale copy could treat an active port as inactive, which the code cannot do.
- The handlers' `PA_HOOK_OK` return value is always the same and is not modelled.
- Priorities and counts are unsigned 32-bit integers in the code and `nat` here; the code only compares them, so wrap-around never matters.
- A NULL port map for a new device is `None`. A NULL profile name for a new card is `None`. A port without a card is a null `Card?`.
