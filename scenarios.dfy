/** Worked examples of the policy on small cards. */
module Scenarios {
  import opened Wrappers
  import opened DevicePort
  import opened SwitchOnPortAvailable

  const ANALOG := Profile("analog", 1, 1, 2, 2, 1, Unknown)
  const HDMI := Profile("hdmi", 1, 1, 8, 2, 2, Unknown)
  const ANALOG_OUT_GONE := Port("analog-output", Output, 10, No, [ANALOG])
  const ANALOG_OUT_PRESENT := ANALOG_OUT_GONE.(available := Yes)
  const HDMI_OUT := Port("hdmi-output", Output, 5, Yes, [HDMI])
  const HDMI_SINK := Device("hdmi-sink", [HDMI_OUT], None)

  /** The host accepts the HDMI profile, when not asked to save it, and builds one HDMI sink for it. */
  function HdmiHost(p: Profile, save: bool): ProfileSwitch {
    if p.name == "hdmi" && !save then Applied([HDMI_SINK], []) else Rejected
  }

  function AnalogCard(analogOut: Port): CardState {
    CardState([ANALOG, HDMI], [analogOut, HDMI_OUT], ANALOG,
      [Device("analog-sink", [analogOut], Some(analogOut))], [])
  }

  /** HDMI becomes available while the analog sink's port is NO: the card switches to HDMI and uses the port. */
  lemma ScenarioSwitchToHdmi()
    ensures var r := AfterPortAvailable(AnalogCard(ANALOG_OUT_GONE), HDMI_OUT, HdmiHost);
      && WellFormed(AnalogCard(ANALOG_OUT_GONE))
      && r.activeProfile == HDMI && r.sinks == [HDMI_SINK.(activePort := Some(HDMI_OUT))]
  {
  }

  /** HDMI becomes available while the analog sink's port is still YES: nothing changes. */
  lemma ScenarioAnalogKept()
    ensures WellFormed(AnalogCard(ANALOG_OUT_PRESENT))
    ensures AfterPortAvailable(AnalogCard(ANALOG_OUT_PRESENT), HDMI_OUT, HdmiHost) == AnalogCard(ANALOG_OUT_PRESENT)
  {
  }

  const HEADSET := Profile("headset", 0, 1, 0, 1, 3, Unknown)
  const HEADSET_MIC := Port("headset-mic", Input, 5, Yes, [HEADSET])

  /** The analog card with a headset profile, its microphone port and a capture device exposing it. */
  function HeadsetCard(): CardState {
    CardState([ANALOG, HDMI, HEADSET], [ANALOG_OUT_PRESENT, HDMI_OUT, HEADSET_MIC], ANALOG,
      [Device("analog-sink", [ANALOG_OUT_PRESENT], Some(ANALOG_OUT_PRESENT))],
      [Device("mic", [HEADSET_MIC], None)])
  }

  /** A headset microphone appears but its only profile would drop the playback side: nothing changes. */
  lemma ScenarioIncompatibleMicrophone()
    ensures WellFormed(HeadsetCard())
    ensures AfterPortAvailable(HeadsetCard(), HEADSET_MIC, HdmiHost) == HeadsetCard()
  {
  }

  const HEADPHONES := Port("headphones", Output, 2, No, [ANALOG])
  const LINE_OUT := Port("line-out", Output, 1, Yes, [ANALOG])
  const SPEAKER := Port("speaker", Output, 3, No, [ANALOG])

  /** The active headphones go away: the sink moves to line-out, the only port not NO, ahead of the speaker. */
  lemma ScenarioFallBackToLineOut()
    ensures var sink := Device("analog-sink", [SPEAKER, HEADPHONES, LINE_OUT], Some(HEADPHONES));
      var s := CardState([ANALOG], [SPEAKER, HEADPHONES, LINE_OUT], ANALOG, [sink], []);
      && WellFormed(s)
      && AfterPortAvailable(s, HEADPHONES, HdmiHost).sinks == [sink.(activePort := Some(LINE_OUT))]
  {
    var ports := [SPEAKER, HEADPHONES, LINE_OUT];
    var sink := Device("analog-sink", ports, Some(HEADPHONES));
    var s := CardState([ANALOG], ports, ANALOG, [sink], []);
    assert LookupPort(ports, HEADPHONES.name) == Some(HEADPHONES);
    assert ExposingSink(s, HEADPHONES) == Some(0);
    assert IsActivePort(s, HEADPHONES);
    assert AvailablePortScores(ports) == [None, None, Some(1)];
    assert FindBest(ports) == Some(LINE_OUT);
  }
}
