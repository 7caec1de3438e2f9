/**
 * The intrusion system's alarm control panel in the current integration: a
 * prioritised derivation of one panel state from the alarm state, the arming
 * state and the active profile, and a one-to-one forwarding of panel
 * commands to intrusion system calls. No code is ever asked for.
 */
module CustomAlarm {
  import opened Wrappers

  /** Home Assistant's alarm panel states that these panels report. */
  datatype PanelState = Triggered | Pending | Arming | Disarmed | ArmedAway | ArmedHome | ArmedCustomBypass

  datatype AlarmState = AlarmOff | PreAlarm | AlarmOn | AlarmMuted | UnknownAlarm

  /** The intrusion system's arming state; any other value the controller may send is kept by name. */
  datatype ArmingState = SystemArming | SystemDisarmed | SystemArmed | OtherArming(name: string)

  /** The active configuration profile; a profile the panel does not know is kept by its id. */
  datatype Profile = FullProtection | PartialProtection | CustomProtection | OtherProfile(id: string)

  /** The fields of the intrusion system the panel reads. */
  datatype IntrusionSystem = IntrusionSystem(
    alarmState: AlarmState,
    armingState: ArmingState,
    profile: Profile,
    systemAvailability: bool)

  datatype PanelCommand = DisarmCommand | ArmAwayCommand | ArmHomeCommand | ArmCustomBypassCommand | MuteCommand

  /** The intrusion system calls the panel forwards to. */
  datatype SystemCall = Disarm | ArmFullProtection | ArmPartialProtection | ArmIndividualProtection | Mute

  datatype Feature = ArmAwayFeature | ArmHomeFeature | ArmCustomBypassFeature

  /** What the armed state reports for each profile: one state per known profile, none for the rest. */
  function ArmedState(p: Profile): (s: Option<PanelState>)
    ensures s.None? <==> p.OtherProfile?
    ensures s == Some(ArmedAway) <==> p == FullProtection
    ensures s == Some(ArmedHome) <==> p == PartialProtection
    ensures s == Some(ArmedCustomBypass) <==> p == CustomProtection
  {
    match p
    case FullProtection => Some(ArmedAway)
    case PartialProtection => Some(ArmedHome)
    case CustomProtection => Some(ArmedCustomBypass)
    case OtherProfile(_) => None
  }

  /**
   * The panel state. An active alarm outranks everything, a pre-alarm comes
   * next, then arming and disarmed; an armed system reports its profile.
   */
  function State(d: IntrusionSystem): (s: Option<PanelState>)
    ensures d.alarmState == AlarmOn ==> s == Some(Triggered)
    ensures s == Some(Triggered) <==> d.alarmState == AlarmOn
    ensures s == Some(Pending) <==> d.alarmState == PreAlarm
    ensures s == Some(Arming) <==> d.alarmState !in {AlarmOn, PreAlarm} && d.armingState == SystemArming
    ensures s == Some(Disarmed) <==> d.alarmState !in {AlarmOn, PreAlarm} && d.armingState == SystemDisarmed
    ensures d.alarmState !in {AlarmOn, PreAlarm} && d.armingState == SystemArmed ==> s == ArmedState(d.profile)
    ensures s.None? <==>
      d.alarmState !in {AlarmOn, PreAlarm}
      && (d.armingState.OtherArming? || (d.armingState == SystemArmed && d.profile.OtherProfile?))
  {
    if d.alarmState == AlarmOn then Some(Triggered)
    else if d.alarmState == PreAlarm then Some(Pending)
    else if d.armingState == SystemArming then Some(Arming)
    else if d.armingState == SystemDisarmed then Some(Disarmed)
    else if d.armingState == SystemArmed then ArmedState(d.profile)
    else None
  }

  /** Two armed systems without an alarm report the same state only for the same known profile. */
  lemma ArmedStateInjective(d1: IntrusionSystem, d2: IntrusionSystem)
    requires d1.alarmState !in {AlarmOn, PreAlarm} && d1.armingState == SystemArmed
    requires d2.alarmState !in {AlarmOn, PreAlarm} && d2.armingState == SystemArmed
    requires State(d1).Some? && State(d1) == State(d2)
    ensures d1.profile == d2.profile
  {
    assert State(d1) == ArmedState(d1.profile);
    assert State(d2) == ArmedState(d2.profile);
  }

  /** The one call each command makes; the code, never required, plays no part. */
  function Call(c: PanelCommand, code: Option<string>): (call: SystemCall)
    ensures c == DisarmCommand <==> call == Disarm
    ensures c == ArmAwayCommand <==> call == ArmFullProtection
    ensures c == ArmHomeCommand <==> call == ArmPartialProtection
    ensures c == ArmCustomBypassCommand <==> call == ArmIndividualProtection
    ensures c == MuteCommand <==> call == Mute
  {
    match c
    case DisarmCommand => Disarm
    case ArmAwayCommand => ArmFullProtection
    case ArmHomeCommand => ArmPartialProtection
    case ArmCustomBypassCommand => ArmIndividualProtection
    case MuteCommand => Mute
  }

  /** Distinct commands make distinct calls, whatever codes they carry. */
  lemma CallInjective(c1: PanelCommand, c2: PanelCommand, code1: Option<string>, code2: Option<string>)
    requires Call(c1, code1) == Call(c2, code2)
    ensures c1 == c2
  {
  }

  /** No code format: the panel asks for no code. */
  const CODE_FORMAT: Option<string> := None
  /** Arming without a code. */
  const CODE_ARM_REQUIRED: bool := false

  /** Arm away, arm home and arm custom bypass: every kind of feature is offered. */
  function SupportedFeatures(): (fs: set<Feature>)
    ensures ArmAwayFeature in fs && ArmHomeFeature in fs && ArmCustomBypassFeature in fs
  {
    {ArmAwayFeature, ArmHomeFeature, ArmCustomBypassFeature}
  }

  /** `available` is the system availability flag. */
  function Available(d: IntrusionSystem): (available: bool)
    ensures available <==> d.systemAvailability
  {
    d.systemAvailability
  }
}
