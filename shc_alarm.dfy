/**
 * The intrusion detection panel of the `bosch_shc` generation: the panel
 * state comes from the control service's state and profile alone (there is
 * no alarm or pre-alarm state), and four commands forward to one call each.
 */
module ShcAlarm {
  import opened Wrappers
  import CustomAlarm

  type PanelState = CustomAlarm.PanelState

  /** The intrusion detection control service's state; others are kept by name. */
  datatype ControlState = SystemArming | SystemDisarmed | SystemArmed | OtherState(name: string)

  datatype Profile = FullProtection | PartialProtection | CustomProtection | OtherProfile(id: string)

  /** The fields of the intrusion detection system the panel reads. */
  datatype IntrusionDetectionSystem = IntrusionDetectionSystem(alarmState: ControlState, alarmProfile: Profile)

  datatype PanelCommand = DisarmCommand | ArmAwayCommand | ArmHomeCommand | TriggerCommand

  datatype SystemCall = Disarm | Arm | PartialArm | Trigger

  datatype Feature = ArmAwayFeature | ArmHomeFeature | ArmCustomBypassFeature

  /**
   * ARMING and DISARMED from the control state; an armed system reports its
   * profile; anything else, and an armed system with an unknown profile,
   * reports no state.
   */
  function State(d: IntrusionDetectionSystem): (s: Option<PanelState>)
    ensures s == Some(CustomAlarm.Arming) <==> d.alarmState == SystemArming
    ensures s == Some(CustomAlarm.Disarmed) <==> d.alarmState == SystemDisarmed
    ensures s == Some(CustomAlarm.ArmedAway) <==> d.alarmState == SystemArmed && d.alarmProfile == FullProtection
    ensures s == Some(CustomAlarm.ArmedHome) <==> d.alarmState == SystemArmed && d.alarmProfile == PartialProtection
    ensures s == Some(CustomAlarm.ArmedCustomBypass) <==> d.alarmState == SystemArmed && d.alarmProfile == CustomProtection
    ensures s.None? <==> d.alarmState.OtherState? || (d.alarmState == SystemArmed && d.alarmProfile.OtherProfile?)
    ensures s != Some(CustomAlarm.Triggered) && s != Some(CustomAlarm.Pending)
  {
    if d.alarmState == SystemArming then Some(CustomAlarm.Arming)
    else if d.alarmState == SystemDisarmed then Some(CustomAlarm.Disarmed)
    else if d.alarmState == SystemArmed then
      if d.alarmProfile == FullProtection then Some(CustomAlarm.ArmedAway)
      else if d.alarmProfile == PartialProtection then Some(CustomAlarm.ArmedHome)
      else if d.alarmProfile == CustomProtection then Some(CustomAlarm.ArmedCustomBypass)
      else None
    else None
  }

  /** The one call each command makes; the code, never required, plays no part. */
  function Call(c: PanelCommand, code: Option<string>): (call: SystemCall)
    ensures c == DisarmCommand <==> call == Disarm
    ensures c == ArmAwayCommand <==> call == Arm
    ensures c == ArmHomeCommand <==> call == PartialArm
    ensures c == TriggerCommand <==> call == Trigger
  {
    match c
    case DisarmCommand => Disarm
    case ArmAwayCommand => Arm
    case ArmHomeCommand => PartialArm
    case TriggerCommand => Trigger
  }

  /** Distinct commands make distinct calls, whatever codes they carry. */
  lemma CallInjective(c1: PanelCommand, c2: PanelCommand, code1: Option<string>, code2: Option<string>)
    requires Call(c1, code1) == Call(c2, code2)
    ensures c1 == c2
  {
  }

  /** Arm away and arm home only: custom bypass is reported but never offered. */
  function SupportedFeatures(): (fs: set<Feature>)
    ensures ArmAwayFeature in fs && ArmHomeFeature in fs && ArmCustomBypassFeature !in fs
  {
    {ArmAwayFeature, ArmHomeFeature}
  }
}
