/**
 * The fixed tables of the historical replay script: the rename map from CSV
 * column to payload field and the per-field caster. Both tables list the same
 * 57 payload fields in the same order, so they are written here as functions
 * of one enumeration, Field, whose constructors follow that order.
 */
module ReplayFields {
  import opened Wrappers

  /** The payload fields of a replayed row, in rename-table order. */
  datatype Field =
    | Ts
    | MomentaryPowerConsumption
    | BatteryCellVoltage
    | LeftSafetyInterlock
    | LeftAutoPermission
    | LeftManualPermission
    | LeftCommandOn
    | LeftExecuted
    | LeftInProgress
    | LeftActualSpeed
    | PinUpSafetyInterlock
    | PinUpAutoPermission
    | RightSafetyInterlock
    | RightAutoPermission
    | RightManualPermission
    | RightCommandOn
    | RightActualSpeed
    | ManualModeActive
    | AutoModeActive
    | PlcFaultActive
    | PlcWarningActive
    | LedRgbStrip1LeftR
    | LedRgbStrip2RightR
    | LedRgbStrip1LeftG
    | LedRgbStrip2RightG
    | LedRgbStrip1LeftB
    | LedRgbStrip2RightB
    | LedStatusActiveMode
    | GoToDestinationId
    | GoToResult
    | PauseResult
    | ResumeDestinationId
    | ResumeResult
    | AbortResult
    | NaturalNavigationStatus
    | ErrorStatus
    | NaturalNavigationState
    | NnXCoordinate
    | NnYCoordinate
    | NnHeading
    | NnPositionConfidence
    | NnSpeed
    | NnGoingToId
    | NnTargetReached
    | NnCurrentSegment
    | MomentaryFreqLeftEncoder
    | MomentaryFreqRightEncoder
    | CumulativeDistanceLeft
    | CumulativeDistanceRight
    | SafetyCircuitClosed
    | ScannersMuted
    | FrontBumperTriggered
    | FrontScannerSafetyZoneViolated
    | RearScannerSafetyZoneViolated
    | FrontScannerWarningZoneViolated
    | RearScannerWarningZoneViolated
    | ScannersActiveZones

  /** Number of fields, the size of both tables. */
  const FieldCount: nat := 57

  /** The payload key of a field (the rename table's target). */
  function Name(f: Field): string
  {
    match f
    case Ts => "ts"
    case MomentaryPowerConsumption => "momentary_power_consumption"
    case BatteryCellVoltage => "battery_cell_voltage"
    case LeftSafetyInterlock => "left_safety_interlock"
    case LeftAutoPermission => "left_auto_permission"
    case LeftManualPermission => "left_manual_permission"
    case LeftCommandOn => "left_command_on"
    case LeftExecuted => "left_executed"
    case LeftInProgress => "left_in_progress"
    case LeftActualSpeed => "left_actual_speed"
    case PinUpSafetyInterlock => "pin_up_safety_interlock"
    case PinUpAutoPermission => "pin_up_auto_permission"
    case RightSafetyInterlock => "right_safety_interlock"
    case RightAutoPermission => "right_auto_permission"
    case RightManualPermission => "right_manual_permission"
    case RightCommandOn => "right_command_on"
    case RightActualSpeed => "right_actual_speed"
    case ManualModeActive => "manual_mode_active"
    case AutoModeActive => "auto_mode_active"
    case PlcFaultActive => "plc_fault_active"
    case PlcWarningActive => "plc_warning_active"
    case LedRgbStrip1LeftR => "led_rgb_strip_1_left_r"
    case LedRgbStrip2RightR => "led_rgb_strip_2_right_r"
    case LedRgbStrip1LeftG => "led_rgb_strip_1_left_g"
    case LedRgbStrip2RightG => "led_rgb_strip_2_right_g"
    case LedRgbStrip1LeftB => "led_rgb_strip_1_left_b"
    case LedRgbStrip2RightB => "led_rgb_strip_2_right_b"
    case LedStatusActiveMode => "led_status_active_mode"
    case GoToDestinationId => "go_to_destination_id"
    case GoToResult => "go_to_result"
    case PauseResult => "pause_result"
    case ResumeDestinationId => "resume_destination_id"
    case ResumeResult => "resume_result"
    case AbortResult => "abort_result"
    case NaturalNavigationStatus => "natural_navigation_status"
    case ErrorStatus => "error_status"
    case NaturalNavigationState => "natural_navigation_state"
    case NnXCoordinate => "nn_x_coordinate"
    case NnYCoordinate => "nn_y_coordinate"
    case NnHeading => "nn_heading"
    case NnPositionConfidence => "nn_position_confidence"
    case NnSpeed => "nn_speed"
    case NnGoingToId => "nn_going_to_id"
    case NnTargetReached => "nn_target_reached"
    case NnCurrentSegment => "nn_current_segment"
    case MomentaryFreqLeftEncoder => "momentary_freq_left_encoder"
    case MomentaryFreqRightEncoder => "momentary_freq_right_encoder"
    case CumulativeDistanceLeft => "cumulative_distance_left"
    case CumulativeDistanceRight => "cumulative_distance_right"
    case SafetyCircuitClosed => "safety_circuit_closed"
    case ScannersMuted => "scanners_muted"
    case FrontBumperTriggered => "front_bumper_triggered"
    case FrontScannerSafetyZoneViolated => "front_scanner_safety_zone_violated"
    case RearScannerSafetyZoneViolated => "rear_scanner_safety_zone_violated"
    case FrontScannerWarningZoneViolated => "front_scanner_warning_zone_violated"
    case RearScannerWarningZoneViolated => "rear_scanner_warning_zone_violated"
    case ScannersActiveZones => "scanners_active_zones"
  }

  /** The CSV column a field is read from (the rename table's source). */
  function SourceColumn(f: Field): string
  {
    match f
    case Ts => "isoTimestamp"
    case MomentaryPowerConsumption => "FH.6000.[ENS] - Energy Signals.Momentary power consumption"
    case BatteryCellVoltage => "FH.6000.[ENS] - Energy Signals.Battery cell voltage"
    case LeftSafetyInterlock => "FH.6000.[G1LDS] GROUP 1 - LEFT DRIVE SIGNALS.Left drive activate - safety interlock"
    case LeftAutoPermission => "FH.6000.[G1LDS] GROUP 1 - LEFT DRIVE SIGNALS.Left drive activate - automatic permission"
    case LeftManualPermission => "FH.6000.[G1LDS] GROUP 1 - LEFT DRIVE SIGNALS.Left drive activate - manual permission"
    case LeftCommandOn => "FH.6000.[G1LDS] GROUP 1 - LEFT DRIVE SIGNALS.Left drive activate - command on"
    case LeftExecuted => "FH.6000.[G1LDS] GROUP 1 - LEFT DRIVE SIGNALS.Left drive activate - executed"
    case LeftInProgress => "FH.6000.[G1LDS] GROUP 1 - LEFT DRIVE SIGNALS.Left drive activate - in progress"
    case LeftActualSpeed => "FH.6000.[G1LDS] GROUP 1 - LEFT DRIVE SIGNALS.ActualSpeed_L"
    case PinUpSafetyInterlock => "FH.6000.[G2PAS] GROUP 2 - PIN ACTUATOR SIGNALS.Pin Up - safety interlock"
    case PinUpAutoPermission => "FH.6000.[G2PAS] GROUP 2 - PIN ACTUATOR SIGNALS.Pin Up - automatic permission"
    case RightSafetyInterlock => "FH.6000.[G2RDS] GROUP 2 - RIGHT DRIVE SIGNALS.Right drive activate - safety interlock"
    case RightAutoPermission => "FH.6000.[G2RDS] GROUP 2 - RIGHT DRIVE SIGNALS.Right drive activate - automatic permission"
    case RightManualPermission => "FH.6000.[G2RDS] GROUP 2 - RIGHT DRIVE SIGNALS.Right drive activate - manual permission"
    case RightCommandOn => "FH.6000.[G2RDS] GROUP 2 - RIGHT DRIVE SIGNALS.Right drive activate - command on"
    case RightActualSpeed => "FH.6000.[G2RDS] GROUP 2 - RIGHT DRIVE SIGNALS.ActualSpeed_R"
    case ManualModeActive => "FH.6000.[GS] GENERAL SIGNALS.Manual Mode active"
    case AutoModeActive => "FH.6000.[GS] GENERAL SIGNALS.Automatic Mode active"
    case PlcFaultActive => "FH.6000.[GS] GENERAL SIGNALS.PLC fault active"
    case PlcWarningActive => "FH.6000.[GS] GENERAL SIGNALS.PLC warning Active"
    case LedRgbStrip1LeftR => "FH.6000.[LED] LED STATUS.LED RGB Strip 1 left - R"
    case LedRgbStrip2RightR => "FH.6000.[LED] LED STATUS.LED RGB Strip 2 right - R"
    case LedRgbStrip1LeftG => "FH.6000.[LED] LED STATUS.LED RGB Strip 1 left - G"
    case LedRgbStrip2RightG => "FH.6000.[LED] LED STATUS.LED RGB Strip 2 right - G"
    case LedRgbStrip1LeftB => "FH.6000.[LED] LED STATUS.LED RGB Strip 1 left - B"
    case LedRgbStrip2RightB => "FH.6000.[LED] LED STATUS.LED RGB Strip 2 right - B"
    case LedStatusActiveMode => "FH.6000.[LED] LED STATUS.LED status - active mode"
    case GoToDestinationId => "FH.6000.[NNCF]3105 - Go to destination result.Destination ID"
    case GoToResult => "FH.6000.[NNCF]3105 - Go to destination result.Go to result"
    case PauseResult => "FH.6000.[NNCF]3106 - Pause drive result.Pause result"
    case ResumeDestinationId => "FH.6000.[NNCF]3107 - Resume drive result.Destination ID"
    case ResumeResult => "FH.6000.[NNCF]3107 - Resume drive result.Resume result"
    case AbortResult => "FH.6000.[NNCF]3108 - Abort drive result.Abort result"
    case NaturalNavigationStatus => "FH.6000.[NNS] - Natural Navigation Signals.Natural Navigation status"
    case ErrorStatus => "FH.6000.[NNS] - Natural Navigation Signals.Error status"
    case NaturalNavigationState => "FH.6000.[NNS] - Natural Navigation Signals.Natural Navigation state"
    case NnXCoordinate => "FH.6000.[NNS] - Natural Navigation Signals.X-coordinate"
    case NnYCoordinate => "FH.6000.[NNS] - Natural Navigation Signals.Y-coordinate"
    case NnHeading => "FH.6000.[NNS] - Natural Navigation Signals.Heading"
    case NnPositionConfidence => "FH.6000.[NNS] - Natural Navigation Signals.Position confidence"
    case NnSpeed => "FH.6000.[NNS] - Natural Navigation Signals.Speed"
    case NnGoingToId => "FH.6000.[NNS] - Natural Navigation Signals.Going to ID"
    case NnTargetReached => "FH.6000.[NNS] - Natural Navigation Signals.Target reached"
    case NnCurrentSegment => "FH.6000.[NNS] - Natural Navigation Signals.Current segment"
    case MomentaryFreqLeftEncoder => "FH.6000.[ODS] - Odometry Signals.Momentary frequency of left encoder pulses"
    case MomentaryFreqRightEncoder => "FH.6000.[ODS] - Odometry Signals.Momentary frequency of right encoder pulses"
    case CumulativeDistanceLeft => "FH.6000.[ODS] - Odometry Signals.Cumulative distance left"
    case CumulativeDistanceRight => "FH.6000.[ODS] - Odometry Signals.Cumulative distance right"
    case SafetyCircuitClosed => "FH.6000.[SS] SAFETY SIGNALS.Safety circuit closed"
    case ScannersMuted => "FH.6000.[SS] SAFETY SIGNALS.Scanners muted"
    case FrontBumperTriggered => "FH.6000.[SS] SAFETY SIGNALS.Front bumper triggered"
    case FrontScannerSafetyZoneViolated => "FH.6000.[SS] SAFETY SIGNALS.Front scanner safety zone violated"
    case RearScannerSafetyZoneViolated => "FH.6000.[SS] SAFETY SIGNALS.Rear scanner safety zone violated"
    case FrontScannerWarningZoneViolated => "FH.6000.[SS] SAFETY SIGNALS.Front scanner warning zone violated"
    case RearScannerWarningZoneViolated => "FH.6000.[SS] SAFETY SIGNALS.Rear scanner warning zone violated"
    case ScannersActiveZones => "FH.6000.[SS] SAFETY SIGNALS.Scanners active zones"
  }

  /** How the raw CSV text of a field is converted: str, float, int or bool_to_int. */
  datatype Caster = AsStr | AsFloat | AsInt | AsBoolToInt

  /** The casting table. */
  function CastingMapping(f: Field): Caster
  {
    match f
    case Ts => AsStr
    case MomentaryPowerConsumption => AsFloat
    case BatteryCellVoltage => AsFloat
    case LeftSafetyInterlock => AsBoolToInt
    case LeftAutoPermission => AsBoolToInt
    case LeftManualPermission => AsBoolToInt
    case LeftCommandOn => AsBoolToInt
    case LeftExecuted => AsBoolToInt
    case LeftInProgress => AsBoolToInt
    case LeftActualSpeed => AsFloat
    case PinUpSafetyInterlock => AsBoolToInt
    case PinUpAutoPermission => AsBoolToInt
    case RightSafetyInterlock => AsBoolToInt
    case RightAutoPermission => AsBoolToInt
    case RightManualPermission => AsBoolToInt
    case RightCommandOn => AsBoolToInt
    case RightActualSpeed => AsFloat
    case ManualModeActive => AsBoolToInt
    case AutoModeActive => AsBoolToInt
    case PlcFaultActive => AsBoolToInt
    case PlcWarningActive => AsBoolToInt
    case LedRgbStrip1LeftR => AsBoolToInt
    case LedRgbStrip2RightR => AsBoolToInt
    case LedRgbStrip1LeftG => AsBoolToInt
    case LedRgbStrip2RightG => AsBoolToInt
    case LedRgbStrip1LeftB => AsBoolToInt
    case LedRgbStrip2RightB => AsBoolToInt
    case LedStatusActiveMode => AsBoolToInt
    case GoToDestinationId => AsInt
    case GoToResult => AsInt
    case PauseResult => AsInt
    case ResumeDestinationId => AsInt
    case ResumeResult => AsInt
    case AbortResult => AsInt
    case NaturalNavigationStatus => AsBoolToInt
    case ErrorStatus => AsBoolToInt
    case NaturalNavigationState => AsInt
    case NnXCoordinate => AsFloat
    case NnYCoordinate => AsFloat
    case NnHeading => AsFloat
    case NnPositionConfidence => AsFloat
    case NnSpeed => AsFloat
    case NnGoingToId => AsInt
    case NnTargetReached => AsInt
    case NnCurrentSegment => AsInt
    case MomentaryFreqLeftEncoder => AsFloat
    case MomentaryFreqRightEncoder => AsFloat
    case CumulativeDistanceLeft => AsFloat
    case CumulativeDistanceRight => AsFloat
    case SafetyCircuitClosed => AsBoolToInt
    case ScannersMuted => AsBoolToInt
    case FrontBumperTriggered => AsBoolToInt
    case FrontScannerSafetyZoneViolated => AsBoolToInt
    case RearScannerSafetyZoneViolated => AsBoolToInt
    case FrontScannerWarningZoneViolated => AsBoolToInt
    case RearScannerWarningZoneViolated => AsBoolToInt
    case ScannersActiveZones => AsFloat
  }

  /** Position of a field in both tables. */
  function Ordinal(f: Field): nat
  {
    match f
    case Ts => 0
    case MomentaryPowerConsumption => 1
    case BatteryCellVoltage => 2
    case LeftSafetyInterlock => 3
    case LeftAutoPermission => 4
    case LeftManualPermission => 5
    case LeftCommandOn => 6
    case LeftExecuted => 7
    case LeftInProgress => 8
    case LeftActualSpeed => 9
    case PinUpSafetyInterlock => 10
    case PinUpAutoPermission => 11
    case RightSafetyInterlock => 12
    case RightAutoPermission => 13
    case RightManualPermission => 14
    case RightCommandOn => 15
    case RightActualSpeed => 16
    case ManualModeActive => 17
    case AutoModeActive => 18
    case PlcFaultActive => 19
    case PlcWarningActive => 20
    case LedRgbStrip1LeftR => 21
    case LedRgbStrip2RightR => 22
    case LedRgbStrip1LeftG => 23
    case LedRgbStrip2RightG => 24
    case LedRgbStrip1LeftB => 25
    case LedRgbStrip2RightB => 26
    case LedStatusActiveMode => 27
    case GoToDestinationId => 28
    case GoToResult => 29
    case PauseResult => 30
    case ResumeDestinationId => 31
    case ResumeResult => 32
    case AbortResult => 33
    case NaturalNavigationStatus => 34
    case ErrorStatus => 35
    case NaturalNavigationState => 36
    case NnXCoordinate => 37
    case NnYCoordinate => 38
    case NnHeading => 39
    case NnPositionConfidence => 40
    case NnSpeed => 41
    case NnGoingToId => 42
    case NnTargetReached => 43
    case NnCurrentSegment => 44
    case MomentaryFreqLeftEncoder => 45
    case MomentaryFreqRightEncoder => 46
    case CumulativeDistanceLeft => 47
    case CumulativeDistanceRight => 48
    case SafetyCircuitClosed => 49
    case ScannersMuted => 50
    case FrontBumperTriggered => 51
    case FrontScannerSafetyZoneViolated => 52
    case RearScannerSafetyZoneViolated => 53
    case FrontScannerWarningZoneViolated => 54
    case RearScannerWarningZoneViolated => 55
    case ScannersActiveZones => 56
  }

  /** The field at a position of both tables. */
  function FieldAt(i: nat): Field
    requires i < FieldCount
  {
    match i
    case 0 => Ts
    case 1 => MomentaryPowerConsumption
    case 2 => BatteryCellVoltage
    case 3 => LeftSafetyInterlock
    case 4 => LeftAutoPermission
    case 5 => LeftManualPermission
    case 6 => LeftCommandOn
    case 7 => LeftExecuted
    case 8 => LeftInProgress
    case 9 => LeftActualSpeed
    case 10 => PinUpSafetyInterlock
    case 11 => PinUpAutoPermission
    case 12 => RightSafetyInterlock
    case 13 => RightAutoPermission
    case 14 => RightManualPermission
    case 15 => RightCommandOn
    case 16 => RightActualSpeed
    case 17 => ManualModeActive
    case 18 => AutoModeActive
    case 19 => PlcFaultActive
    case 20 => PlcWarningActive
    case 21 => LedRgbStrip1LeftR
    case 22 => LedRgbStrip2RightR
    case 23 => LedRgbStrip1LeftG
    case 24 => LedRgbStrip2RightG
    case 25 => LedRgbStrip1LeftB
    case 26 => LedRgbStrip2RightB
    case 27 => LedStatusActiveMode
    case 28 => GoToDestinationId
    case 29 => GoToResult
    case 30 => PauseResult
    case 31 => ResumeDestinationId
    case 32 => ResumeResult
    case 33 => AbortResult
    case 34 => NaturalNavigationStatus
    case 35 => ErrorStatus
    case 36 => NaturalNavigationState
    case 37 => NnXCoordinate
    case 38 => NnYCoordinate
    case 39 => NnHeading
    case 40 => NnPositionConfidence
    case 41 => NnSpeed
    case 42 => NnGoingToId
    case 43 => NnTargetReached
    case 44 => NnCurrentSegment
    case 45 => MomentaryFreqLeftEncoder
    case 46 => MomentaryFreqRightEncoder
    case 47 => CumulativeDistanceLeft
    case 48 => CumulativeDistanceRight
    case 49 => SafetyCircuitClosed
    case 50 => ScannersMuted
    case 51 => FrontBumperTriggered
    case 52 => FrontScannerSafetyZoneViolated
    case 53 => RearScannerSafetyZoneViolated
    case 54 => FrontScannerWarningZoneViolated
    case 55 => RearScannerWarningZoneViolated
    case _ => ScannersActiveZones
  }

  /** Ordinal and FieldAt are inverse bijections between Field and [0, FieldCount). */
  lemma FieldAtOrdinal(f: Field)
    ensures Ordinal(f) < FieldCount && FieldAt(Ordinal(f)) == f
  {
    match f
    case Ts =>
    case MomentaryPowerConsumption =>
    case BatteryCellVoltage =>
    case LeftSafetyInterlock =>
    case LeftAutoPermission =>
    case LeftManualPermission =>
    case LeftCommandOn =>
    case LeftExecuted =>
    case LeftInProgress =>
    case LeftActualSpeed =>
    case PinUpSafetyInterlock =>
    case PinUpAutoPermission =>
    case RightSafetyInterlock =>
    case RightAutoPermission =>
    case RightManualPermission =>
    case RightCommandOn =>
    case RightActualSpeed =>
    case ManualModeActive =>
    case AutoModeActive =>
    case PlcFaultActive =>
    case PlcWarningActive =>
    case LedRgbStrip1LeftR =>
    case LedRgbStrip2RightR =>
    case LedRgbStrip1LeftG =>
    case LedRgbStrip2RightG =>
    case LedRgbStrip1LeftB =>
    case LedRgbStrip2RightB =>
    case LedStatusActiveMode =>
    case GoToDestinationId =>
    case GoToResult =>
    case PauseResult =>
    case ResumeDestinationId =>
    case ResumeResult =>
    case AbortResult =>
    case NaturalNavigationStatus =>
    case ErrorStatus =>
    case NaturalNavigationState =>
    case NnXCoordinate =>
    case NnYCoordinate =>
    case NnHeading =>
    case NnPositionConfidence =>
    case NnSpeed =>
    case NnGoingToId =>
    case NnTargetReached =>
    case NnCurrentSegment =>
    case MomentaryFreqLeftEncoder =>
    case MomentaryFreqRightEncoder =>
    case CumulativeDistanceLeft =>
    case CumulativeDistanceRight =>
    case SafetyCircuitClosed =>
    case ScannersMuted =>
    case FrontBumperTriggered =>
    case FrontScannerSafetyZoneViolated =>
    case RearScannerSafetyZoneViolated =>
    case FrontScannerWarningZoneViolated =>
    case RearScannerWarningZoneViolated =>
    case ScannersActiveZones =>
  }

  lemma OrdinalFieldAt(i: nat)
    requires i < FieldCount
    ensures Ordinal(FieldAt(i)) == i
  {
    if i < 10 {
      OrdinalFieldAtFrom0(i);
    }
    else if i < 20 {
      OrdinalFieldAtFrom10(i);
    }
    else if i < 30 {
      OrdinalFieldAtFrom20(i);
    }
    else if i < 40 {
      OrdinalFieldAtFrom30(i);
    }
    else if i < 50 {
      OrdinalFieldAtFrom40(i);
    }
    else {
      OrdinalFieldAtFrom50(i);
    }
  }

  // OrdinalFieldAtFrom0 .. OrdinalFieldAtFrom50 state nothing of their own:
  // they only split the proof of OrdinalFieldAt above into blocks of ten
  // positions, so that each stays small for the solver.

  lemma OrdinalFieldAtFrom0(i: nat)
    requires 0 <= i < 10
    ensures Ordinal(FieldAt(i)) == i
  {
  }

  lemma OrdinalFieldAtFrom10(i: nat)
    requires 10 <= i < 20
    ensures Ordinal(FieldAt(i)) == i
  {
  }

  lemma OrdinalFieldAtFrom20(i: nat)
    requires 20 <= i < 30
    ensures Ordinal(FieldAt(i)) == i
  {
  }

  lemma OrdinalFieldAtFrom30(i: nat)
    requires 30 <= i < 40
    ensures Ordinal(FieldAt(i)) == i
  {
  }

  lemma OrdinalFieldAtFrom40(i: nat)
    requires 40 <= i < 50
    ensures Ordinal(FieldAt(i)) == i
  {
  }

  lemma OrdinalFieldAtFrom50(i: nat)
    requires 50 <= i < 57
    ensures Ordinal(FieldAt(i)) == i
  {
  }

  /** No payload field is keyed like the two envelope entries the sender adds. */
  lemma NoEnvelopeClash(f: Field)
    ensures Name(f) != "agv_id" && Name(f) != "agv_type"
  {
    match f
    case Ts | MomentaryPowerConsumption | BatteryCellVoltage => NoEnvelopeClashAmong0(f);
    case LeftSafetyInterlock | LeftAutoPermission | LeftManualPermission => NoEnvelopeClashAmong1(f);
    case LeftCommandOn | LeftExecuted | LeftInProgress => NoEnvelopeClashAmong2(f);
    case LeftActualSpeed | PinUpSafetyInterlock | PinUpAutoPermission => NoEnvelopeClashAmong3(f);
    case RightSafetyInterlock | RightAutoPermission | RightManualPermission => NoEnvelopeClashAmong4(f);
    case RightCommandOn | RightActualSpeed | ManualModeActive => NoEnvelopeClashAmong5(f);
    case AutoModeActive | PlcFaultActive | PlcWarningActive => NoEnvelopeClashAmong6(f);
    case LedRgbStrip1LeftR | LedRgbStrip2RightR | LedRgbStrip1LeftG => NoEnvelopeClashAmong7(f);
    case LedRgbStrip2RightG | LedRgbStrip1LeftB | LedRgbStrip2RightB => NoEnvelopeClashAmong8(f);
    case LedStatusActiveMode | GoToDestinationId | GoToResult => NoEnvelopeClashAmong9(f);
    case PauseResult | ResumeDestinationId | ResumeResult => NoEnvelopeClashAmong10(f);
    case AbortResult | NaturalNavigationStatus | ErrorStatus => NoEnvelopeClashAmong11(f);
    case NaturalNavigationState | NnXCoordinate | NnYCoordinate => NoEnvelopeClashAmong12(f);
    case NnHeading | NnPositionConfidence | NnSpeed => NoEnvelopeClashAmong13(f);
    case NnGoingToId | NnTargetReached | NnCurrentSegment => NoEnvelopeClashAmong14(f);
    case MomentaryFreqLeftEncoder | MomentaryFreqRightEncoder | CumulativeDistanceLeft => NoEnvelopeClashAmong15(f);
    case CumulativeDistanceRight | SafetyCircuitClosed | ScannersMuted => NoEnvelopeClashAmong16(f);
    case FrontBumperTriggered | FrontScannerSafetyZoneViolated | RearScannerSafetyZoneViolated => NoEnvelopeClashAmong17(f);
    case FrontScannerWarningZoneViolated | RearScannerWarningZoneViolated | ScannersActiveZones => NoEnvelopeClashAmong18(f);
  }

  // NoEnvelopeClashAmong0 .. NoEnvelopeClashAmong18 state nothing of their
  // own: they only split the proof of NoEnvelopeClash above into groups of
  // three fields, so that each stays small for the solver.

  lemma NoEnvelopeClashAmong0(f: Field)
    requires f == Ts || f == MomentaryPowerConsumption || f == BatteryCellVoltage
    ensures Name(f) != "agv_id" && Name(f) != "agv_type"
  {
  }

  lemma NoEnvelopeClashAmong1(f: Field)
    requires f == LeftSafetyInterlock || f == LeftAutoPermission || f == LeftManualPermission
    ensures Name(f) != "agv_id" && Name(f) != "agv_type"
  {
  }

  lemma NoEnvelopeClashAmong2(f: Field)
    requires f == LeftCommandOn || f == LeftExecuted || f == LeftInProgress
    ensures Name(f) != "agv_id" && Name(f) != "agv_type"
  {
  }

  lemma NoEnvelopeClashAmong3(f: Field)
    requires f == LeftActualSpeed || f == PinUpSafetyInterlock || f == PinUpAutoPermission
    ensures Name(f) != "agv_id" && Name(f) != "agv_type"
  {
  }

  lemma NoEnvelopeClashAmong4(f: Field)
    requires f == RightSafetyInterlock || f == RightAutoPermission || f == RightManualPermission
    ensures Name(f) != "agv_id" && Name(f) != "agv_type"
  {
  }

  lemma NoEnvelopeClashAmong5(f: Field)
    requires f == RightCommandOn || f == RightActualSpeed || f == ManualModeActive
    ensures Name(f) != "agv_id" && Name(f) != "agv_type"
  {
  }

  lemma NoEnvelopeClashAmong6(f: Field)
    requires f == AutoModeActive || f == PlcFaultActive || f == PlcWarningActive
    ensures Name(f) != "agv_id" && Name(f) != "agv_type"
  {
  }

  lemma NoEnvelopeClashAmong7(f: Field)
    requires f == LedRgbStrip1LeftR || f == LedRgbStrip2RightR || f == LedRgbStrip1LeftG
    ensures Name(f) != "agv_id" && Name(f) != "agv_type"
  {
  }

  lemma NoEnvelopeClashAmong8(f: Field)
    requires f == LedRgbStrip2RightG || f == LedRgbStrip1LeftB || f == LedRgbStrip2RightB
    ensures Name(f) != "agv_id" && Name(f) != "agv_type"
  {
  }

  lemma NoEnvelopeClashAmong9(f: Field)
    requires f == LedStatusActiveMode || f == GoToDestinationId || f == GoToResult
    ensures Name(f) != "agv_id" && Name(f) != "agv_type"
  {
  }

  lemma NoEnvelopeClashAmong10(f: Field)
    requires f == PauseResult || f == ResumeDestinationId || f == ResumeResult
    ensures Name(f) != "agv_id" && Name(f) != "agv_type"
  {
  }

  lemma NoEnvelopeClashAmong11(f: Field)
    requires f == AbortResult || f == NaturalNavigationStatus || f == ErrorStatus
    ensures Name(f) != "agv_id" && Name(f) != "agv_type"
  {
  }

  lemma NoEnvelopeClashAmong12(f: Field)
    requires f == NaturalNavigationState || f == NnXCoordinate || f == NnYCoordinate
    ensures Name(f) != "agv_id" && Name(f) != "agv_type"
  {
  }

  lemma NoEnvelopeClashAmong13(f: Field)
    requires f == NnHeading || f == NnPositionConfidence || f == NnSpeed
    ensures Name(f) != "agv_id" && Name(f) != "agv_type"
  {
  }

  lemma NoEnvelopeClashAmong14(f: Field)
    requires f == NnGoingToId || f == NnTargetReached || f == NnCurrentSegment
    ensures Name(f) != "agv_id" && Name(f) != "agv_type"
  {
  }

  lemma NoEnvelopeClashAmong15(f: Field)
    requires f == MomentaryFreqLeftEncoder || f == MomentaryFreqRightEncoder || f == CumulativeDistanceLeft
    ensures Name(f) != "agv_id" && Name(f) != "agv_type"
  {
  }

  lemma NoEnvelopeClashAmong16(f: Field)
    requires f == CumulativeDistanceRight || f == SafetyCircuitClosed || f == ScannersMuted
    ensures Name(f) != "agv_id" && Name(f) != "agv_type"
  {
  }

  lemma NoEnvelopeClashAmong17(f: Field)
    requires f == FrontBumperTriggered || f == FrontScannerSafetyZoneViolated || f == RearScannerSafetyZoneViolated
    ensures Name(f) != "agv_id" && Name(f) != "agv_type"
  {
  }

  lemma NoEnvelopeClashAmong18(f: Field)
    requires f == FrontScannerWarningZoneViolated || f == RearScannerWarningZoneViolated || f == ScannersActiveZones
    ensures Name(f) != "agv_id" && Name(f) != "agv_type"
  {
  }
}
