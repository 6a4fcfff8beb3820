/**
 * The fixed tables of the overload regression service: the model input
 * columns, the StandardScaler statistics the service installs by hand
 * (mean_ and scale_) and the per-feature weights applied after scaling.
 * Each table is written entry by entry as a function of the feature index
 * and collected into a sequence of the feature count's length.
 */
module MpcConstants {
  /** Number of features of the model, the width of the input window. */
  const Features: nat := 56

  /** Input column j of selected_columns. */
  function ColumnAt(j: nat): string
    requires j < Features
  {
    match j
    case 0 => "FH.6000.[ENS] - Energy Signals.Momentary power consumption"
    case 1 => "FH.6000.[ENS] - Energy Signals.Battery cell voltage"
    case 2 => "FH.6000.[G1LDS] GROUP 1 - LEFT DRIVE SIGNALS.Left drive activate - safety interlock"
    case 3 => "FH.6000.[G1LDS] GROUP 1 - LEFT DRIVE SIGNALS.Left drive activate - automatic permission"
    case 4 => "FH.6000.[G1LDS] GROUP 1 - LEFT DRIVE SIGNALS.Left drive activate - manual permission"
    case 5 => "FH.6000.[G1LDS] GROUP 1 - LEFT DRIVE SIGNALS.Left drive activate - command on"
    case 6 => "FH.6000.[G1LDS] GROUP 1 - LEFT DRIVE SIGNALS.Left drive activate - executed"
    case 7 => "FH.6000.[G1LDS] GROUP 1 - LEFT DRIVE SIGNALS.Left drive activate - in progress"
    case 8 => "FH.6000.[G1LDS] GROUP 1 - LEFT DRIVE SIGNALS.ActualSpeed_L"
    case 9 => "FH.6000.[G2PAS] GROUP 2 - PIN ACTUATOR SIGNALS.Pin Up - safety interlock"
    case 10 => "FH.6000.[G2PAS] GROUP 2 - PIN ACTUATOR SIGNALS.Pin Up - automatic permission"
    case 11 => "FH.6000.[G2RDS] GROUP 2 - RIGHT DRIVE SIGNALS.Right drive activate - safety interlock"
    case 12 => "FH.6000.[G2RDS] GROUP 2 - RIGHT DRIVE SIGNALS.Right drive activate - automatic permission"
    case 13 => "FH.6000.[G2RDS] GROUP 2 - RIGHT DRIVE SIGNALS.Right drive activate - manual permission"
    case 14 => "FH.6000.[G2RDS] GROUP 2 - RIGHT DRIVE SIGNALS.Right drive activate - command on"
    case 15 => "FH.6000.[G2RDS] GROUP 2 - RIGHT DRIVE SIGNALS.ActualSpeed_R"
    case 16 => "FH.6000.[GS] GENERAL SIGNALS.Manual Mode active"
    case 17 => "FH.6000.[GS] GENERAL SIGNALS.Automatic Mode active"
    case 18 => "FH.6000.[GS] GENERAL SIGNALS.PLC fault active"
    case 19 => "FH.6000.[GS] GENERAL SIGNALS.PLC warning Active"
    case 20 => "FH.6000.[LED] LED STATUS.LED RGB Strip 1 left - R"
    case 21 => "FH.6000.[LED] LED STATUS.LED RGB Strip 2 right - R"
    case 22 => "FH.6000.[LED] LED STATUS.LED RGB Strip 1 left - G"
    case 23 => "FH.6000.[LED] LED STATUS.LED RGB Strip 2 right - G"
    case 24 => "FH.6000.[LED] LED STATUS.LED RGB Strip 1 left - B"
    case 25 => "FH.6000.[LED] LED STATUS.LED RGB Strip 2 right - B"
    case 26 => "FH.6000.[LED] LED STATUS.LED status - active mode"
    case 27 => "FH.6000.[NNCF]3105 - Go to destination result.Destination ID"
    case 28 => "FH.6000.[NNCF]3105 - Go to destination result.Go to result"
    case 29 => "FH.6000.[NNCF]3106 - Pause drive result.Pause result"
    case 30 => "FH.6000.[NNCF]3107 - Resume drive result.Destination ID"
    case 31 => "FH.6000.[NNCF]3107 - Resume drive result.Resume result"
    case 32 => "FH.6000.[NNCF]3108 - Abort drive result.Abort result"
    case 33 => "FH.6000.[NNS] - Natural Navigation Signals.Natural Navigation status"
    case 34 => "FH.6000.[NNS] - Natural Navigation Signals.Error status"
    case 35 => "FH.6000.[NNS] - Natural Navigation Signals.Natural Navigation state"
    case 36 => "FH.6000.[NNS] - Natural Navigation Signals.X-coordinate"
    case 37 => "FH.6000.[NNS] - Natural Navigation Signals.Y-coordinate"
    case 38 => "FH.6000.[NNS] - Natural Navigation Signals.Heading"
    case 39 => "FH.6000.[NNS] - Natural Navigation Signals.Position confidence"
    case 40 => "FH.6000.[NNS] - Natural Navigation Signals.Speed"
    case 41 => "FH.6000.[NNS] - Natural Navigation Signals.Going to ID"
    case 42 => "FH.6000.[NNS] - Natural Navigation Signals.Target reached"
    case 43 => "FH.6000.[NNS] - Natural Navigation Signals.Current segment"
    case 44 => "FH.6000.[ODS] - Odometry Signals.Momentary frequency of left encoder pulses"
    case 45 => "FH.6000.[ODS] - Odometry Signals.Momentary frequency of right encoder pulses"
    case 46 => "FH.6000.[ODS] - Odometry Signals.Cumulative distance left"
    case 47 => "FH.6000.[ODS] - Odometry Signals.Cumulative distance right"
    case 48 => "FH.6000.[SS] SAFETY SIGNALS.Safety circuit closed"
    case 49 => "FH.6000.[SS] SAFETY SIGNALS.Scanners muted"
    case 50 => "FH.6000.[SS] SAFETY SIGNALS.Front bumper triggered"
    case 51 => "FH.6000.[SS] SAFETY SIGNALS.Front scanner safety zone violated"
    case 52 => "FH.6000.[SS] SAFETY SIGNALS.Rear scanner safety zone violated"
    case 53 => "FH.6000.[SS] SAFETY SIGNALS.Front scanner warning zone violated"
    case 54 => "FH.6000.[SS] SAFETY SIGNALS.Rear scanner warning zone violated"
    case _ => "FH.6000.[SS] SAFETY SIGNALS.Scanners active zones"
  }

  /** selected_columns, in feature order. */
  function SelectedColumns(): seq<string>
  {
    seq(Features, j requires 0 <= j < Features => ColumnAt(j))
  }

  /** Entry j of the scaler's mean_ vector. */
  function MeanAt(j: nat): real
    requires j < Features
  {
    match j
    case 0 => 3.31105838e2
    case 1 => 4.65558587e4
    case 2 => 9.86886105e-1
    case 3 => 9.99959712e-1
    case 4 => 4.02884654e-5
    case 5 => 8.12396761e-1
    case 6 => 8.12396761e-1
    case 7 => 8.12396761e-1
    case 8 => -1.11133717
    case 9 => 9.99979856e-1
    case 10 => 9.99979856e-1
    case 11 => 9.86886105e-1
    case 12 => 9.99979856e-1
    case 13 => 4.02884654e-5
    case 14 => 9.99979856e-1
    case 15 => -1.04385399
    case 16 => 4.02884654e-5
    case 17 => 9.99959712e-1
    case 18 => 1.80290883e-2
    case 19 => 4.63720237e-2
    case 20 => 1.39236936e-1
    case 21 => 5.88413037e-2
    case 22 => 1.29607993e-1
    case 23 => 4.92123605e-2
    case 24 => 5.65992506e-1
    case 25 => 6.47334918e-1
    case 26 => 1.10134161e1
    case 27 => 2.42615124
    case 28 => 1.44857177e-1
    case 29 => 2.42615124
    case 30 => 2.42615124
    case 31 => 1.44857177e-1
    case 32 => 2.42615124
    case 33 => 9.99939567e-1
    case 34 => 2.01442327e-5
    case 35 => 2.97353048
    case 36 => 3.59695176e1
    case 37 => 2.15484972e1
    case 38 => 3.10005953e-1
    case 39 => 9.49589058e1
    case 40 => -1.49215925e-3
    case 41 => 2.42615124
    case 42 => 1.44857177e-1
    case 43 => 3.58947867e1
    case 44 => 5.52664820e2
    case 45 => -2.16881673e1
    case 46 => 1.31313718e3
    case 47 => 1.41154400e3
    case 48 => 9.86886105e-1
    case 49 => 4.02884654e-5
    case 50 => 9.98025865e-1
    case 51 => 9.92123605e-1
    case 52 => 9.95850288e-1
    case 53 => 9.73006728e-1
    case 54 => 9.69300189e-1
    case _ => 1.00036260
  }

  /** The scaler's mean_ vector (ds_mean). */
  function DsMean(): seq<real>
  {
    seq(Features, j requires 0 <= j < Features => MeanAt(j))
  }

  /** Entry j of the scaler's scale_ vector. */
  function ScaleAt(j: nat): real
    requires j < Features
  {
    match j
    case 0 => 7.36188028e1
    case 1 => 1.76534683e3
    case 2 => 1.13762565e-1
    case 3 => 6.34719168e-3
    case 4 => 6.34719168e-3
    case 5 => 3.90395010e-1
    case 6 => 3.90395010e-1
    case 7 => 3.90395010e-1
    case 8 => 1.58810218e2
    case 9 => 4.48818749e-3
    case 10 => 4.48818749e-3
    case 11 => 1.13762565e-1
    case 12 => 4.48818749e-3
    case 13 => 6.34719168e-3
    case 14 => 4.48818749e-3
    case 15 => 1.70070154e2
    case 16 => 6.34719168e-3
    case 17 => 6.34719168e-3
    case 18 => 1.33056530e-1
    case 19 => 2.10289465e-1
    case 20 => 3.46193605e-1
    case 21 => 2.35327441e-1
    case 22 => 3.35871644e-1
    case 23 => 2.16311128e-1
    case 24 => 4.95625856e-1
    case 25 => 4.77799563e-1
    case 26 => 4.67716683e1
    case 27 => 1.13597312
    case 28 => 3.51956781e-1
    case 29 => 1.13597312
    case 30 => 1.13597312
    case 31 => 3.51956781e-1
    case 32 => 1.13597312
    case 33 => 7.77361216e-3
    case 34 => 4.48818749e-3
    case 35 => 8.99095282e-1
    case 36 => 6.72389880
    case 37 => 3.93929876
    case 38 => 1.72140102
    case 39 => 4.32073508
    case 40 => 2.09424149e-1
    case 41 => 1.13597312
    case 42 => 3.51956781e-1
    case 43 => 2.02493508e1
    case 44 => 1.83045140e4
    case 45 => 1.80255817e4
    case 46 => 7.25428908e2
    case 47 => 7.82406606e2
    case 48 => 1.13762565e-1
    case 49 => 6.34719168e-3
    case 50 => 4.43873585e-2
    case 51 => 8.83988540e-2
    case 52 => 6.42844602e-2
    case 53 => 1.62063676e-1
    case 54 => 1.72503137e-1
    case _ => 5.71247251e-2
  }

  /** The scaler's scale_ vector (ds_scale). */
  function DsScale(): seq<real>
  {
    seq(Features, j requires 0 <= j < Features => ScaleAt(j))
  }

  /** The weight of feature j. */
  function WeightAt(j: nat): real
    requires j < Features
  {
    match j
    case 0 => 0.94434573
    case 1 => 1.05775119
    case 2 => 0.98145535
    case 3 => 0.88252097
    case 4 => 1.59831661
    case 5 => 0.20711831
    case 6 => 1.82091174
    case 7 => 0.62167594
    case 8 => 0.70944001
    case 9 => 1.56842617
    case 10 => 0.92145948
    case 11 => 0.80771739
    case 12 => 0.21285017
    case 13 => -1.75739862
    case 14 => 2.88456252
    case 15 => 0.21929224
    case 16 => -0.46961886
    case 17 => 0.82098079
    case 18 => 1.27824626
    case 19 => 0.30006528
    case 20 => 0.23129348
    case 21 => 0.67005413
    case 22 => 0.51058337
    case 23 => 0.77160606
    case 24 => -1.43119529
    case 25 => 0.93059645
    case 26 => 1.49700404
    case 27 => 0.80177857
    case 28 => 0.50795383
    case 29 => 0.97205259
    case 30 => 1.97306834
    case 31 => 0.90645151
    case 32 => 1.14622803
    case 33 => 0.92498906
    case 34 => 0.580554
    case 35 => 0.62725778
    case 36 => 1.10432259
    case 37 => 0.0972941
    case 38 => 0.02687283
    case 39 => 0.56381115
    case 40 => -1.19465716
    case 41 => 0.56049716
    case 42 => 0.19689367
    case 43 => 0.79387506
    case 44 => -1.77186096
    case 45 => 0.10502172
    case 46 => 0.08165884
    case 47 => 0.26459102
    case 48 => 0.22519161
    case 49 => 0.81502814
    case 50 => 0.13262141
    case 51 => 1.001232
    case 52 => 0.83051719
    case 53 => 1.84447032
    case 54 => 0.36032435
    case _ => 0.43090188
  }

  /** The weights the standardised features are multiplied by. */
  function Weights(): seq<real>
  {
    seq(Features, j requires 0 <= j < Features => WeightAt(j))
  }

  /** The four tables have one entry per feature. */
  lemma TableLengths()
    ensures |SelectedColumns()| == |DsMean()| == |DsScale()| == |Weights()| == Features == 56
  {
  }

  /** Every scale is positive, so standardisation never divides by zero. */
  lemma DsScalePositive()
    ensures forall j :: 0 <= j < |DsScale()| ==> DsScale()[j] > 0.0
  {
    forall j | 0 <= j < |DsScale()|
      ensures DsScale()[j] > 0.0
    {
      if j < 8 {
        ScalePositiveFrom0(j);
      } else if j < 16 {
        ScalePositiveFrom8(j);
      } else if j < 24 {
        ScalePositiveFrom16(j);
      } else if j < 32 {
        ScalePositiveFrom24(j);
      } else if j < 40 {
        ScalePositiveFrom32(j);
      } else if j < 48 {
        ScalePositiveFrom40(j);
      } else {
        ScalePositiveFrom48(j);
      }
    }
  }

  // ScalePositiveFrom0 .. ScalePositiveFrom48 state nothing of their own:
  // they only split the proof of DsScalePositive above into blocks of eight
  // table entries, so that each stays small for the solver.

  lemma ScalePositiveFrom0(j: nat)
    requires 0 <= j < 8
    ensures ScaleAt(j) > 0.0
  {
  }

  lemma ScalePositiveFrom8(j: nat)
    requires 8 <= j < 16
    ensures ScaleAt(j) > 0.0
  {
  }

  lemma ScalePositiveFrom16(j: nat)
    requires 16 <= j < 24
    ensures ScaleAt(j) > 0.0
  {
  }

  lemma ScalePositiveFrom24(j: nat)
    requires 24 <= j < 32
    ensures ScaleAt(j) > 0.0
  {
  }

  lemma ScalePositiveFrom32(j: nat)
    requires 32 <= j < 40
    ensures ScaleAt(j) > 0.0
  {
  }

  lemma ScalePositiveFrom40(j: nat)
    requires 40 <= j < 48
    ensures ScaleAt(j) > 0.0
  {
  }

  lemma ScalePositiveFrom48(j: nat)
    requires 48 <= j < 56
    ensures ScaleAt(j) > 0.0
  {
  }
}
