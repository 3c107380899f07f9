/**
 The disturbance-profile generator: additive offsets to the BIS, MAP and CO
 signals of the simulated patient, produced by piecewise-linear interpolation
 of a named table of control points at the current simulation time.
 */
module Disturbances {
  import opened Interpolation

  /** One control point: (time in minutes, delta BIS, delta MAP, delta CO). */
  type Row = (real, real, real, real)

  /** The control points of one profile, in order of time. */
  type Table = seq<Row>

  /** The three signals a disturbance is added to. */
  datatype Channel = BIS | MAP | CO

  /** The additive disturbance to the BIS, MAP and CO signals at one instant. */
  datatype Sample = Sample(dBis: real, dMap: real, dCo: real) {
    function Get(c: Channel): real {
      match c
      case BIS => dBis
      case MAP => dMap
      case CO => dCo
    }
  }

  const Zero := Sample(0.0, 0.0, 0.0)

  /** A profile name that selects no table leaves the generator without control points. */
  datatype Error = UnknownProfile(name: string)

  datatype Result<T> = Ok(value: T) | Err(error: Error)

  datatype Option<T> = None | Some(value: T)

  /** Default step window of the generator, in seconds. */
  const DefaultStartStep: real := 600.0
  const DefaultEndStep: real := 1200.0

  /** The value a row carries on one channel. */
  function Pick(row: Row, c: Channel): real {
    match c
    case BIS => row.1
    case MAP => row.2
    case CO => row.3
  }

  /** The three deltas a row carries. */
  function Deltas(row: Row): Sample {
    Sample(row.1, row.2, row.3)
  }

  /** The time column of a table (minutes). */
  function Times(t: Table): seq<real> {
    seq(|t|, i requires 0 <= i < |t| => t[i].0)
  }

  /** The value column of a table for one channel. */
  function Values(t: Table, c: Channel): seq<real> {
    seq(|t|, i requires 0 <= i < |t| => Pick(t[i], c))
  }

  /** A table interpolation can be run on: non-empty, with strictly increasing times. */
  predicate WellFormed(t: Table) {
    |t| > 0 && StrictlyIncreasing(Times(t))
  }

  /**
   Each channel interpolated on its own against the shared time column and its
   own value column, clamped to the end values outside the table: at or
   before the first row's time every channel holds the first row, at or after
   the last row's time every channel holds the last row.
   */
  function Lookup(minutes: real, t: Table): (s: Sample)
    requires WellFormed(t)
    ensures minutes <= t[0].0 ==> s == Deltas(t[0])
    ensures minutes >= t[|t| - 1].0 ==> s == Deltas(t[|t| - 1])
  {
    Sample(Interp(minutes, Times(t), Values(t, BIS)),
           Interp(minutes, Times(t), Values(t, MAP)),
           Interp(minutes, Times(t), Values(t, CO)))
  }

  /** Struys et al. (2004) surgical-stimulus profile. */
  const Realistic: Table := [
    (0.0,    0.0,   0.0,  0.0),
    (9.9,    0.0,   0.0,  0.0),
    (10.0,  20.0,  10.0,  0.6),
    (12.0,  20.0,  10.0,  0.6),
    (13.0,   0.0,   0.0,  0.0),
    (19.9,   0.0,   0.0,  0.0),
    (20.2,  20.0,  10.0,  0.5),
    (21.0,  20.0,  10.0,  0.5),
    (21.5,   0.0,   0.0,  0.0),
    (26.0, -20.0, -10.0, -0.8),
    (27.0,  20.0,  10.0,  0.9),
    (28.0,  10.0,   7.0,  0.2),
    (36.0,  10.0,   7.0,  0.2),
    (37.0,  30.0,  15.0,  0.8),
    (37.5,  30.0,  15.0,  0.8),
    (38.0,  10.0,   5.0,  0.2),
    (41.0,  10.0,   5.0,  0.2),
    (41.5,  30.0,  10.0,  0.5),
    (42.0,  30.0,  10.0,  0.5),
    (43.0,  10.0,   5.0,  0.2),
    (47.0,  10.0,   5.0,  0.2),
    (47.5,  30.0,  10.0,  0.9),
    (50.0,  30.0,   8.0,  0.9),
    (51.0,  10.0,   5.0,  0.2),
    (56.0,  10.0,   5.0,  0.2),
    (56.5,   0.0,   0.0,  0.0)
  ]

  /** Ionescu et al. (2021) surgical-stimulus profile. */
  const Realistic2: Table := [
    (0.0,    0.0,   0.0,  0.0),
    (9.9,    0.0,   0.0,  0.0),
    (10.0,  20.0,  10.0,  0.5),
    (15.0,  20.0,  10.0,  0.5),
    (15.1,   0.0,   0.0,  0.0),
    (19.9,   0.0,   0.0,  0.0),
    (20.0,  20.0,  10.0,  0.5),
    (25.0,  20.0,  10.0,  0.5),
    (25.1,   0.0,   0.0,  0.0),
    (26.9, -20.0, -10.0, -0.5),
    (27.0,  20.0,  10.0,  0.5),
    (32.0,  20.0,  10.0,  0.5),
    (32.1,   0.0,   0.0,  0.0),
    (41.9,   0.0,   0.0,  0.0),
    (42.0,  20.0,  10.0,  0.5),
    (44.0,  20.0,  10.0,  0.5),
    (44.1,   0.0,   0.0,  0.0),
    (50.0,   0.0,   0.0,  0.0),
    (50.1,  20.0,  10.0,  0.5),
    (55.0,  20.0,  10.0,  0.5),
    (55.1,   0.0,   0.0,  0.0),
    (75.0,   0.0,   0.0,  0.0),
    (75.1,  20.0,  10.0,  0.5),
    (95.0,  20.0,  10.0,  0.5),
    (95.1,   0.0,   0.0,  0.0),
    (100.0,  0.0,   0.0,  0.0)
  ]

  /** Dumont et al. (2009) single-stimulus profile. */
  const Simple: Table := [
    (0.0,   0.0,  0.0, 0.0),
    (19.9,  0.0,  0.0, 0.0),
    (20.0, 20.0,  5.0, 0.3),
    (23.0, 20.0, 10.0, 0.6),
    (24.0, 15.0, 10.0, 0.6),
    (26.0, 12.5,  6.0, 0.4),
    (30.0, 10.5,  4.0, 0.3),
    (37.0, 10.0,  4.0, 0.3),
    (40.0,  4.0,  2.0, 0.1),
    (45.0,  0.5,  0.1, 0.01),
    (50.0,  0.0,  0.0, 0.0)
  ]

  /**
   A single rectangular pulse of (10, 5, 0.3) from `startStep` to `endStep`
   seconds, with a 0.01-minute ramp before each edge and a closing point at
   30 minutes. Only the two pulse rows carry a disturbance; the table opens
   with a zero baseline at minute 0 and closes with a zero point at minute 30.
   */
  function StepTable(startStep: real, endStep: real): (r: Table)
    ensures |r| == 6
    ensures r[0] == (0.0, 0.0, 0.0, 0.0) && r[5] == (30.0, 0.0, 0.0, 0.0)
    ensures Deltas(r[1]) == Deltas(r[4]) == Zero
    ensures Deltas(r[2]) == Deltas(r[3]) == Sample(10.0, 5.0, 0.3)
    ensures r[2].0 == startStep / 60.0 && r[4].0 == endStep / 60.0
    ensures r[1].0 == r[2].0 - 0.01 && r[3].0 == r[4].0 - 0.01
  {
    [ (0.0,                     0.0, 0.0, 0.0),
      (startStep / 60.0 - 0.01, 0.0, 0.0, 0.0),
      (startStep / 60.0,       10.0, 5.0, 0.3),
      (endStep / 60.0 - 0.01,  10.0, 5.0, 0.3),
      (endStep / 60.0,          0.0, 0.0, 0.0),
      (30.0,                    0.0, 0.0, 0.0) ]
  }

  /** The step window for which the synthesized time column strictly increases. */
  predicate StepWindowValid(startStep: real, endStep: real) {
    && 0.0 < startStep / 60.0 - 0.01
    && startStep / 60.0 < endStep / 60.0 - 0.01
    && endStep / 60.0 < 30.0
  }

  /** The five names the generator has a branch for. */
  predicate KnownProfile(name: string) {
    name == "realistic" || name == "realistic2" || name == "simple" || name == "step" || name == "null"
  }

  /** The realistic table: 26 rows from a zero baseline at minute 0 to a zero point at minute 56.5. */
  lemma RealisticWellFormed()
    ensures |Realistic| == 26
    ensures Realistic[0] == (0.0, 0.0, 0.0, 0.0) && Realistic[25] == (56.5, 0.0, 0.0, 0.0)
    ensures WellFormed(Realistic)
  {
  }

  /** The realistic2 table: 26 rows from a zero baseline at minute 0 to a zero point at minute 100. */
  lemma Realistic2WellFormed()
    ensures |Realistic2| == 26
    ensures Realistic2[0] == (0.0, 0.0, 0.0, 0.0) && Realistic2[25] == (100.0, 0.0, 0.0, 0.0)
    ensures WellFormed(Realistic2)
  {
  }

  /** The simple table: 11 rows from a zero baseline at minute 0 to a zero point at minute 50. */
  lemma SimpleWellFormed()
    ensures |Simple| == 11
    ensures Simple[0] == (0.0, 0.0, 0.0, 0.0) && Simple[10] == (50.0, 0.0, 0.0, 0.0)
    ensures WellFormed(Simple)
  {
  }

  /** The synthesized step table can be interpolated exactly when the window is valid. */
  lemma StepTableWellFormedIff(startStep: real, endStep: real)
    ensures WellFormed(StepTable(startStep, endStep)) <==> StepWindowValid(startStep, endStep)
  {
    var ks := Times(StepTable(startStep, endStep));
    if WellFormed(StepTable(startStep, endStep)) {
      assert ks[0] < ks[1] && ks[2] < ks[3] && ks[4] < ks[5];
    }
  }

  /**
   The table the profile name selects, if any. The `null` profile has no
   table: it returns before any table is consulted.
   */
  function SelectTable(profile: string, startStep: real, endStep: real): (r: Option<Table>)
    requires profile == "step" ==> StepWindowValid(startStep, endStep)
    ensures r.Some? <==> KnownProfile(profile) && profile != "null"
    ensures r.Some? ==> WellFormed(r.value)
    ensures r.Some? ==> r.value[0] == (0.0, 0.0, 0.0, 0.0)
  {
    if profile == "realistic" then RealisticWellFormed(); Some(Realistic)
    else if profile == "realistic2" then Realistic2WellFormed(); Some(Realistic2)
    else if profile == "simple" then SimpleWellFormed(); Some(Simple)
    else if profile == "step" then StepTableWellFormedIff(startStep, endStep); Some(StepTable(startStep, endStep))
    else None
  }

  /**
   The disturbance to add to BIS, MAP and CO at `time` seconds. `null`
   yields no disturbance, a name with no branch yields an error, and every
   other profile interpolates its table at `time / 60` minutes. The profile
   defaults to `realistic` and the step window to 600 s - 1200 s.
   */
  function ComputeDisturbances(time: real, profile: string := "realistic",
                               startStep: real := DefaultStartStep, endStep: real := DefaultEndStep): (r: Result<Sample>)
    requires profile == "step" ==> StepWindowValid(startStep, endStep)
    ensures r.Err? <==> !KnownProfile(profile)
    ensures r.Err? ==> r.error == UnknownProfile(profile)
    ensures profile == "null" ==> r == Ok(Zero)
  {
    if profile == "null" then Ok(Zero)
    else
      match SelectTable(profile, startStep, endStep)
      case Some(t) => Ok(Lookup(time / 60.0, t))
      case None => Err(UnknownProfile(profile))
  }

  /** A profile backed by a table interpolates that table at the time in minutes. */
  lemma ComputeUsesTable(time: real, profile: string, startStep: real, endStep: real)
    requires profile == "step" ==> StepWindowValid(startStep, endStep)
    requires SelectTable(profile, startStep, endStep).Some?
    ensures profile != "null"
    ensures ComputeDisturbances(time, profile, startStep, endStep)
      == Ok(Lookup(time / 60.0, SelectTable(profile, startStep, endStep).value))
  {
  }
}
