/**
 What the generator promises about its named profiles: quiet at the start and
 after the last control point, exact at every control point, a clean plateau
 for the step profile, no overshoot between control points, and channels that
 do not influence one another.
 */
module Profiles {
  import opened Interpolation
  import opened Disturbances

  /** Every channel of every table-backed profile interpolates to the same value at a key as the row holds. */
  lemma LookupAtKey(t: Table, k: nat)
    requires WellFormed(t)
    requires k < |t|
    ensures Lookup(t[k].0, t) == Sample(t[k].1, t[k].2, t[k].3)
  {
    InterpAtKey(Times(t), Values(t, BIS), k);
    InterpAtKey(Times(t), Values(t, MAP), k);
    InterpAtKey(Times(t), Values(t, CO), k);
  }

  /** Inside a segment whose two rows agree, every channel holds that row's values. */
  lemma LookupOnFlatSegment(minutes: real, t: Table, k: nat)
    requires WellFormed(t)
    requires k + 1 < |t|
    requires t[k].0 <= minutes <= t[k + 1].0
    requires t[k].1 == t[k + 1].1 && t[k].2 == t[k + 1].2 && t[k].3 == t[k + 1].3
    ensures Lookup(minutes, t) == Sample(t[k].1, t[k].2, t[k].3)
  {
    InterpFlatSegment(minutes, Times(t), Values(t, BIS), k);
    InterpFlatSegment(minutes, Times(t), Values(t, MAP), k);
    InterpFlatSegment(minutes, Times(t), Values(t, CO), k);
  }

  /** A channel whose column lies in `[lo, hi]` is looked up inside `[lo, hi]`. */
  lemma LookupWithin(minutes: real, t: Table, c: Channel, lo: real, hi: real)
    requires WellFormed(t)
    requires forall k :: 0 <= k < |t| ==> lo <= Pick(t[k], c) <= hi
    ensures lo <= Lookup(minutes, t).Get(c) <= hi
  {
    var ys := Values(t, c);
    assert forall k :: 0 <= k < |ys| ==> lo <= ys[k] <= hi;
    InterpWithin(minutes, Times(t), ys, lo, hi);
    assert Lookup(minutes, t).Get(c) == Interp(minutes, Times(t), ys);
  }

  /** For minutes `m1 <= m <= m2` inside segment `k`, each channel at `m` lies between its values at `m1` and `m2`. */
  lemma LookupNoOvershoot(m1: real, m: real, m2: real, t: Table, k: nat, c: Channel)
    requires WellFormed(t)
    requires k + 1 < |t|
    requires t[k].0 <= m1 <= m <= m2 <= t[k + 1].0
    ensures var v1, v, v2 := Lookup(m1, t).Get(c), Lookup(m, t).Get(c), Lookup(m2, t).Get(c);
      Min(v1, v2) <= v <= Max(v1, v2)
  {
    InterpNoOvershoot(m1, m, m2, Times(t), Values(t, c), k);
  }

  /** Between rows `k` and `k + 1`, each channel lies between the two rows' values. */
  lemma LookupBetweenRows(m: real, t: Table, k: nat, c: Channel)
    requires WellFormed(t)
    requires k + 1 < |t|
    requires t[k].0 <= m <= t[k + 1].0
    ensures Min(Pick(t[k], c), Pick(t[k + 1], c)) <= Lookup(m, t).Get(c) <= Max(Pick(t[k], c), Pick(t[k + 1], c))
  {
    InterpOnSegment(m, Times(t), Values(t, c), k);
  }

  /** Every profile starts from no disturbance: at time 0, and at any earlier time, all three offsets are 0. */
  lemma BaselineAtStart(time: real, profile: string, startStep: real, endStep: real)
    requires KnownProfile(profile)
    requires profile == "step" ==> StepWindowValid(startStep, endStep)
    requires time <= 0.0
    ensures ComputeDisturbances(time, profile, startStep, endStep) == Ok(Zero)
  {
    if profile != "null" {
      var t := SelectTable(profile, startStep, endStep).value;
      assert Lookup(time / 60.0, t) == Zero;
    }
  }

  /** A profile whose last row is quiet stays quiet from that row's time on. */
  lemma QuietAfterLastRow(time: real, profile: string, startStep: real, endStep: real)
    requires profile == "step" ==> StepWindowValid(startStep, endStep)
    requires SelectTable(profile, startStep, endStep).Some?
    requires var t := SelectTable(profile, startStep, endStep).value;
      t[|t| - 1].1 == t[|t| - 1].2 == t[|t| - 1].3 == 0.0 && time >= 60.0 * t[|t| - 1].0
    ensures ComputeDisturbances(time, profile, startStep, endStep) == Ok(Zero)
  {
    var t := SelectTable(profile, startStep, endStep).value;
    assert Lookup(time / 60.0, t) == Zero;
    ComputeUsesTable(time, profile, startStep, endStep);
  }

  /**
   The literature profiles end with no disturbance: past 56.5 minutes for
   `realistic`, 100 minutes for `realistic2` and 50 minutes for `simple`.
   */
  lemma QuietAfterLastPoint(time: real, profile: string, startStep: real, endStep: real)
    requires || (profile == "realistic" && time >= 3390.0)
             || (profile == "realistic2" && time >= 6000.0)
             || (profile == "simple" && time >= 3000.0)
    ensures ComputeDisturbances(time, profile, startStep, endStep) == Ok(Zero)
  {
    var t := SelectTable(profile, startStep, endStep).value;
    var last := if profile == "realistic" then 56.5 else if profile == "realistic2" then 100.0 else 50.0;
    assert t[|t| - 1] == (last, 0.0, 0.0, 0.0);
    QuietAfterLastRow(time, profile, startStep, endStep);
  }

  /** Queried at the time of one of its control points, a profile returns that row's offsets exactly. */
  lemma ControlPointExact(profile: string, startStep: real, endStep: real, k: nat)
    requires profile == "step" ==> StepWindowValid(startStep, endStep)
    requires SelectTable(profile, startStep, endStep).Some?
    requires k < |SelectTable(profile, startStep, endStep).value|
    ensures var t := SelectTable(profile, startStep, endStep).value;
      ComputeDisturbances(60.0 * t[k].0, profile, startStep, endStep) == Ok(Sample(t[k].1, t[k].2, t[k].3))
  {
    var t := SelectTable(profile, startStep, endStep).value;
    ComputeUsesTable(60.0 * t[k].0, profile, startStep, endStep);
    assert 60.0 * t[k].0 / 60.0 == t[k].0;
    LookupAtKey(t, k);
  }

  /** `realistic` at 600 s is its third control point, reproduced exactly. */
  lemma RealisticAt600(startStep: real, endStep: real)
    ensures ComputeDisturbances(600.0, "realistic", startStep, endStep) == Ok(Sample(20.0, 10.0, 0.6))
  {
    var t := Realistic;
    RealisticWellFormed();
    LookupAtKey(t, 2);
    ComputeUsesTable(600.0, "realistic", startStep, endStep);
  }

  /** `simple` at 1200 s is its third control point, reproduced exactly. */
  lemma SimpleAt1200(startStep: real, endStep: real)
    ensures ComputeDisturbances(1200.0, "simple", startStep, endStep) == Ok(Sample(20.0, 5.0, 0.3))
  {
    var t := Simple;
    SimpleWellFormed();
    LookupAtKey(t, 2);
    ComputeUsesTable(1200.0, "simple", startStep, endStep);
  }

  /** The step profile holds (10, 5, 0.3) from `startStep` to 0.6 s before `endStep`. */
  lemma StepPlateau(time: real, startStep: real, endStep: real)
    requires StepWindowValid(startStep, endStep)
    requires startStep <= time <= endStep - 0.6
    ensures ComputeDisturbances(time, "step", startStep, endStep) == Ok(Sample(10.0, 5.0, 0.3))
  {
    var t := StepTable(startStep, endStep);
    StepTableWellFormedIff(startStep, endStep);
    assert t[2].0 <= time / 60.0 <= t[3].0;
    LookupOnFlatSegment(time / 60.0, t, 2);
    ComputeUsesTable(time, "step", startStep, endStep);
  }

  /** The step profile is quiet until 0.6 s before `startStep`. */
  lemma StepQuietBefore(time: real, startStep: real, endStep: real)
    requires StepWindowValid(startStep, endStep)
    requires time <= startStep - 0.6
    ensures ComputeDisturbances(time, "step", startStep, endStep) == Ok(Zero)
  {
    var t := StepTable(startStep, endStep);
    StepTableWellFormedIff(startStep, endStep);
    if time <= 0.0 {
      assert Lookup(time / 60.0, t) == Zero;
    } else {
      LookupOnFlatSegment(time / 60.0, t, 0);
    }
    ComputeUsesTable(time, "step", startStep, endStep);
  }

  /** The step profile is quiet again from `endStep` on, through the closing point at 30 minutes and beyond it. */
  lemma StepQuietAfter(time: real, startStep: real, endStep: real)
    requires StepWindowValid(startStep, endStep)
    requires time >= endStep
    ensures ComputeDisturbances(time, "step", startStep, endStep) == Ok(Zero)
  {
    var t := StepTable(startStep, endStep);
    StepTableWellFormedIff(startStep, endStep);
    if time >= 1800.0 {
      assert Lookup(time / 60.0, t) == Zero;
    } else {
      assert t[4].0 <= time / 60.0 <= t[5].0;
      LookupOnFlatSegment(time / 60.0, t, 4);
    }
    ComputeUsesTable(time, "step", startStep, endStep);
  }

  /** With the default window (600 s to 1200 s): on the plateau at 601 s, quiet at 300 s and at 1300 s. */
  lemma StepDefaultExamples()
    ensures StepWindowValid(DefaultStartStep, DefaultEndStep)
    ensures ComputeDisturbances(601.0, "step", DefaultStartStep, DefaultEndStep) == Ok(Sample(10.0, 5.0, 0.3))
    ensures ComputeDisturbances(300.0, "step", DefaultStartStep, DefaultEndStep) == Ok(Zero)
    ensures ComputeDisturbances(1300.0, "step", DefaultStartStep, DefaultEndStep) == Ok(Zero)
  {
    StepPlateau(601.0, DefaultStartStep, DefaultEndStep);
    StepQuietBefore(300.0, DefaultStartStep, DefaultEndStep);
    StepQuietAfter(1300.0, DefaultStartStep, DefaultEndStep);
  }

  /**
   Called with only a time, the generator runs the `realistic` profile: no
   disturbance up to time 0 and from 3390 s on, its control point
   (20, 10, 0.6) at 600 s, and a BIS offset within [-20, 30] throughout.
   */
  lemma DefaultProfile(time: real)
    ensures ComputeDisturbances(600.0) == Ok(Sample(20.0, 10.0, 0.6))
    ensures time <= 0.0 || time >= 3390.0 ==> ComputeDisturbances(time) == Ok(Zero)
    ensures -20.0 <= ComputeDisturbances(time).value.dBis <= 30.0
  {
    RealisticAt600(DefaultStartStep, DefaultEndStep);
    if time <= 0.0 {
      BaselineAtStart(time, "realistic", DefaultStartStep, DefaultEndStep);
    } else if time >= 3390.0 {
      QuietAfterLastPoint(time, "realistic", DefaultStartStep, DefaultEndStep);
    }
    RealisticBisRange(time, DefaultStartStep, DefaultEndStep);
  }

  /**
   No overshoot: between the times of two consecutive control points of the
   profile's table, each channel lies between those two rows' values.
   */
  lemma NoOvershoot(time: real, profile: string, startStep: real, endStep: real, k: nat, c: Channel)
    requires profile == "step" ==> StepWindowValid(startStep, endStep)
    requires SelectTable(profile, startStep, endStep).Some?
    requires k + 1 < |SelectTable(profile, startStep, endStep).value|
    requires var tab := SelectTable(profile, startStep, endStep).value;
      60.0 * tab[k].0 <= time <= 60.0 * tab[k + 1].0
    ensures var tab := SelectTable(profile, startStep, endStep).value;
      var v := ComputeDisturbances(time, profile, startStep, endStep).value.Get(c);
      Min(Pick(tab[k], c), Pick(tab[k + 1], c)) <= v <= Max(Pick(tab[k], c), Pick(tab[k + 1], c))
  {
    var tab := SelectTable(profile, startStep, endStep).value;
    ChannelIsLookup(time, profile, startStep, endStep, c);
    SecondsToMinutes(time, tab[k].0, tab[k + 1].0);
    LookupBetweenRows(time / 60.0, tab, k, c);
  }

  /** A time in seconds between two row times (given in minutes) is, in minutes, between them. */
  lemma SecondsToMinutes(time: real, lo: real, hi: real)
    requires 60.0 * lo <= time <= 60.0 * hi
    ensures lo <= time / 60.0 <= hi
  {
  }

  /** One channel of a table-backed profile is that channel of the table's lookup at the time in minutes. */
  lemma ChannelIsLookup(time: real, profile: string, startStep: real, endStep: real, c: Channel)
    requires profile == "step" ==> StepWindowValid(startStep, endStep)
    requires SelectTable(profile, startStep, endStep).Some?
    ensures ComputeDisturbances(time, profile, startStep, endStep).Ok?
    ensures ComputeDisturbances(time, profile, startStep, endStep).value.Get(c)
      == Lookup(time / 60.0, SelectTable(profile, startStep, endStep).value).Get(c)
  {
    ComputeUsesTable(time, profile, startStep, endStep);
  }

  /**
   Each offset stays within the range of its own column: when every row of
   the profile's table holds a value in `[lo, hi]` on channel `c`, so does
   the output on `c`, at every time.
   */
  lemma OffsetWithinColumnRange(time: real, profile: string, startStep: real, endStep: real, c: Channel, lo: real, hi: real)
    requires profile == "step" ==> StepWindowValid(startStep, endStep)
    requires SelectTable(profile, startStep, endStep).Some?
    requires var tab := SelectTable(profile, startStep, endStep).value;
      forall k :: 0 <= k < |tab| ==> lo <= Pick(tab[k], c) <= hi
    ensures lo <= ComputeDisturbances(time, profile, startStep, endStep).value.Get(c) <= hi
  {
    var tab := SelectTable(profile, startStep, endStep).value;
    ChannelIsLookup(time, profile, startStep, endStep, c);
    LookupWithin(time / 60.0, tab, c, lo, hi);
  }

  /** The `realistic` BIS offset never leaves [-20, 30], whatever the time. */
  lemma RealisticBisRange(time: real, startStep: real, endStep: real)
    ensures -20.0 <= ComputeDisturbances(time, "realistic", startStep, endStep).value.dBis <= 30.0
  {
    OffsetWithinColumnRange(time, "realistic", startStep, endStep, BIS, -20.0, 30.0);
  }

  /**
   Channels are independent: two tables with the same time column and the
   same value column for channel `c` give the same offset on `c`, whatever
   their other columns hold.
   */
  lemma ChannelsIndependent(minutes: real, t1: Table, t2: Table, c: Channel)
    requires WellFormed(t1)
    requires |t1| == |t2|
    requires forall i :: 0 <= i < |t1| ==> t1[i].0 == t2[i].0 && Pick(t1[i], c) == Pick(t2[i], c)
    ensures WellFormed(t2)
    ensures Lookup(minutes, t1).Get(c) == Lookup(minutes, t2).Get(c)
  {
    assert Times(t1) == Times(t2);
    assert Values(t1, c) == Values(t2, c);
  }

  /** `liver_transplantation` is advertised but has no table, so it yields an error and never numbers. */
  lemma LiverTransplantationHasNoTable(time: real, startStep: real, endStep: real)
    ensures ComputeDisturbances(time, "liver_transplantation", startStep, endStep)
      == Err(UnknownProfile("liver_transplantation"))
  {
  }
}
