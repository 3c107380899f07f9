# Surgical-stimulus disturbance generator

A Dafny model of `compute_disturbances` in the Python Anesthesia Simulator. The
function returns the additive disturbances to the BIS, MAP and CO signals of a
simulated patient at a given simulation time. The named profile picks a table of
control points `(time in minutes, dBIS, dMAP, dCO)`:

- `realistic`, `realistic2` and `simple` use fixed tables taken from the clinical
  literature.
- `step` builds its table from the step window `start_step`/`end_step`, given
  in seconds.
- `null` returns `[0, 0, 0]` without reading any table.

The time is converted from seconds to minutes. Each channel is then interpolated
on its own with numpy's `interp`: linear between control points and flat
outside the table.

Files:

- `interpolation.dfy` (module `Interpolation`): numpy's `interp` over strictly
  increasing keys. It is a recursive function over the key sequence whose
  contract gives flat extrapolation before the first key and after the last,
  together with lemmas that characterise the rest:
  the straight line between bracketing keys, exact at every key, no overshoot,
  and never outside the range of the values.
- `disturbances.dfy` (module `Disturbances`): the three literal tables, the
  synthesised step table, the choice of table by profile name, and
  `ComputeDisturbances` itself.
- `profiles.dfy` (module `Profiles`): what each profile promises. Every profile
  is quiet at time 0 and before it (the step profile for the windows the
  model covers, see "## Left out"). The literature profiles are quiet after
  their last point. Control points are reproduced exactly. The step pulse has
  a plateau and quiet flanks. Each output stays within its column's range, and
  the channels are independent.

Arithmetic is on `real`, not floating point. Every constant is a decimal
literal, and the only operations are `/ 60`, `- 0.01` and the interpolation
formula. The model uses numpy's form of that formula: slope times the distance
from the left key, plus the left value. The functions are pure, so repeated
calls with the same arguments give the same result.

The function's documentation lists `liver_transplantation` among the profiles,
but the code has no branch for it. A name with no branch produces no numbers:
the table variable is still unbound when the interpolation at line 119 reads
it, so the call raises. The model returns `Err(UnknownProfile(name))` for every
such name, `liver_transplantation` included.

The step table has six control points: a zero baseline at minute 0, a zero
point 0.01 minute before the pulse, the two pulse points, the zero point that
ends the pulse, and a zero closing point at minute 30. The times of the three
literature tables strictly increase, so no two of their control points share a
time. The step table's times strictly increase only for some windows: the
model covers exactly those (`StepWindowValid`, see "## Left out").

When called with only a time, the generator uses the `realistic` profile and the
step window 600 s to 1200 s.

## Model

| member | source | states |
|---|---|---|
| Interpolation.Lerp | src/python_anesthesia_simulator/disturbances.py:119-121 | the line through two control points passes through both and, between their keys, stays between their two values |
| Interpolation.Interp | src/python_anesthesia_simulator/disturbances.py:119-121 | numpy's interp on strictly increasing keys extrapolates flat: at or before the first key it gives the first value, at or after the last key the last value |
| Interpolation.InterpOnSegment | src/python_anesthesia_simulator/disturbances.py:119-121 | between keys i and i+1 the result is the straight line through control points i and i+1 |
| Interpolation.InterpAtKey | src/python_anesthesia_simulator/disturbances.py:119-121 | queried at a key, the result is exactly that control point's value |
| Interpolation.InterpFlatSegment | src/python_anesthesia_simulator/disturbances.py:119-121 | a segment whose two values are equal is constant |
| Interpolation.InterpNoOvershoot | src/python_anesthesia_simulator/disturbances.py:119-121 | for t1 <= t <= t2 in one segment, the value at t lies between the values at t1 and t2 |
| Interpolation.InterpWithin | src/python_anesthesia_simulator/disturbances.py:119-121 | when every value lies in [lo, hi], every interpolated value does too |
| Disturbances.Lookup | src/python_anesthesia_simulator/disturbances.py:119-121 | the three channels share the time column; at or before the first row's time all three hold the first row's deltas, at or after the last row's time the last row's deltas |
| Disturbances.RealisticWellFormed | src/python_anesthesia_simulator/disturbances.py:32-57 | the realistic table has 26 rows, starts at (0, 0, 0, 0), ends at (56.5, 0, 0, 0) and its times strictly increase |
| Disturbances.Realistic2WellFormed | src/python_anesthesia_simulator/disturbances.py:64-89 | the realistic2 table has 26 rows, starts at (0, 0, 0, 0), ends at (100, 0, 0, 0) and its times strictly increase |
| Disturbances.SimpleWellFormed | src/python_anesthesia_simulator/disturbances.py:97-107 | the simple table has 11 rows, starts at (0, 0, 0, 0), ends at (50, 0, 0, 0) and its times strictly increase |
| Disturbances.StepTable | src/python_anesthesia_simulator/disturbances.py:109-114 | six rows: zero at minute 0 and at minute 30; zero at start/60 - 0.01 and at end/60; the pulse (10, 5, 0.3) at start/60 and at end/60 - 0.01 |
| Disturbances.StepTableWellFormedIff | src/python_anesthesia_simulator/disturbances.py:109-114 | the synthesised step times strictly increase if and only if 0 < start/60 - 0.01, start/60 < end/60 - 0.01 and end/60 < 30 |
| Disturbances.SelectTable | src/python_anesthesia_simulator/disturbances.py:26-117 | a table is chosen exactly for realistic, realistic2, simple and step; it is well formed and starts at (0, 0, 0, 0) |
| Disturbances.ComputeDisturbances | src/python_anesthesia_simulator/disturbances.py:4-123 | an error exactly for a name outside the five branches, carrying that name; null gives (0, 0, 0) at every time; the profile defaults to realistic and the window to 600-1200 s |
| Profiles.LookupAtKey | src/python_anesthesia_simulator/disturbances.py:119-121 | at a row's time, all three channels return that row's values |
| Profiles.LookupOnFlatSegment | src/python_anesthesia_simulator/disturbances.py:119-121 | between two rows with equal values, all three channels hold those values |
| Profiles.LookupWithin | src/python_anesthesia_simulator/disturbances.py:119-121 | a channel whose column lies in [lo, hi] is looked up inside [lo, hi] at every time |
| Profiles.LookupNoOvershoot | src/python_anesthesia_simulator/disturbances.py:119-121 | for minutes m1 <= m <= m2 inside one segment of a table, each channel at m lies between its values at m1 and m2 |
| Profiles.LookupBetweenRows | src/python_anesthesia_simulator/disturbances.py:119-121 | between two consecutive rows' times, each channel lies between the two rows' values |
| Profiles.BaselineAtStart | src/python_anesthesia_simulator/disturbances.py:26-121 | every known profile gives (0, 0, 0) at any time <= 0 s |
| Profiles.QuietAfterLastRow | src/python_anesthesia_simulator/disturbances.py:119-121 | a table-backed profile whose last row is (0, 0, 0) gives (0, 0, 0) from 60 times that row's minute on |
| Profiles.QuietAfterLastPoint | src/python_anesthesia_simulator/disturbances.py:32-121 | (0, 0, 0) from 3390 s for realistic, from 6000 s for realistic2 and from 3000 s for simple |
| Profiles.ControlPointExact | src/python_anesthesia_simulator/disturbances.py:119-121 | at 60 times a row's minute, a table-backed profile returns that row's three deltas |
| Profiles.RealisticAt600 | src/python_anesthesia_simulator/disturbances.py:34 | realistic at 600 s is (20, 10, 0.6), its control point at minute 10 |
| Profiles.SimpleAt1200 | src/python_anesthesia_simulator/disturbances.py:99 | simple at 1200 s is (20, 5, 0.3), its control point at minute 20 |
| Profiles.StepPlateau | src/python_anesthesia_simulator/disturbances.py:109-121 | with a valid window, step gives (10, 5, 0.3) for start_step <= time <= end_step - 0.6 |
| Profiles.StepQuietBefore | src/python_anesthesia_simulator/disturbances.py:109-121 | with a valid window, step gives (0, 0, 0) for time <= start_step - 0.6 |
| Profiles.StepQuietAfter | src/python_anesthesia_simulator/disturbances.py:109-121 | with a valid window, step gives (0, 0, 0) for time >= end_step, through 1800 s and beyond |
| Profiles.StepDefaultExamples | src/python_anesthesia_simulator/disturbances.py:5-121 | the default window 600-1200 s is valid; step gives (10, 5, 0.3) at 601 s and (0, 0, 0) at 300 s and 1300 s |
| Profiles.DefaultProfile | src/python_anesthesia_simulator/disturbances.py:4-121 | called with only a time, the generator gives realistic: (20, 10, 0.6) at 600 s, (0, 0, 0) up to 0 s and from 3390 s, and a BIS offset in [-20, 30] |
| Profiles.NoOvershoot | src/python_anesthesia_simulator/disturbances.py:119-121 | between the times of two consecutive control points of a profile's table, each channel lies between those two rows' values |
| Profiles.OffsetWithinColumnRange | src/python_anesthesia_simulator/disturbances.py:119-121 | when every row holds a value in [lo, hi] on a channel, that channel's output is in [lo, hi] at every time |
| Profiles.RealisticBisRange | src/python_anesthesia_simulator/disturbances.py:32-57 | the realistic BIS offset stays in [-20, 30] at every time |
| Profiles.ChannelsIndependent | src/python_anesthesia_simulator/disturbances.py:119-121 | two tables with the same time column and the same column for channel c give the same output on c, whatever the other columns hold |
| Profiles.LiverTransplantationHasNoTable | src/python_anesthesia_simulator/disturbances.py:14-119 | liver_transplantation, though documented, yields UnknownProfile and no numbers |

## Left out

- Floating point. IEEE-754 rounding of `time / 60`, `start_step / 60 - 0.01` and numpy's interpolation is not modelled; the model computes on exact rationals.
- numpy's behaviour on keys that do not increase strictly, and on NaN. numpy does not check its keys, and its documentation calls the result on keys that are not increasing nonsense; the model does not define it.
- ComputeDisturbances: the step profile is modelled only for windows whose six times strictly increase (`StepWindowValid`). This leaves out start_step <= 0.6 s, end_step - start_step <= 0.6 s and end_step >= 1800 s. These are ordinary windows, and for them the source still returns numbers, but they come from numpy's search over keys that do not increase. With end_step = 1800 s the last two rows share minute 30. With end_step > 1800 s the closing point at minute 30 is still the last row but no longer the largest time; numpy returns that row's value, 0, for every time past minute 30, so the pulse holds at most through 1800 s and is 0 after it. With start_step <= 0.6 s the second time is not above the first, and the source can return the pulse's value at time 0. The model does not cover these windows.
- The Python exception type. An unknown profile name raises `UnboundLocalError` at line 119 of the source; the model returns `Err(UnknownProfile(name))` instead.
- A table for `liver_transplantation`. The source has none, and none is invented here.
- The rest of the simulator: the patient PK/PD models, the TCI controller, the metrics, the documentation build configuration and the random-generation test. None of them is part of the disturbance generator. The package's `__init__.py` touches the generator only by re-exporting `compute_disturbances`.
