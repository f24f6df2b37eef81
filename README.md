# Session timer and table layout of a restaurant-floor game, modelled in Dafny

This project models two MonoBehaviours of a Unity restaurant game and proves
properties of the models.

- **`Timer`** (module `Countdown`, `timer.dfy`) is the session countdown. It has
  three fields: `initialTime`, `remainingTime` and `timerEnded`. `Update`
  subtracts the frame time while time remains. Once time has run out, it sets the
  `timerEnded` latch exactly once. `ResetTimer` and `Start` re-apply the duration
  policy and restart the countdown. The policy is 300 s on days 6 and 7 and 180 s
  on all other days. When there is no day manager, the configured value stays.
  `Update` also shows the remaining time as minutes and seconds.
  The class `Countdown.Timer` has these fields and methods. Each method's
  contract links the new state to a pure function of the old state: `Tick` for
  `Update`, `Reset` for `ResetTimer` and `Start`, `DurationFor` for
  `SetInitialTime`. The lemmas are about those functions. `DayDuration` is the
  `dayDuration` getter and returns `initialTime`.
- **`TableLayout`** (module `Layout`, `table_layout.dfy`) arranges a table and its
  chairs. `AlignTableAndChairs` moves the table to a position. It then writes each
  chair's position and yaw in place, by index. A four-chair "long" set gets two
  chairs per side, staggered in z. A two-chair "small" set gets one chair per
  side. Each chair faces the table. `AlignMultipleSets` lays out long tables and
  then small tables along x. Between tables the cursor advances by the table's
  width plus `tableSpacing`. A chair array is an `array?<Option<Pose>>`: a `null`
  array is an unassigned `chairObjects`, and a `None` entry is an unassigned
  chair. The method's contract gives the array's new contents as the value
  function `Arranged` of the old contents. `Align` does the same for a whole set.

Inputs from outside the two classes become parameters:

- the day number read from the `DayManager` is `currentDay: Option<int>`, with `None` when none is assigned;
- `Time.deltaTime` is `delta`;
- the renderer-bounds width of a table is `tableWidth` (`longWidth`, `smallWidth`).

C# `float` is modelled by `real`. Two C# operations are written out:
`Mathf.FloorToInt` rounds down (`FloorToInt`), and `%` on floats truncates toward
zero (`Rem60`).

The countdown is not clamped at 0. The last running frame can take
`remainingTime` below zero, by less than that frame's `delta`, and the latch is
set on the following frame. When the time lands less than a minute below zero,
the display shows minute -1 and seconds in -60..-1 (`NegativeTimeDisplay`).

## Model

| member | source | states |
|---|---|---|
| `Countdown.DurationFor` | Assets/Timer.cs:70-84 | with a day source the duration is 300 exactly on days 6 and 7 and 180 exactly on all other days; without one the configured value is kept |
| `Countdown.Rem60` | Assets/Timer.cs:48 | C# float `% 60` lies in [0, 60) for a non-negative dividend and in (-60, 0] for a negative one, and differs from the dividend by a whole multiple of 60, so it is the remainder of division truncated toward zero |
| `Countdown.FloorToInt` | Assets/Timer.cs:47-48 | the result is the greatest integer not above its argument |
| `Countdown.Display` | Assets/Timer.cs:47-48 | the minute count is the whole number of minutes in the time; the seconds lie in 0..59 when the time is not negative and in -60..0 when it is |
| `Countdown.DisplaySplit` | Assets/Timer.cs:47-48 | for a time r >= 0: minutes = floor(r/60), seconds in 0..59, and minutes*60 + seconds = floor(r) |
| `Countdown.NegativeTimeDisplay` | Assets/Timer.cs:32-48 | for a time in (-60, 0), which the last running frame can produce, the display shows minute -1 and seconds in -60..-1 |
| `Countdown.Tick` | Assets/Timer.cs:30-61 | one frame of `Update`: it never changes initialTime, never clears the latch, and keeps the invariant "ended implies no time left"; `TickWhileRunning` and `TickWhenOut` pin down each branch |
| `Countdown.Reset` | Assets/Timer.cs:63-68 | `ResetTimer` and the state part of `Start` (Timer.cs:25-27): the remaining time restarts at the new initialTime with the latch clear, and with a day source that duration is 300 or 180; `ResetRestarts` and `ResetIdempotent` give the rest |
| `Countdown.TickWhileRunning` | Assets/Timer.cs:32-34 | while time remains a frame subtracts exactly delta, unclamped (the result stays above -delta), and changes neither the latch nor initialTime, and does not fire |
| `Countdown.TickWhenOut` | Assets/Timer.cs:51-61 | once time has run out a frame keeps the time and initialTime and sets the latch; it fires exactly when the latch was clear, and with the latch set it changes nothing |
| `Countdown.LatchPreserved` | Assets/Timer.cs:30-68 | frames and resets keep the invariant "ended implies no time left" |
| `Countdown.ResetRestarts` | Assets/Timer.cs:63-68 | after a reset initialTime is the recomputed duration, remainingTime equals it, and the latch is clear |
| `Countdown.ResetIdempotent` | Assets/Timer.cs:63-68 | a second reset on the same day gives the state the first one gave |
| `Countdown.EndedStaysEnded` | Assets/Timer.cs:51-61 | from a latched state any sequence of frames keeps the latch and never fires |
| `Countdown.FiresAtMostOnce` | Assets/Timer.cs:51-61 | over any sequence of frames TimerEnded runs at most once, and not at all when the latch is already set |
| `Countdown.FiresOnceWhenTimeRunsOut` | Assets/Timer.cs:30-61 | when the frames before the last add up to at least the time left, TimerEnded runs exactly once and the timer ends latched |
| `Countdown.Timer.DayDuration` | Assets/Timer.cs:11 | the day's length as callers read it: the current initialTime, which after `Start` or `ResetTimer` is `DurationFor` of the day and the previous value, and equals the remaining time the countdown restarted from |
| `Countdown.Timer.constructor` | Assets/Timer.cs:9-14 | a fresh timer has the configured initialTime, no remaining time and a clear latch |
| `Countdown.Timer.Start` | Assets/Timer.cs:18-28 | the new state is `Reset` of the old one on the given day, the same state ResetTimer produces |
| `Countdown.Timer.Update` | Assets/Timer.cs:30-55 | the new state is `Tick` of the old one; it reports whether TimerEnded ran, and shows `Display` of the new time exactly on a running frame; the latch invariant is kept |
| `Countdown.Timer.TimerEnded` | Assets/Timer.cs:57-61 | sets the latch and changes nothing else |
| `Countdown.Timer.ResetTimer` | Assets/Timer.cs:63-68 | the new state is `Reset` of the old one: initialTime recomputed, remainingTime equal to it, latch clear |
| `Countdown.Timer.SetInitialTime` | Assets/Timer.cs:70-84 | initialTime becomes `DurationFor` of the day and the old value; nothing else changes |
| `Layout.FacingYaw` | Assets/Objects/TableLayout.cs:56 | a chair turns to yaw 90 exactly when its x offset is negative, and to -90 otherwise |
| `Layout.PlaceChair` | Assets/Objects/TableLayout.cs:42-79 | the per-index body of both chair loops: an unassigned chair stays unassigned, a set of any size other than 2 or 4 is left as it was, and a placed chair keeps the table's y and faces +90 or -90; `LongSetPlacement`, `SmallSetPlacement` and `ChairsFaceTable` give its exact x, z and yaw |
| `Layout.Arranged` | Assets/Objects/TableLayout.cs:36-81 | the chair array keeps its length and its unassigned entries; an array of any length other than 2 or 4 is unchanged |
| `Layout.Align` | Assets/Objects/TableLayout.cs:24-82 | a set with no table or no chair array is unchanged; otherwise the table ends exactly at the position with its yaw kept |
| `Layout.Advance` | Assets/Objects/TableLayout.cs:104-118 | the cursor never changes in y or z |
| `Layout.LongSetPlacement` | Assets/Objects/TableLayout.cs:37-58 | in a four-chair set chairs 0 and 1 get x = pos.x - (w/2)(1+d) and chairs 2 and 3 x = pos.x + (w/2)(1+d); even chairs get z = pos.z - spacing, odd ones pos.z + spacing; all keep y = pos.y |
| `Layout.SmallSetPlacement` | Assets/Objects/TableLayout.cs:60-80 | in a two-chair set chair 0 gets x = pos.x - (w/2)(1+d), chair 1 x = pos.x + (w/2)(1+d), both with the table's y and z |
| `Layout.ChairsFaceTable` | Assets/Objects/TableLayout.cs:44-79 | for w > 0 a placed chair has yaw 90 exactly when it is on the left half of the index range, and -90 otherwise; when 1 + d > 0 yaw 90 holds exactly for the chairs left of the table |
| `Layout.AlignOverwrites` | Assets/Objects/TableLayout.cs:102-119 | aligning a set again overwrites the earlier alignment, so a set re-aligned in a loop ends where the last alignment put it |
| `Layout.AdvanceClosedForm` | Assets/Objects/TableLayout.cs:104-118 | after n tables the cursor is start + n*(width + tableSpacing) in x, with y and z unchanged |
| `Layout.TableChairSet.constructor` | Assets/Objects/TableLayout.cs:9-13 | a set holds the given table and chair array |
| `Layout.TableLayout.constructor` | Assets/Objects/TableLayout.cs:15-22 | the spacing settings start at 0.5, 0.8 and 2.0, and the two sets are the given distinct objects |
| `Layout.TableLayout.AlignTableAndChairs` | Assets/Objects/TableLayout.cs:24-82 | the set's new value is `Align` of its old value: nothing changes on an early return, otherwise the table moves to the position and the chair array becomes `Arranged` of its old contents; the array reference is kept |
| `Layout.TableLayout.AlignMultipleSets` | Assets/Objects/TableLayout.cs:102-119 | long tables first, then small tables; each set ends aligned at the last cursor position used for it (start advanced by width + tableSpacing per table placed); it stops, with the small set untouched, when the long set has no table |

## Left out

- Text output: the `TextMeshProUGUI` string formatting and the red/white colour switch at 10 seconds are not modelled. Only the minutes and seconds shown are modelled.
- `Debug.Log` in `TimerEnded` is logging and is not modelled. `Update` reports the call as `fired`.
- `DayManager` is not part of this model: the current day is an input, and the day advance is not modelled. The `OnDayAdvance` subscription in `Start` is not modelled either. A day advance reaches the timer as an explicit `ResetTimer` call.
- `Time.deltaTime` and the frame loop are replaced by an explicit `delta` for each `Update` call.
- Countdown.FloorToInt: `Mathf.FloorToInt` returns a 32-bit `int`; the model returns an unbounded `int`. The 32-bit width is not modelled; the displayed values stay far inside it because they are bounded by the session duration.
- IEEE float rounding is not modelled. All arithmetic is exact `real` arithmetic, and no claim is made about rounding.
- `GetObjectBounds`, `Renderer.bounds` and `Bounds.Encapsulate` are not modelled. They are Unity library calls, so a table's bounds width is an input. The bounds size does not depend on where the table stands, so each set has one width. This assumes the chairs are not inside the table's renderer hierarchy: `GetComponentsInChildren` would otherwise include chair renderers, and the width measured before the chairs are placed could differ from the one measured after. `tableDepth` is computed but never used.
- `Quaternion.Euler(0, yaw, 0)` is modelled as the yaw alone. The model does not show that writing the rotation also resets a chair's pitch and roll to zero.
- Aliasing between scene objects is not modelled: the same chair object at two indices, or a table that is also a chair. Each array entry is its own transform value.
- Layout.TableLayout.AlignMultipleSets: requires the two serialized sets to be distinct objects, with distinct chair arrays. Unity serialization gives each field its own instance. The behaviour of a layout whose two fields share one set is not modelled.
- A `null` set passed to `AlignTableAndChairs` would throw. Sets are modelled as non-null references, because Unity creates serialized sets.
- When a set has no table, `GetObjectBounds` throws inside `AlignMultipleSets`. The model ends the method there and returns `completed == false`. It does not model the exception being passed on to Unity.
