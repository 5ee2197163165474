# CustomTasks item stopwatch, modelled in Dafny

CustomTasks is an Android to-do list in which each task is also a stopwatch.
Tapping a task calls `Item.trigger()`. On a stopped task this records the
current instant as `startTime` and calls the `onTaskStart` hook. On a running
task it takes the milliseconds since `startTime` and truncates them to whole
seconds. It adds those seconds to `duration`, clears `startTime` and calls the
`onTaskStop` hook with the new total.

This project models that stopwatch:

- `millis.dfy`, module `Millis`: `StandardSeconds`. It is the conversion
  `Duration.millis(...).toStandardSeconds().seconds`. That conversion divides
  by 1000 and truncates toward zero, as Java's `long` division does.
- `item.dfy`, module `Items`:
  - the class `Item` with the entity's fields, its two constructors and the
    method `Trigger`. `Trigger` changes the fields in place and returns an
    `Event` where the source calls a hook;
  - the pure function `Toggle` on a `Timer` value, which specifies `Trigger`;
  - lemmas about one trigger, two triggers and any sequence of triggers
    (`Run`, `Accrued`).

The clock read `Instant.now()` becomes the parameter `now`, in epoch
milliseconds. The ISO-8601 string in `startTime` becomes `Option<int>`, with
`None` for the empty string.

The code does not clamp a negative elapsed time: a stop a full second or more
before the recorded start lowers `duration`. The model follows the code.
`BackwardClockLowersTotal` states this behaviour. `StartThenStop`,
`RunNeverLowersTotal` and `Accrued` assume a clock that never goes back, and
under that assumption they show the total never decreases.

## Model

| member | source | states |
|---|---|---|
| `Millis.StandardSeconds` | app/src/main/java/com/example/customtasks/Item.kt:46-47 | the whole seconds in a millisecond span, truncated toward zero: for a non-negative span `r*1000 <= ms < (r+1)*1000`, for a non-positive one `(r-1)*1000 < ms <= r*1000 <= 0` |
| `Millis.StandardSecondsNegate` | app/src/main/java/com/example/customtasks/Item.kt:46-47 | reversing a span negates its seconds (truncation toward zero, not flooring) |
| `Millis.StandardSecondsMonotone` | app/src/main/java/com/example/customtasks/Item.kt:46-47 | a longer span never holds fewer whole seconds |
| `Items.Toggle` | app/src/main/java/com/example/customtasks/Item.kt:42-56 | one trigger flips the running state; a start records `now` and leaves `duration` unchanged; a stop adds the truncated whole seconds since the start; the event is a start exactly when the timer ends up running, and it reports the trigger instant and the total after the trigger |
| `Items.ToggleStops` | app/src/main/java/com/example/customtasks/Item.kt:44-47 | when the clock has not gone back (`now >= start`), a stop adds exactly `(now - start) / 1000` seconds |
| `Items.BackwardClockLowersTotal` | app/src/main/java/com/example/customtasks/Item.kt:44-47 | no clamp: a stop lowers `duration` if and only if it comes 1000 ms or more before the recorded start; a step back of less than a second credits nothing |
| `Items.StartThenStop` | app/src/main/java/com/example/customtasks/Item.kt:43-54 | start at `t0` then stop at `t1 >= t0` leaves the item stopped with `(t1 - t0) / 1000` seconds added |
| `Items.ToggleTwice` | app/src/main/java/com/example/customtasks/Item.kt:42-56 | two triggers restore the running state; a running item credits the run the first trigger ends and restarts at the second; a stopped item credits the run between the two |
| `Items.Accrued` | app/src/main/java/com/example/customtasks/Item.kt:43-48 | over ordered instants, the seconds credited by successive start/stop pairs are never negative and never exceed the wall time from the first to the last instant |
| `Items.RunFromStopped` | app/src/main/java/com/example/customtasks/Item.kt:42-56 | triggering a stopped item at a sequence of instants adds exactly the credit of the completed runs; it ends stopped after an even number of triggers and running since the last instant after an odd number |
| `Items.RunCreditWithinWallTime` | app/src/main/java/com/example/customtasks/Item.kt:42-56 | on a clock that never goes back, the seconds a stopped item gains over two or more triggers are never negative and never exceed the wall time from the first trigger to the last |
| `Items.RunNeverLowersTotal` | app/src/main/java/com/example/customtasks/Item.kt:43-54 | on a clock that never goes back, no sequence of triggers lowers `duration` |
| `Items.Item.constructor` | app/src/main/java/com/example/customtasks/Item.kt:20-30 | a new item has id 0, blank name and description, is stopped and has `duration` 0 |
| `Items.Item.WithNameAndData` | app/src/main/java/com/example/customtasks/Item.kt:32-35 | the two-argument constructor sets only `name` and `data`; everything else is as for a new item |
| `Items.Item.Trigger` | app/src/main/java/com/example/customtasks/Item.kt:42-56 | changes `startTime` and `duration` exactly as `Toggle` does, returns the event `Toggle` reports in place of the hook call, and leaves `id`, `name` and `data` untouched |
| `Items.StartStopRestart` | app/src/main/java/com/example/customtasks/Item.kt:42-56 | a named item started at `t0`, stopped at `t0 + 125000` ms and started again then reports a start with 0 s, a stop with 125 s and a restart with 125 s |

## Left out

- `Instant.now()` is not modelled: the current instant is the parameter `now` of `Trigger` and `Toggle`.
- `Instant.parse` and `Instant.toString` are not modelled: `startTime` is an optional instant in milliseconds. A non-empty string that does not parse (an exception in the source) cannot be expressed.
- The hooks `onTaskStart` and `onTaskStop` are closure-valued fields in the source. The model returns their arguments as an `Event` and does not store behaviour.
- `Millis.StandardSeconds` does not model the exception Joda-Time raises when the seconds do not fit in a 32-bit `Int` (a run of more than about 68 years). It is a library limit, not task logic.
- `Items.Item.Trigger` does not model 64-bit wrap-around of `duration` or of the millisecond difference. The model uses unbounded integers; Kotlin `Long` overflow needs totals far beyond any real clock.
- `Items.Item.constructor` does not model `id` as a 32-bit value or its auto-generation by Room. Both belong to the database, which is not part of this model.
- The task store (`ItemsViewModel` and the Room DAO) is not part of this model. Only its calls from `MainActivity.kt` are, so insert, update, delete and ordering cannot be stated against code.
- The activities (`MainActivity.kt`, `TaskEditActivity.kt`) are user-interface code: lists, swipes, menus, intents and toasts. They are not modelled.
