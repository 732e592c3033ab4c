# Night Shift: the night simulation, modelled in Dafny

Night Shift is a browser survival-horror game. The player guards an office
through a compressed night of six in-game hours. They close two doors, switch
two lights and watch a camera monitor, and every switch drains a shared
battery. Two antagonists, `blue` and `red`, walk fixed paths from the stage
(location 0) to the office door (location 7). This project models the engine
behind the game:

- the one-second tick that advances the clock, drains the battery and forces
  a blackout;
- the antagonist tick that rolls each antagonist's move against its
  aggression and settles the contest at the door;
- the player commands on doors, lights and the monitor;
- the screen transitions of a session (title, custom setup, intro, play,
  jumpscare, win, ending);
- the configuration it reads: the aggression table, the default settings and
  the hour length.

Files:

- `types.dfy` (module `Types`): views, antagonist names, the per-antagonist
  record, antagonists, settings.
- `constants.dfy` (module `Constants`): the hour length, the default settings,
  both paths, the initial antagonists, the aggression table.
- `switches.dfy` (module `Switches`): the five switches and what each command
  does to them.
- `time_power.dfy` (module `TimePower`): drain, usage, the power step, the
  clock step, the decision cadence, and their iteration over many ticks.
- `ai.dfy` (module `AntagonistAI`): one antagonist decision, and a decision
  round over blue and then red.
- `session.dfy` (module `Night`): the `Session` class. It holds the mutable
  state that the commands and both ticks share. It also has the loop of a
  decision round (`DecideRound`).

Randomness is passed in as parameters. Each antagonist's 1..20 roll and its
advance-or-retreat draw form a `Dice` value. The blackout draw is a `real`.
Each parameter is compared exactly as the game compares it: `roll <= aiLevel`,
`draw > 0.25` to advance, `draw < 0.2` to lose in a blackout. Power, drain and
time are exact `real`s. The timers are explicit method calls: `AiTick`,
`TimePowerTick`, and `IntroElapsed` for the end of the 4000 ms intro.

`Session.Valid()` is the invariant that every command and tick keeps:

- the settings have a night of at least 1, a starting power of at least 0 and
  a positive hour length;
- `0 <= time <= 6` and `power >= 0`;
- each antagonist walks its own path and stands on it;
- at most one light is on;
- with no power, every switch is off;
- the view is never `gameover`;
- a jumpscare view always names its source.

Some behaviours of the game worth knowing when reading the lemmas:

- On night 1 with both doors shut and one light on, the drain is 1.3 per
  second (0.2 base + 0.6 + 0.5), so a full battery blacks out on tick 77
  (`FullBatteryBothDoorsOneLight`).
- Pressing the left light twice restores the left light and leaves the right
  light off, because the first press switches it off (`ToggleLightTwice`).
- The monitor command switches both lights off whenever it is pressed, both
  when it opens and when it closes the monitor. The light command does not
  close the monitor, so "monitor open and a light on" is reachable and is not
  part of the invariant.

## Model

| member | source | states |
|---|---|---|
| `Types.PerAnimatronic.Set` | types.ts:11-14 | The antagonist state holds exactly one value per antagonist: replacing one antagonist's entry leaves the other's untouched. |
| `Types.AnimatronicNamesAreTwo` | types.ts:3 | There are exactly two antagonist names, `blue` and `red`. |
| `Constants.GetAggression` | constants.ts:16-25 | Every aggression is in 0..20, red's never exceeds blue's, and every night outside 1..5 (0, negatives, 6 and above) gets 20/20. |
| `Constants.AggressionTable` | constants.ts:18-23 | The table rows: (2,1), (6,4), (8,8), (12,10), (16,15) for nights 1-5, and 20/20 for nights 0 and 6. |
| `Constants.AggressionMonotone` | constants.ts:18-23 | From night 1 on, a later night is never less aggressive, for blue and for red. |
| `Constants.DefaultSettingsAreNightOne` | constants.ts:1-9 | The default settings are valid, carry night 1's aggression (2, 1), and use the 8000 ms default hour. |
| `Constants.InitialAnimatronics` | App.tsx:322-325 | A fresh shift puts both antagonists on the stage, each on its own path. |
| `Constants.PathsShape` | types.ts:6 | Both paths have five distinct locations in 0..7, run from the stage (0) to the door (7), and share only those two ends. |
| `Switches.ToggleDoor` | App.tsx:385-390 | The door command flips the door on its side and changes no other switch. |
| `Switches.ToggleLight` | App.tsx:392-402 | The light command flips the light on its side and leaves the opposite light off, so at most one light is on afterwards. |
| `Switches.ToggleCamera` | App.tsx:404-412 | The monitor command flips the monitor, puts both lights out whether it opens or closes, and keeps the doors. |
| `Switches.ToggleDoorTwice` | App.tsx:388-389 | Two door commands on one side undo each other. |
| `Switches.ToggleLightTwice` | App.tsx:395-401 | Two light commands on one side restore that light and leave the opposite light off. |
| `Switches.CommandsKeepOneLight` | App.tsx:385-412 | No command can turn on both lights at once. |
| `TimePower.AiTickRate` | App.tsx:422 | The decision cadence is the larger of 2000 ms and 5000 - 500 * night ms. |
| `TimePower.AiTickRateNonIncreasing` | App.tsx:422 | A later night decides at least as often, and from night 6 on the cadence is 2000 ms. |
| `TimePower.Drain` | App.tsx:520-525 | The drain is the night's base rate 0.15 + 0.05 * night, exactly that with every switch off, and at most 1.9 above it with every switch on. |
| `TimePower.DrainStrictlyMonotone` | App.tsx:520-525 | Turning on any further switch strictly increases the drain, and the drain is never below the night's base rate of 0.15 + 0.05 * night. |
| `TimePower.DrainPositive` | App.tsx:520 | On any night of at least 1, the drain is at least 0.2 per second. |
| `TimePower.Ceil` | App.tsx:527 | The ceiling: the least integer not below its argument. |
| `TimePower.Usage` | App.tsx:527 | Usage is the drain counted in quarters, rounded up. |
| `TimePower.UsageMonotone` | App.tsx:527 | More drain never shows less usage. |
| `TimePower.UsageExamples` | App.tsx:520-527 | An idle office shows usage 1 on night 1 and 2 on night 5; both doors and one light on night 1 show 6. |
| `TimePower.DrainPower` | App.tsx:529-543 | A blackout happens exactly when the drain would leave no power, and then power is exactly 0. Power never goes negative, never rises, and otherwise falls by the drain. |
| `TimePower.PowerAfterClosedForm` | App.tsx:529-543 | At a fixed drain, power after n ticks is p - n * drain while that is positive, and exactly 0 afterwards. |
| `TimePower.BlackoutTick` | App.tsx:529-543 | Power reaches exactly 0 after Ceil(p / drain) ticks and is still positive after any fewer ticks. |
| `TimePower.FullBatteryBothDoorsOneLight` | App.tsx:520-543 | Night 1 with both doors and one light drains 1.3 per second; a full battery lasts 76 ticks and blacks out on tick 77. |
| `TimePower.HourIncrement` | App.tsx:509 | Each tick adds 1000 / hourLengthMs hours, a positive amount. |
| `TimePower.AdvanceTime` | App.tsx:508-517 | The shift is won exactly when the clock would reach 6, and then the clock reads exactly 6. The clock never exceeds 6, never goes back, and otherwise rises by the increment. |
| `TimePower.TimeAfterClosedForm` | App.tsx:508-517 | The clock after n uninterrupted ticks is t + n * increment until it reaches 6, and exactly 6 afterwards. |
| `TimePower.WinsOnTickExactly` | App.tsx:512-515 | Tick n + 1 ends the shift exactly when n + 1 increments reach hour 6. |
| `TimePower.DefaultNightLasts48Ticks` | constants.ts:1 | With the 8000 ms hour each tick adds 1/8 hour; ticks 1-47 do not end the night, tick 48 does, and the clock then reads 6. |
| `AntagonistAI.IndexOf` | App.tsx:446 | The first position of a location in a path, or -1 exactly when the location is not on it. |
| `AntagonistAI.IndexOfDistinct` | App.tsx:446 | On a path without repeats, looking up the location at a position gives back that position. |
| `AntagonistAI.StepAntagonist` | App.tsx:440-486 | An antagonist stays exactly when its roll exceeds its aggression. It attacks exactly when the roll qualifies, it is at the door and the door is open. Every move lands on its path. |
| `AntagonistAI.StepIsOneHop` | App.tsx:445-485 | On a stage-to-door path, a move goes one position forward or back, or from the door back to the stage, and that only when the door is closed. |
| `AntagonistAI.StepDirection` | App.tsx:473-484 | With a qualifying roll on a stage-to-door path: from the stage the antagonist always advances; between stage and door it advances on a draw above 0.25 and retreats on any other draw; at a closed door it goes back to the stage. |
| `AntagonistAI.PathsAreStageToDoor` | App.tsx:322-325 | Both antagonists' paths are stage-to-door paths without repeats, so the step lemmas hold for the session's antagonists. |
| `AntagonistAI.Resolve` | App.tsx:437-486 | One antagonist's decision within a round keeps both paths and never touches the other antagonist. |
| `AntagonistAI.ResolveAll` | App.tsx:436-487 | A sequence of decisions keeps both paths. |
| `AntagonistAI.AiRound` | App.tsx:436-487 | A round over blue then red keeps both paths. |
| `AntagonistAI.AiRoundIsIndependent` | App.tsx:436-487 | Each antagonist ends where its own step puts it. The round reports a move when either antagonist moved. When both attack, red's attack is the one reported, since red decides after blue. |
| `AntagonistAI.AiRoundKeepsOnPaths` | App.tsx:436-487 | After a round, every antagonist is still a member of its own path. |
| `AntagonistAI.BlueNightOneApproach` | App.tsx:444-476 | On night 1, blue at location 5 with roll 1 and a forward draw reaches the door. From the door, with the left door open, a qualifying roll ends the night with blue named, provided red does not attack in the same round (red decides after blue and would be the one named). |
| `Night.WinDestination` | App.tsx:374-378 | A won shift leads to the win screen exactly when the night is below 5, and to the ending otherwise. |
| `Night.NightSettings` | App.tsx:330-338 | A standard night uses that night's index and aggression, full power and the 8000 ms hour. |
| `Night.DecideRound` | App.tsx:429-498 | The loop over blue then red produces exactly the round outcome: the antagonists, the moved flag and the last attacker. |
| `Night.Session.constructor` | App.tsx:38-52 | The title screen with default settings, full power, every switch off and both antagonists on the stage; the invariant (which excludes the `gameover` view) holds from here on. |
| `Night.Session.StartGame` | App.tsx:307-328 | A new shift: play view, time 0, power = starting power, usage 1, every switch off, pause cleared, both antagonists on the stage; the previous jumpscare source is kept. |
| `Night.Session.StartNightSequence` | App.tsx:330-348 | Choosing night n selects that night's settings and shows the intro. |
| `Night.Session.StartCustomNight` | App.tsx:350-357 | A custom night stores the given settings and shows the intro. |
| `Night.Session.IntroElapsed` | App.tsx:345-356 | When the intro delay of a standard or custom night ends, the shift starts with the settings chosen for it. |
| `Night.Session.ReturnToTitle` | App.tsx:359-364 | Aborting returns to the title screen and clears the pause. |
| `Night.Session.OpenCustomSetup` | App.tsx:573 | The title screen's custom button shows the custom setup. |
| `Night.Session.LeaveCustomSetup` | App.tsx:577 | The custom setup's back button returns to the title screen. |
| `Night.Session.SetPaused` | App.tsx:610-634 | Opening the pause menu (the button at line 634) or resuming (line 610) sets the pause flag and nothing else. |
| `Night.Session.HandleWin` | App.tsx:366-379 | A won shift shows the win screen below night 5 and the ending from night 5 on. |
| `Night.Session.ContinueGame` | App.tsx:381-383 | Continuing starts the intro of the next night. |
| `Night.Session.ToggleDoor` | App.tsx:385-390 | With no power the switches are unchanged; otherwise only the door on that side flips. |
| `Night.Session.ToggleLight` | App.tsx:392-402 | With no power the switches are unchanged; otherwise the light on that side flips and the opposite light is off. |
| `Night.Session.ToggleCamera` | App.tsx:404-412 | With no power the switches are unchanged; otherwise the monitor flips and both lights go out. |
| `Night.Session.Context` | App.tsx:436-450 | A round reads the configured aggressions, blue facing the left door and red the right one. |
| `Night.Session.AiTick` | App.tsx:425-500 | Nothing happens while paused, outside play or without power. Otherwise the antagonists become the round's outcome, an attack switches to the jumpscare view naming the last attacker, and the camera disturbance is "some antagonist moved and the monitor is open". |
| `Night.Session.TimePowerTick` | App.tsx:503-562 | Nothing happens while paused or outside play. Otherwise the clock, usage, power and switches follow the time and power steps, winning routes to win or ending, and a blackout draw below 0.2 when the tick began without power ends the night with blue named. Power never rises and time never falls. |
| `Night.Session.AdvanceClock` | App.tsx:508-517 | The clock advances by one increment or reaches exactly 6 and hands the view to the win transition. |
| `Night.Session.DrainBattery` | App.tsx:519-543 | Usage shows the current drain, power falls by it, and running out sets power to 0 and every switch off. |

## Left out

- The synthesized audio (App.tsx:83-303) and every call into it (`playSound`, `toggleAmbience`, `toggleStaticSound`): browser audio with no effect on the simulation.
- Analytics (`trackEvent`, App.tsx:11-15): a foreign call; the success and failure events it records are not modelled.
- Timer plumbing: the intervals and their teardown (App.tsx:425, 503, 564-567), and the 500 ms reset of the camera static (App.tsx:495). Each tick is a method the caller invokes, and the intro delay ends with `IntroElapsed`. The static flag and its reset are not kept; `AiTick` returns the disturbance instead.
- `Math.random`: the three draws are parameters, so every transition is deterministic.
- React's copying of state into a ref (App.tsx:55-65): the model keeps one state. Within a one-second tick, the updates apply in source order. The clock update and any win come first, then usage and power. A blackout jumpscare last overrides the view, even if the same tick has just won.
- Floating point: power, drain and time are exact reals, so `Math.ceil(drain * 4)` is the exact ceiling, with no binary rounding at boundaries.
- Rendering and UI components (App.tsx:572-697, components/*.tsx): the camera selection, the panning, the screens and the overlays.
- Night.Session.StartCustomNight: requires a night of at least 1, a non-negative starting power and a positive hour length. The game does not check these itself; its only caller is the custom setup screen (components/Screens.tsx:127), whose sliders give night 6, 10-100 power and 2000-15000 ms.
- Night.Session.StartNightSequence: requires a night index of at least 1, which is what the title screen and `ContinueGame` always pass.
