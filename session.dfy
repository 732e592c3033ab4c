/** The session: the single mutable record that the player commands, the two
    periodic ticks and the screen transitions read and update. */
module Night {
  import opened Types
  import opened Constants
  import opened Switches
  import opened TimePower
  import opened AntagonistAI

  /** Where a won shift leads: the next-night screen before night 5, the
      ending from night 5 on (the custom night 6 included). */
  function WinDestination(night: int): (v: ViewType)
    ensures v == Win || v == Ending
    ensures v == Win <==> night < 5
  {
    if night < 5 then Win else Ending
  }

  /** The settings of a standard night: the defaults with that night's index
      and aggression. */
  function NightSettings(nightNum: int): (s: GameSettings)
    ensures s.night == nightNum
    ensures s.blueAI == GetAggression(nightNum).blue && s.redAI == GetAggression(nightNum).red
    ensures s.startingPower == 100 && s.hourLengthMs == HOUR_DURATION_MS
  {
    DEFAULT_SETTINGS.(night := nightNum, blueAI := GetAggression(nightNum).blue, redAI := GetAggression(nightNum).red)
  }

  /** The loop of a decision round: each antagonist of the round order in
      turn rolls against its aggression and takes its step; the outcome is
      the antagonists afterwards, whether any moved, and the last attacker. */
  method DecideRound(animatronics: AnimatronicsState, ctx: AiContext)
    returns (next: AnimatronicsState, moved: bool, scare: Option<AnimatronicName>)
    requires PathsUsable(animatronics)
    ensures AiOutcome(next, moved, scare) == AiRound(animatronics, ctx)
  {
    ghost var o := AiOutcome(animatronics, false, None);
    next, moved, scare := animatronics, false, None;
    var keys := ROUND_ORDER;
    var i := 0;
    while i < |keys|
      invariant 0 <= i <= |keys|
      invariant PathsUsable(o.animatronics)
      invariant o == ResolveAll(AiOutcome(animatronics, false, None), keys[..i], ctx)
      invariant next == o.animatronics && moved == o.moved && scare == o.scare
    {
      ResolveAllSnoc(AiOutcome(animatronics, false, None), keys, i, ctx);
      var key := keys[i];
      var enemy := next.Get(key);
      var roll := ctx.dice.Get(key).roll;
      var step := StepAntagonist(enemy, ctx.doorClosed.Get(key), roll, ctx.levels.Get(key), ctx.dice.Get(key).forwardDraw);
      match step {
        case Stays =>
        case Attacks =>
          scare := Some(key);
        case MovesTo(l) =>
          next := next.Set(key, enemy.(location := l));
          moved := true;
      }
      o := Resolve(o, key, ctx);
      i := i + 1;
    }
    assert keys[..|keys|] == ROUND_ORDER;
  }

  class Session {
    var view: ViewType
    var settings: GameSettings
    /** The pause menu; while it is open neither tick does anything. */
    var isSettingsOpen: bool
    /** In-game hours since midnight, 0..6. */
    var time: real
    var power: real
    var usage: int
    var leftDoorClosed: bool
    var rightDoorClosed: bool
    var leftLightOn: bool
    var rightLightOn: bool
    var cameraOpen: bool
    var animatronics: AnimatronicsState
    var jumpscareSource: Option<AnimatronicName>

    /** The five switches as one value. */
    function CurrentSwitches(): Actuators
      reads this
    {
      Actuators(leftDoorClosed, rightDoorClosed, leftLightOn, rightLightOn, cameraOpen)
    }

    /** What holds between any two commands or ticks. */
    ghost predicate Valid()
      reads this
    {
      && ValidSettings(settings)
      && 0.0 <= time <= 6.0
      && 0.0 <= power
      && OnPaths(animatronics)
      && AtMostOneLight(CurrentSwitches())
      && (power <= 0.0 ==> CurrentSwitches() == ALL_OFF)
      && view != Gameover
      && (view == Jumpscare ==> jumpscareSource.Some?)
    }

    /** Whether the ticks run: the night is in play and not paused. */
    function TicksRun(): bool
      reads this
    {
      !isSettingsOpen && view == Game
    }

    /** The title screen with the default settings, a full battery, both
        antagonists on the stage and every switch off. */
    constructor ()
      ensures Valid()
      ensures view == Start && settings == DEFAULT_SETTINGS && !isSettingsOpen
      ensures time == 0.0 && power == 100.0 && usage == 1
      ensures CurrentSwitches() == ALL_OFF
      ensures animatronics == InitialAnimatronics() && jumpscareSource == None
    {
      view := Start;
      settings := DEFAULT_SETTINGS;
      isSettingsOpen := false;
      time := 0.0;
      power := 100.0;
      usage := 1;
      cameraOpen := false;
      leftDoorClosed := false;
      rightDoorClosed := false;
      leftLightOn := false;
      rightLightOn := false;
      animatronics := InitialAnimatronics();
      jumpscareSource := None;
    }

    // ------------------------------------------------------------ screens

    /** A new shift: play view, clock at midnight, the configured power, all
        switches off, pause cleared, both antagonists back on the stage. The
        antagonist that ended the previous shift stays recorded. */
    method StartGame(s: GameSettings)
      requires Valid() && ValidSettings(s)
      modifies this
      ensures Valid()
      ensures settings == s && view == Game && !isSettingsOpen
      ensures time == 0.0 && power == s.startingPower as real && usage == 1
      ensures CurrentSwitches() == ALL_OFF
      ensures animatronics == InitialAnimatronics()
      ensures jumpscareSource == old(jumpscareSource)
    {
      settings := s;
      view := Game;
      time := 0.0;
      power := s.startingPower as real;
      usage := 1;
      cameraOpen := false;
      leftDoorClosed := false;
      rightDoorClosed := false;
      leftLightOn := false;
      rightLightOn := false;
      isSettingsOpen := false;
      animatronics := InitialAnimatronics();
    }

    /** Standard night `nightNum`: its settings are chosen and the intro
        screen shows; the shift itself starts when the intro has elapsed. */
    method StartNightSequence(nightNum: int)
      requires Valid() && nightNum >= 1
      modifies this`settings, this`view
      ensures Valid()
      ensures settings == NightSettings(nightNum) && view == NightIntro
    {
      settings := NightSettings(nightNum);
      view := NightIntro;
    }

    /** A custom night: the given settings and the intro screen. */
    method StartCustomNight(s: GameSettings)
      requires Valid() && ValidSettings(s)
      modifies this`settings, this`view
      ensures Valid()
      ensures settings == s && view == NightIntro
    {
      settings := s;
      view := NightIntro;
    }

    /** The end of the intro delay: the shift starts with the settings chosen
        for it. */
    method IntroElapsed()
      requires Valid()
      modifies this
      ensures Valid()
      ensures settings == old(settings) && view == Game && !isSettingsOpen
      ensures time == 0.0 && power == settings.startingPower as real && usage == 1
      ensures CurrentSwitches() == ALL_OFF && animatronics == InitialAnimatronics()
      ensures jumpscareSource == old(jumpscareSource)
    {
      StartGame(settings);
    }

    /** Back to the title screen, from any screen; the pause is cleared. */
    method ReturnToTitle()
      requires Valid()
      modifies this`view, this`isSettingsOpen
      ensures Valid()
      ensures view == Start && !isSettingsOpen
    {
      view := Start;
      isSettingsOpen := false;
    }

    /** The title screen's custom-night button. */
    method OpenCustomSetup()
      requires Valid()
      modifies this`view
      ensures Valid()
      ensures view == CustomSetup
    {
      view := CustomSetup;
    }

    /** The custom-night screen's back button. */
    method LeaveCustomSetup()
      requires Valid()
      modifies this`view
      ensures Valid()
      ensures view == Start
    {
      view := Start;
    }

    /** Opening or closing the pause menu. */
    method SetPaused(paused: bool)
      requires Valid()
      modifies this`isSettingsOpen
      ensures Valid()
      ensures isSettingsOpen == paused
    {
      isSettingsOpen := paused;
    }

    /** The shift has been survived. */
    method HandleWin()
      requires Valid()
      modifies this`view
      ensures Valid()
      ensures view == WinDestination(settings.night)
    {
      if settings.night < 5 {
        view := Win;
      } else {
        view := Ending;
      }
    }

    /** From the win screen to the next night's intro. */
    method ContinueGame()
      requires Valid()
      modifies this`settings, this`view
      ensures Valid()
      ensures settings == NightSettings(old(settings).night + 1) && view == NightIntro
    {
      StartNightSequence(settings.night + 1);
    }

    // ----------------------------------------------------------- commands

    /** The door button on `side`; ignored without power. */
    method ToggleDoor(side: Side)
      requires Valid()
      modifies this`leftDoorClosed, this`rightDoorClosed
      ensures Valid()
      ensures CurrentSwitches() == if power <= 0.0 then old(CurrentSwitches()) else Switches.ToggleDoor(old(CurrentSwitches()), side)
    {
      if power <= 0.0 {
        return;
      }
      if side == Left {
        leftDoorClosed := !leftDoorClosed;
      } else {
        rightDoorClosed := !rightDoorClosed;
      }
    }

    /** The light button on `side`; ignored without power. */
    method ToggleLight(side: Side)
      requires Valid()
      modifies this`leftLightOn, this`rightLightOn
      ensures Valid()
      ensures CurrentSwitches() == if power <= 0.0 then old(CurrentSwitches()) else Switches.ToggleLight(old(CurrentSwitches()), side)
    {
      if power <= 0.0 {
        return;
      }
      if side == Left {
        leftLightOn := !leftLightOn;
        if rightLightOn {
          rightLightOn := false;
        }
      } else {
        rightLightOn := !rightLightOn;
        if leftLightOn {
          leftLightOn := false;
        }
      }
    }

    /** The monitor button; ignored without power. */
    method ToggleCamera()
      requires Valid()
      modifies this`cameraOpen, this`leftLightOn, this`rightLightOn
      ensures Valid()
      ensures CurrentSwitches() == if power <= 0.0 then old(CurrentSwitches()) else Switches.ToggleCamera(old(CurrentSwitches()))
    {
      if power <= 0.0 {
        return;
      }
      var newState := !cameraOpen;
      cameraOpen := newState;
      leftLightOn := false;
      rightLightOn := false;
    }

    // -------------------------------------------------------------- ticks

    /** The inputs of a decision round taken from the session: the configured
        aggression, the left door for blue and the right door for red. */
    function Context(dice: PerAnimatronic<Dice>): (c: AiContext)
      reads this`settings, this`leftDoorClosed, this`rightDoorClosed
      ensures c.levels.blue == settings.blueAI && c.levels.red == settings.redAI
      ensures c.doorClosed.blue == leftDoorClosed && c.doorClosed.red == rightDoorClosed
      ensures c.dice == dice
    {
      AiContext(
        PerAnimatronic(settings.blueAI, settings.redAI),
        PerAnimatronic(leftDoorClosed, rightDoorClosed),
        dice)
    }

    /** One antagonist decision round. Nothing happens while paused, outside
        play or without power. Otherwise blue and then red decide; an attack
        through an open door ends the night in the jumpscare view naming the
        attacker (red's, when both attack). The result is the camera
        disturbance: some antagonist moved while the monitor was open. */
    method AiTick(dice: PerAnimatronic<Dice>) returns (disturbance: bool)
      requires Valid()
      modifies this`animatronics, this`view, this`jumpscareSource
      ensures Valid()
      ensures !old(TicksRun()) || power <= 0.0 ==>
        animatronics == old(animatronics) && view == old(view)
        && jumpscareSource == old(jumpscareSource) && !disturbance
      ensures old(TicksRun()) && power > 0.0 ==>
        var o := AiRound(old(animatronics), Context(dice));
        && animatronics == o.animatronics
        && disturbance == (o.moved && cameraOpen)
        && (o.scare.Some? ==> view == Jumpscare && jumpscareSource == o.scare)
        && (o.scare.None? ==> view == old(view) && jumpscareSource == old(jumpscareSource))
    {
      if isSettingsOpen || view != Game || power <= 0.0 {
        return false;
      }
      var next, moved, scare := DecideRound(animatronics, Context(dice));
      AiRoundKeepsOnPaths(animatronics, Context(dice));
      animatronics := next;
      if scare.Some? {
        jumpscareSource := scare;
        view := Jumpscare;
      }
      disturbance := moved && cameraOpen;
    }

    /** One second of play. Nothing happens while paused or outside play.
        Otherwise the clock advances (reaching hour 6 wins the night), the
        drain of the switches as they stand is shown as usage and taken from
        the power (running out forces every switch off), and if the power was
        already gone when the tick began, a draw below 0.2 ends the night with
        blue's attack. */
    method TimePowerTick(blackoutDraw: real)
      requires Valid()
      modifies this
      ensures Valid()
      ensures !old(TicksRun()) ==>
        && view == old(view) && time == old(time) && power == old(power)
        && usage == old(usage) && CurrentSwitches() == old(CurrentSwitches())
        && jumpscareSource == old(jumpscareSource)
      ensures old(TicksRun()) ==>
        var t := AdvanceTime(old(time), HourIncrement(settings.hourLengthMs));
        var d := Drain(settings.night, old(CurrentSwitches()));
        var p := DrainPower(old(power), d);
        && time == t.time && usage == Usage(d) && power == p.power
        && CurrentSwitches() == (if p.blackout then ALL_OFF else old(CurrentSwitches()))
        && (if old(power) <= 0.0 && blackoutDraw < 0.2
            then view == Jumpscare && jumpscareSource == Some(Blue)
            else view == (if t.won then WinDestination(settings.night) else Game)
                 && jumpscareSource == old(jumpscareSource))
      ensures power <= old(power) && old(time) <= time
      ensures settings == old(settings) && isSettingsOpen == old(isSettingsOpen)
      ensures animatronics == old(animatronics)
    {
      if isSettingsOpen || view != Game {
        return;
      }
      var startPower := power;
      AdvanceClock();
      DrainBattery();
      if startPower <= 0.0 {
        if blackoutDraw < 0.2 {
          jumpscareSource := Some(Blue);
          view := Jumpscare;
        }
      }
    }

    /** The clock part of a tick: one increment, or the end of the shift. */
    method AdvanceClock()
      requires Valid()
      modifies this`time, this`view
      ensures Valid()
      ensures var t := AdvanceTime(old(time), HourIncrement(settings.hourLengthMs));
        time == t.time && view == (if t.won then WinDestination(settings.night) else old(view))
      ensures old(time) <= time
    {
      var increment := HourIncrement(settings.hourLengthMs);
      var newTime := time + increment;
      if newTime >= 6.0 {
        HandleWin();
        time := 6.0;
      } else {
        time := newTime;
      }
    }

    /** The power part of a tick: the drain of the switches as they stand is
        shown as usage and taken from the power; running out forces every
        switch off. */
    method DrainBattery()
      requires Valid()
      modifies this`usage, this`power, this`cameraOpen, this`leftDoorClosed,
        this`rightDoorClosed, this`leftLightOn, this`rightLightOn
      ensures Valid()
      ensures var d := Drain(settings.night, old(CurrentSwitches()));
        var p := DrainPower(old(power), d);
        && usage == Usage(d) && power == p.power
        && CurrentSwitches() == (if p.blackout then ALL_OFF else old(CurrentSwitches()))
      ensures power <= old(power)
    {
      DrainPositive(settings.night, CurrentSwitches());
      var drain := Drain(settings.night, CurrentSwitches());
      usage := Usage(drain);
      var newP := power - drain;
      if newP <= 0.0 {
        cameraOpen := false;
        leftDoorClosed := false;
        rightDoorClosed := false;
        leftLightOn := false;
        rightLightOn := false;
        power := 0.0;
      } else {
        power := newP;
      }
    }
  }
}
