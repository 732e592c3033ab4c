/** The five switches the player operates: two doors, two lights and the
    camera monitor, and the effect of each player command on them. */
module Switches {
  import opened Types

  datatype Actuators = Actuators(
    leftDoorClosed: bool,
    rightDoorClosed: bool,
    leftLightOn: bool,
    rightLightOn: bool,
    cameraOpen: bool)
  {
    function Door(side: Side): bool {
      if side == Left then leftDoorClosed else rightDoorClosed
    }

    function Light(side: Side): bool {
      if side == Left then leftLightOn else rightLightOn
    }
  }

  /** Every switch off: the state at shift start and after a blackout. */
  const ALL_OFF: Actuators := Actuators(false, false, false, false, false)

  function Opposite(side: Side): (r: Side)
    ensures r != side
  {
    if side == Left then Right else Left
  }

  predicate AtMostOneLight(a: Actuators) {
    !(a.leftLightOn && a.rightLightOn)
  }

  /** The door command: flips the door on `side` and touches nothing else. */
  function ToggleDoor(a: Actuators, side: Side): (r: Actuators)
    ensures r.Door(side) == !a.Door(side)
    ensures r.Door(Opposite(side)) == a.Door(Opposite(side))
    ensures r.leftLightOn == a.leftLightOn && r.rightLightOn == a.rightLightOn
    ensures r.cameraOpen == a.cameraOpen
  {
    if side == Left then a.(leftDoorClosed := !a.leftDoorClosed)
    else a.(rightDoorClosed := !a.rightDoorClosed)
  }

  /** The light command: flips the light on `side`; the opposite light ends
      off, so at most one light is on afterwards whatever the state before. */
  function ToggleLight(a: Actuators, side: Side): (r: Actuators)
    ensures r.Light(side) == !a.Light(side)
    ensures !r.Light(Opposite(side))
    ensures AtMostOneLight(r)
    ensures r.leftDoorClosed == a.leftDoorClosed && r.rightDoorClosed == a.rightDoorClosed
    ensures r.cameraOpen == a.cameraOpen
  {
    if side == Left then
      a.(leftLightOn := !a.leftLightOn, rightLightOn := false)
    else
      a.(rightLightOn := !a.rightLightOn, leftLightOn := false)
  }

  /** The camera command: flips the monitor and puts both lights out, whether
      the monitor is being opened or closed. */
  function ToggleCamera(a: Actuators): (r: Actuators)
    ensures r.cameraOpen == !a.cameraOpen
    ensures !r.leftLightOn && !r.rightLightOn
    ensures r.leftDoorClosed == a.leftDoorClosed && r.rightDoorClosed == a.rightDoorClosed
  {
    a.(cameraOpen := !a.cameraOpen, leftLightOn := false, rightLightOn := false)
  }

  /** Two door commands on the same side undo each other. */
  lemma ToggleDoorTwice(a: Actuators, side: Side)
    ensures ToggleDoor(ToggleDoor(a, side), side) == a
  {
  }

  /** Two light commands on the same side restore that light; the opposite
      light ends off (it was switched off by the first command, if it was on). */
  lemma ToggleLightTwice(a: Actuators, side: Side)
    ensures ToggleLight(ToggleLight(a, side), side).Light(side) == a.Light(side)
    ensures ToggleLight(ToggleLight(a, side), side)
         == (if side == Left then a.(rightLightOn := false) else a.(leftLightOn := false))
  {
  }

  /** The camera command keeps "at most one light on" and so does the door
      command; together with ToggleLight's contract no command breaks it. */
  lemma CommandsKeepOneLight(a: Actuators, side: Side)
    requires AtMostOneLight(a)
    ensures AtMostOneLight(ToggleDoor(a, side))
    ensures AtMostOneLight(ToggleLight(a, side))
    ensures AtMostOneLight(ToggleCamera(a))
  {
  }
}
