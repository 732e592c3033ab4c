/** One antagonist decision and one decision round over both antagonists.
    The random draws of the game that a decision uses are inputs here: per
    antagonist, the 1..20 roll and the draw that picks advance or retreat. */
module AntagonistAI {
  import opened Types
  import opened Constants

  /** First position of `x` in `s`, or -1 when `x` does not occur. */
  function IndexOf(s: seq<int>, x: int): (r: int)
    ensures -1 <= r < |s|
    ensures r == -1 <==> x !in s
    ensures 0 <= r ==> s[r] == x && forall j :: 0 <= j < r ==> s[j] != x
  {
    if |s| == 0 then -1
    else if s[0] == x then 0
    else
      var i := IndexOf(s[1..], x);
      if i == -1 then -1 else i + 1
  }

  predicate Distinct(s: seq<int>) {
    forall i, j :: 0 <= i < j < |s| ==> s[i] != s[j]
  }

  /** In a path without repeats, a position is found again by its value. */
  lemma IndexOfDistinct(s: seq<int>, i: int)
    requires Distinct(s) && 0 <= i < |s|
    ensures IndexOf(s, s[i]) == i
  {
  }

  /** The random inputs of one antagonist's decision. */
  datatype Dice = Dice(roll: int, forwardDraw: real)

  /** What one decision does to an antagonist. */
  datatype Step = Stays | Attacks | MovesTo(location: int)

  /** One decision. The roll must not exceed the aggression for anything to
      happen. At the door the antagonist attacks through an open door and is
      sent back to the stage by a closed one; elsewhere past the stage it
      advances on a forward draw above 0.25 and otherwise steps back; on the
      stage it always advances. */
  function StepAntagonist(a: Animatronic, blocked: bool, roll: int, aiLevel: int, forwardDraw: real): (r: Step)
    requires |a.path| >= 2
    ensures r.Stays? <==> roll > aiLevel
    ensures r.Attacks? <==> roll <= aiLevel && a.location == DOOR && !blocked
    ensures r.MovesTo? ==> r.location in a.path
  {
    if roll > aiLevel then Stays
    else
      var currentIndex := IndexOf(a.path, a.location);
      if a.location == DOOR then
        if !blocked then Attacks else MovesTo(a.path[0])
      else if currentIndex > 0 then
        var moveForward := forwardDraw > 0.25;
        if moveForward && currentIndex < |a.path| - 1 then MovesTo(a.path[currentIndex + 1])
        else MovesTo(a.path[currentIndex - 1])
      else
        MovesTo(a.path[1])
  }

  /** A path walked from the stage to the door without revisiting a location. */
  predicate StageToDoor(path: seq<int>) {
    |path| >= 2 && Distinct(path) && path[0] == STAGE && path[|path| - 1] == DOOR
  }

  /** Which way a qualifying roll sends an antagonist on a stage-to-door path:
      from the stage always forward; between stage and door forward on a draw
      above 0.25 and back otherwise; from the door, when it is closed, back to
      the stage. */
  lemma StepDirection(a: Animatronic, blocked: bool, roll: int, aiLevel: int, forwardDraw: real)
    requires StageToDoor(a.path) && a.location in a.path && roll <= aiLevel
    ensures var r := StepAntagonist(a, blocked, roll, aiLevel, forwardDraw);
      var i := IndexOf(a.path, a.location);
      && (i == 0 ==> r == MovesTo(a.path[1]))
      && (0 < i < |a.path| - 1 && forwardDraw > 0.25 ==> r == MovesTo(a.path[i + 1]))
      && (0 < i < |a.path| - 1 && forwardDraw <= 0.25 ==> r == MovesTo(a.path[i - 1]))
      && (i == |a.path| - 1 && blocked ==> r == MovesTo(a.path[0]))
  {
    IndexOfDistinct(a.path, |a.path| - 1);
  }

  /** On a stage-to-door path, a move goes one position forward or back, or
      from the door all the way back to the stage: the positions that
      `StepDirection` names. */
  lemma StepIsOneHop(a: Animatronic, blocked: bool, roll: int, aiLevel: int, forwardDraw: real)
    requires StageToDoor(a.path) && a.location in a.path
    ensures var r := StepAntagonist(a, blocked, roll, aiLevel, forwardDraw);
      var i := IndexOf(a.path, a.location);
      r.MovesTo? ==>
        var j := IndexOf(a.path, r.location);
        (i == |a.path| - 1 && j == 0 && blocked) ||
        (i < |a.path| - 1 && (j == i + 1 || j == i - 1))
  {
    var r := StepAntagonist(a, blocked, roll, aiLevel, forwardDraw);
    var i := IndexOf(a.path, a.location);
    if r.MovesTo? {
      StepDirection(a, blocked, roll, aiLevel, forwardDraw);
      IndexOfDistinct(a.path, |a.path| - 1);
      if i == |a.path| - 1 {
        IndexOfDistinct(a.path, 0);
      } else if i == 0 {
        IndexOfDistinct(a.path, 1);
      } else if forwardDraw > 0.25 {
        IndexOfDistinct(a.path, i + 1);
      } else {
        IndexOfDistinct(a.path, i - 1);
      }
    }
  }

  /** Both antagonists' paths are stage-to-door paths, so the lemmas above
      apply to every antagonist of a session. */
  lemma PathsAreStageToDoor(k: AnimatronicName)
    ensures StageToDoor(PathOf(k))
  {
    PathsShape(k);
  }

  /** What a decision round has produced so far: the antagonists, whether any
      of them moved, and the antagonist whose attack landed last. */
  datatype AiOutcome = AiOutcome(animatronics: AnimatronicsState, moved: bool, scare: Option<AnimatronicName>)

  /** The inputs of a round besides the antagonists: the aggression and the
      door each antagonist faces (blue the left one, red the right one), and
      the random draws. */
  datatype AiContext = AiContext(
    levels: PerAnimatronic<int>,
    doorClosed: PerAnimatronic<bool>,
    dice: PerAnimatronic<Dice>)

  predicate PathsUsable(s: AnimatronicsState) {
    |s.blue.path| >= 2 && |s.red.path| >= 2
  }

  /** Both antagonists keep the paths they had. */
  predicate SamePaths(s: AnimatronicsState, t: AnimatronicsState) {
    s.blue.path == t.blue.path && s.red.path == t.red.path
  }

  /** The decision of antagonist `k` within a round. */
  function Resolve(o: AiOutcome, k: AnimatronicName, ctx: AiContext): (r: AiOutcome)
    requires PathsUsable(o.animatronics)
    ensures SamePaths(r.animatronics, o.animatronics)
    ensures r.animatronics.Get(Other(k)) == o.animatronics.Get(Other(k))
  {
    var a := o.animatronics.Get(k);
    match StepAntagonist(a, ctx.doorClosed.Get(k), ctx.dice.Get(k).roll, ctx.levels.Get(k), ctx.dice.Get(k).forwardDraw)
    case Stays => o
    case Attacks => o.(scare := Some(k))
    case MovesTo(l) => AiOutcome(o.animatronics.Set(k, a.(location := l)), true, o.scare)
  }

  /** The decisions of `keys`, in order. */
  function ResolveAll(o: AiOutcome, keys: seq<AnimatronicName>, ctx: AiContext): (r: AiOutcome)
    requires PathsUsable(o.animatronics)
    ensures PathsUsable(r.animatronics)
    ensures SamePaths(r.animatronics, o.animatronics)
    decreases |keys|
  {
    if keys == [] then o
    else
      var prev := ResolveAll(o, keys[..|keys| - 1], ctx);
      Resolve(prev, keys[|keys| - 1], ctx)
  }

  /** Resolving one more key extends the round by that key's decision. */
  lemma ResolveAllSnoc(o: AiOutcome, keys: seq<AnimatronicName>, i: nat, ctx: AiContext)
    requires PathsUsable(o.animatronics) && i < |keys|
    ensures PathsUsable(ResolveAll(o, keys[..i], ctx).animatronics)
    ensures ResolveAll(o, keys[..i + 1], ctx) == Resolve(ResolveAll(o, keys[..i], ctx), keys[i], ctx)
  {
    assert keys[..i + 1][..i] == keys[..i];
  }

  /** The antagonists in the order a round visits them. */
  const ROUND_ORDER: seq<AnimatronicName> := [Blue, Red]

  /** A whole round: blue decides, then red. */
  function AiRound(s: AnimatronicsState, ctx: AiContext): (r: AiOutcome)
    requires PathsUsable(s)
    ensures PathsUsable(r.animatronics) && SamePaths(r.animatronics, s)
  {
    ResolveAll(AiOutcome(s, false, None), ROUND_ORDER, ctx)
  }

  /** The decision of `k` on its own, as if it were the only antagonist. */
  function StepOf(s: AnimatronicsState, k: AnimatronicName, ctx: AiContext): Step
    requires PathsUsable(s)
  {
    StepAntagonist(s.Get(k), ctx.doorClosed.Get(k), ctx.dice.Get(k).roll, ctx.levels.Get(k), ctx.dice.Get(k).forwardDraw)
  }

  /** An antagonist after its own step. */
  function After(a: Animatronic, st: Step): Animatronic {
    if st.MovesTo? then a.(location := st.location) else a
  }

  /** The two decisions of a round do not interact: each antagonist ends
      where its own step puts it, the round reports a move when either moved,
      and when both attack it is red's attack that is reported, because red
      decides second. */
  lemma {:induction false} AiRoundIsIndependent(s: AnimatronicsState, ctx: AiContext)
    requires PathsUsable(s)
    ensures var r := AiRound(s, ctx);
      && r.animatronics.blue == After(s.blue, StepOf(s, Blue, ctx))
      && r.animatronics.red == After(s.red, StepOf(s, Red, ctx))
      && r.moved == (StepOf(s, Blue, ctx).MovesTo? || StepOf(s, Red, ctx).MovesTo?)
      && r.scare == (if StepOf(s, Red, ctx).Attacks? then Some(Red)
                     else if StepOf(s, Blue, ctx).Attacks? then Some(Blue)
                     else None)
  {
    var o0 := AiOutcome(s, false, None);
    assert ROUND_ORDER[..1] == [Blue];
    assert [Blue][..0] == [];
    var o1 := ResolveAll(o0, [Blue], ctx);
    assert o1 == Resolve(o0, Blue, ctx);
    assert o1.animatronics.red == s.red;
    assert AiRound(s, ctx) == Resolve(o1, Red, ctx);
  }

  /** A round keeps both paths and keeps each antagonist on its path. */
  lemma AiRoundKeepsOnPaths(s: AnimatronicsState, ctx: AiContext)
    requires OnPaths(s)
    ensures PathsUsable(s)
    ensures OnPaths(AiRound(s, ctx).animatronics)
  {
    AiRoundIsIndependent(s, ctx);
  }

  /** The scripted approach of blue on night 1: from location 5 a qualifying
      roll and a forward draw bring it to the door, and from the door with the
      left door open a qualifying roll ends the night with blue's attack. */
  lemma BlueNightOneApproach(s: AnimatronicsState, ctx: AiContext)
    requires s.blue == Animatronic(5, BLUE_PATH, "Unit-01")
    requires s.red.path == RED_PATH
    requires ctx.levels == PerAnimatronic(2, 1) && ctx.dice.blue == Dice(1, 0.5)
    ensures AiRound(s, ctx).animatronics.blue.location == DOOR
    ensures var s' := s.(blue := s.blue.(location := DOOR));
      !ctx.doorClosed.blue && !StepOf(s', Red, ctx).Attacks? ==>
        AiRound(s', ctx).scare == Some(Blue)
  {
    AiRoundIsIndependent(s, ctx);
    var s' := s.(blue := s.blue.(location := DOOR));
    AiRoundIsIndependent(s', ctx);
  }
}
