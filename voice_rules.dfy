/** The voice-command rule table and the seat-position tracker it drives,
    as values: `Step(pos, cmd)` is what one voice-control request does when
    the tracker holds `pos`. */
module VoiceRules {
  import opened Wrappers
  import opened Messages

  // Voice command codes
  const SDVOS_SEAT_MOVE_FORWARD := 0
  const SDVOS_SEAT_MOVE_BACKWARD := 1
  const SDVOS_FAN_START := 2
  const SDVOS_FAN_STOP := 3
  const SDVOS_MIRRORREAR_PAN_LEFT := 4
  const SDVOS_MIRRORREAR_PAN_RIGHT := 5
  const SDVOS_MIRRORREAR_TITL_UP := 6
  const SDVOS_MIRRORREAR_TITL_DOWN := 7
  const SDVOS_LUMBAR_SUPPORT_START := 8
  const SDVOS_LUMBAR_SUPPORT_DEFLATION := 9

  // Seat position base, ceiling, floor and move step
  const VSS_SEAT_POSITION_BASE := 50
  const VSS_SEAT_POSITION_MAX := 60
  const VSS_SEAT_POSITION_MIN := 40
  const VSS_SEAT_POSITION_MOVE_STEP := 10

  // Fan
  const VSS_FAN_START := 45
  const VSS_FAN_STOP := 0

  // Mirror
  const VSS_MIRROR_PAN_LEFT := 120
  const VSS_MIRROR_PAN_RIGHT := 121
  const VSS_MIRROR_TILT_UP := 122
  const VSS_MIRROR_TILT_DOWN := 123
  const VSS_MIRROR_MOVE_STOP := 118

  // Lumbar air cell
  const VSS_LUMBAR_AIRCELL0 := 124
  const VSS_LUMBAR_AIRCELL1 := 125
  const VSS_LUMBAR_AIRCELL_STOP := 126
  const VSS_LUMBAR_AIRCELL_DEFLATION := 127

  /** Seconds the mirror and lumbar rules wait before their stop write. */
  const MOVE_DELAY: nat := 2

  /** Rejection messages. Each is written in the application as two adjacent
      literals with no space between them, so "will" and "be" run together. */
  const MSG_ABOVE_MAX := "The Seat Position willbe bigger than max value(60)."
  const MSG_BELOW_MIN := "The Seat Position willbe litter than min value(40)."

  /** The vehicle signals the rules write, each with the data-broker path the
      application sets. Tilt commands, too, write the mirror's Pan signal. */
  datatype Signal = SeatPosition | FanSpeed | MirrorLeftPan | LumbarSupport
  {
    function Path(): string {
      match this
      case SeatPosition => "Vehicle.Cabin.Seat.Row1.Pos1.Position"
      case FanSpeed => "Vehicle.Cabin.HVAC.Station.Row1.Left.FanSpeed"
      case MirrorLeftPan => "Vehicle.Body.Mirrors.Left.Pan"
      case LumbarSupport => "Vehicle.Cabin.Seat.Row1.Pos1.Backrest.Lumbar.Support"
    }
  }

  /** Distinct signals are distinct data-broker paths, so a trace of writes
      names each written path unambiguously. */
  lemma SignalPathsDistinct(a: Signal, b: Signal)
    requires a != b
    ensures a.Path() != b.Path()
  {
  }

  /** One observable effect, in the order the handler performs them:
      a signal `set`, an `asyncio.sleep`, or an MQTT publish. */
  datatype Action =
    | Write(signal: Signal, value: int)
    | Delay(seconds: nat)
    | Publish(publication: Publication)

  /** The tracker's new value and the actions issued by one request. */
  datatype Effect = Effect(seatPos: int, actions: seq<Action>)

  predicate IsVoiceCommand(cmd: Option<int>) {
    cmd.Some? && SDVOS_SEAT_MOVE_FORWARD <= cmd.value <= SDVOS_LUMBAR_SUPPORT_DEFLATION
  }

  /** The rule for one recognised code, with the tracker at `pos`. */
  function Rule(code: int, pos: int): Effect
    requires SDVOS_SEAT_MOVE_FORWARD <= code <= SDVOS_LUMBAR_SUPPORT_DEFLATION
  {
    if code == SDVOS_SEAT_MOVE_FORWARD then
      var position := pos + VSS_SEAT_POSITION_MOVE_STEP;
      if pos >= VSS_SEAT_POSITION_MAX then Effect(pos, [Publish(VoiceResponse(MSG_ABOVE_MAX))])
      else Effect(position, [Write(SeatPosition, position)])
    else if code == SDVOS_SEAT_MOVE_BACKWARD then
      var position := pos - VSS_SEAT_POSITION_MOVE_STEP;
      if pos <= VSS_SEAT_POSITION_MIN then Effect(pos, [Publish(VoiceResponse(MSG_BELOW_MIN))])
      else Effect(position, [Write(SeatPosition, position)])
    else if code == SDVOS_FAN_START then
      Effect(pos, [Write(FanSpeed, VSS_FAN_START)])
    else if code == SDVOS_FAN_STOP then
      Effect(pos, [Write(FanSpeed, VSS_FAN_STOP)])
    else if code == SDVOS_LUMBAR_SUPPORT_START then
      Effect(pos, [Write(LumbarSupport, VSS_LUMBAR_AIRCELL0), Write(LumbarSupport, VSS_LUMBAR_AIRCELL1),
                   Delay(MOVE_DELAY), Write(LumbarSupport, VSS_LUMBAR_AIRCELL_STOP)])
    else if code == SDVOS_LUMBAR_SUPPORT_DEFLATION then
      Effect(pos, [Write(LumbarSupport, VSS_LUMBAR_AIRCELL_DEFLATION)])
    else
      Effect(pos, [Write(MirrorLeftPan, MirrorTarget(code)), Delay(MOVE_DELAY),
                   Write(MirrorLeftPan, VSS_MIRROR_MOVE_STOP)])
  }

  /** The pan value a mirror command drives the mirror to before stopping it. */
  function MirrorTarget(code: int): int
    requires SDVOS_MIRRORREAR_PAN_LEFT <= code <= SDVOS_MIRRORREAR_TITL_DOWN
  {
    if code == SDVOS_MIRRORREAR_PAN_LEFT then VSS_MIRROR_PAN_LEFT
    else if code == SDVOS_MIRRORREAR_PAN_RIGHT then VSS_MIRROR_PAN_RIGHT
    else if code == SDVOS_MIRRORREAR_TITL_UP then VSS_MIRROR_TILT_UP
    else VSS_MIRROR_TILT_DOWN
  }

  /** One voice-control request: a recognised code applies its rule; a
      missing or unrecognised `voice_cmd` does nothing. */
  function Step(pos: int, cmd: Option<int>): Effect {
    if IsVoiceCommand(cmd) then Rule(cmd.value, pos) else Effect(pos, [])
  }

  /** Successive requests, each seeing the tracker the previous one left;
      the actions are concatenated in order. */
  function Run(pos: int, cmds: seq<Option<int>>): Effect
    decreases |cmds|
  {
    if cmds == [] then Effect(pos, [])
    else
      var first := Step(pos, cmds[0]);
      var rest := Run(first.seatPos, cmds[1..]);
      Effect(rest.seatPos, first.actions + rest.actions)
  }

  predicate InRange(p: int) {
    VSS_SEAT_POSITION_MIN <= p <= VSS_SEAT_POSITION_MAX
  }

  /** On the grid of positions reachable from the base in whole steps. */
  predicate Aligned(p: int) {
    (p - VSS_SEAT_POSITION_BASE) % VSS_SEAT_POSITION_MOVE_STEP == 0
  }

  /** The tracker's inductive invariant. */
  predicate Reachable(p: int) {
    InRange(p) && Aligned(p)
  }

  /** The invariant admits exactly the three positions 40, 50 and 60. */
  lemma ReachableIsThreePositions(p: int)
    ensures Reachable(p) <==> p == 40 || p == 50 || p == 60
  {
  }

  /** Every request keeps the tracker reachable. */
  lemma StepPreservesReachable(pos: int, cmd: Option<int>)
    requires Reachable(pos)
    ensures Reachable(Step(pos, cmd).seatPos)
  {
  }

  lemma {:induction false} RunPreservesReachable(pos: int, cmds: seq<Option<int>>)
    requires Reachable(pos)
    ensures Reachable(Run(pos, cmds).seatPos)
    decreases |cmds|
  {
    if cmds != [] {
      StepPreservesReachable(pos, cmds[0]);
      RunPreservesReachable(Step(pos, cmds[0]).seatPos, cmds[1..]);
    }
  }

  /** Range invariant: from the base, after any sequence of requests the
      tracker is within [40, 60] and is one of 40, 50, 60. */
  lemma RangeInvariant(cmds: seq<Option<int>>)
    ensures InRange(Run(VSS_SEAT_POSITION_BASE, cmds).seatPos)
    ensures Run(VSS_SEAT_POSITION_BASE, cmds).seatPos in {40, 50, 60}
  {
    ReachableIsThreePositions(VSS_SEAT_POSITION_BASE);
    RunPreservesReachable(VSS_SEAT_POSITION_BASE, cmds);
    ReachableIsThreePositions(Run(VSS_SEAT_POSITION_BASE, cmds).seatPos);
  }

  /** The bound tests the current position, not the proposed one: from a
      position inside the range but off the grid, forward leaves the range. */
  lemma BoundNeedsAlignment()
    ensures InRange(55) && !Aligned(55)
    ensures !InRange(Step(55, Some(SDVOS_SEAT_MOVE_FORWARD)).seatPos)
  {
  }

  lemma ForwardAtCeiling(pos: int)
    requires pos >= VSS_SEAT_POSITION_MAX
    ensures Step(pos, Some(SDVOS_SEAT_MOVE_FORWARD)).seatPos == pos
    ensures Step(pos, Some(SDVOS_SEAT_MOVE_FORWARD)).actions
         == [Publish(Publication(VOICE_CONTROL_RESPONSE_TOPICE,
                                 Reply(1, "The Seat Position willbe bigger than max value(60).")))]
  {
  }

  lemma ForwardBelowCeiling(pos: int)
    requires pos < VSS_SEAT_POSITION_MAX
    ensures Step(pos, Some(SDVOS_SEAT_MOVE_FORWARD)).seatPos == pos + VSS_SEAT_POSITION_MOVE_STEP
    ensures Step(pos, Some(SDVOS_SEAT_MOVE_FORWARD)).actions == [Write(SeatPosition, pos + VSS_SEAT_POSITION_MOVE_STEP)]
  {
  }

  lemma BackwardAtFloor(pos: int)
    requires pos <= VSS_SEAT_POSITION_MIN
    ensures Step(pos, Some(SDVOS_SEAT_MOVE_BACKWARD)).seatPos == pos
    ensures Step(pos, Some(SDVOS_SEAT_MOVE_BACKWARD)).actions
         == [Publish(Publication(VOICE_CONTROL_RESPONSE_TOPICE,
                                 Reply(1, "The Seat Position willbe litter than min value(40).")))]
  {
  }

  lemma BackwardAboveFloor(pos: int)
    requires pos > VSS_SEAT_POSITION_MIN
    ensures Step(pos, Some(SDVOS_SEAT_MOVE_BACKWARD)).seatPos == pos - VSS_SEAT_POSITION_MOVE_STEP
    ensures Step(pos, Some(SDVOS_SEAT_MOVE_BACKWARD)).actions == [Write(SeatPosition, pos - VSS_SEAT_POSITION_MOVE_STEP)]
  {
  }

  lemma FanCommands(pos: int)
    ensures Step(pos, Some(SDVOS_FAN_START)) == Effect(pos, [Write(FanSpeed, 45)])
    ensures Step(pos, Some(SDVOS_FAN_STOP)) == Effect(pos, [Write(FanSpeed, 0)])
  {
  }

  /** Codes 4 to 7 all drive the mirror's Pan signal, tilt included. */
  lemma MirrorCommands(pos: int, code: int)
    requires SDVOS_MIRRORREAR_PAN_LEFT <= code <= SDVOS_MIRRORREAR_TITL_DOWN
    ensures Step(pos, Some(code)).seatPos == pos
    ensures Step(pos, Some(code)).actions
         == [Write(MirrorLeftPan, 116 + code), Delay(2), Write(MirrorLeftPan, 118)]
  {
  }

  /** Inflation writes two cell levels then, after the delay, the stop
      level; deflation is a single write with no delay and no stop. */
  lemma LumbarCommands(pos: int)
    ensures Step(pos, Some(SDVOS_LUMBAR_SUPPORT_START))
         == Effect(pos, [Write(LumbarSupport, 124), Write(LumbarSupport, 125), Delay(2), Write(LumbarSupport, 126)])
    ensures Step(pos, Some(SDVOS_LUMBAR_SUPPORT_DEFLATION)) == Effect(pos, [Write(LumbarSupport, 127)])
  {
  }

  /** A missing or unrecognised `voice_cmd` does nothing at all. */
  lemma UnrecognisedIsIdle(pos: int, cmd: Option<int>)
    requires cmd.None? || cmd.value < 0 || cmd.value > 9
    ensures Step(pos, cmd) == Effect(pos, [])
  {
  }

  /** One request touches one signal: all its writes go to a single signal,
      a publish (a rejection) is the only action when present, and only the
      seat codes move the tracker, by one step. That the application's
      independent rule blocks fire at most once per request is the contract
      of `SampleApp.OnVoiceControlRequestReceived`. */
  lemma StepTouchesOneSignal(pos: int, cmd: Option<int>)
    ensures var a := Step(pos, cmd).actions;
      forall i, j :: 0 <= i < |a| && 0 <= j < |a| && a[i].Write? && a[j].Write? ==> a[i].signal == a[j].signal
    ensures var a := Step(pos, cmd).actions;
      forall i :: 0 <= i < |a| && a[i].Publish? ==> |a| == 1
    ensures var p := Step(pos, cmd).seatPos;
      p == pos || (cmd == Some(SDVOS_SEAT_MOVE_FORWARD) && p == pos + VSS_SEAT_POSITION_MOVE_STEP)
               || (cmd == Some(SDVOS_SEAT_MOVE_BACKWARD) && p == pos - VSS_SEAT_POSITION_MOVE_STEP)
  {
  }
}
