/** The application object. Its voice-control handler works step by step as
    the application does: ten independent `if` blocks, each comparing the
    command with one code, issuing its writes in order and updating the
    seat-position tracker. Every signal write, delay and publish is
    appended to `trace`. */
module App {
  import opened Wrappers
  import opened Messages
  import opened VoiceRules

  class SampleApp {
    /** The process-wide current seat position. */
    var seatPos: int
    /** Everything the application has done to the outside world, in order. */
    var trace: seq<Action>

    ghost predicate Valid()
      reads this
    {
      Reachable(seatPos)
    }

    constructor ()
      ensures Valid()
      ensures seatPos == VSS_SEAT_POSITION_BASE && trace == []
    {
      seatPos := VSS_SEAT_POSITION_BASE;
      trace := [];
      ReachableIsThreePositions(VSS_SEAT_POSITION_BASE);
    }

    /** A data-broker `set` of one signal. */
    method SetSignal(signal: Signal, value: int)
      modifies this`trace
      ensures trace == old(trace) + [Write(signal, value)]
    {
      trace := trace + [Write(signal, value)];
    }

    /** `asyncio.sleep(seconds)`. */
    method Sleep(seconds: nat)
      modifies this`trace
      ensures trace == old(trace) + [Delay(seconds)]
    {
      trace := trace + [Delay(seconds)];
    }

    /** `send_mqtt_response(msg)`: publishes a status-1 reply carrying `msg`
        on the voice-control response topic. */
    method SendMqttResponse(msg: string)
      modifies this`trace
      ensures trace == old(trace) + [Publish(VoiceResponse(msg))]
    {
      trace := trace + [Publish(VoiceResponse(msg))];
    }

    /** The voice-control handler, for the already-decoded `voice_cmd`. */
    method OnVoiceControlRequestReceived(voiceCmd: Option<int>)
      modifies this
      ensures seatPos == Step(old(seatPos), voiceCmd).seatPos
      ensures trace == old(trace) + Step(old(seatPos), voiceCmd).actions
      ensures old(Valid()) ==> Valid()
    {
      ghost var pos0 := seatPos;

      if Some(SDVOS_SEAT_MOVE_FORWARD) == voiceCmd {
        var position := seatPos + VSS_SEAT_POSITION_MOVE_STEP;
        if seatPos >= VSS_SEAT_POSITION_MAX {
          SendMqttResponse(MSG_ABOVE_MAX);
        } else {
          SetSignal(SeatPosition, position);
          seatPos := position;
        }
      }

      if Some(SDVOS_SEAT_MOVE_BACKWARD) == voiceCmd {
        var position := seatPos - VSS_SEAT_POSITION_MOVE_STEP;
        if seatPos <= VSS_SEAT_POSITION_MIN {
          SendMqttResponse(MSG_BELOW_MIN);
        } else {
          SetSignal(SeatPosition, position);
          seatPos := position;
        }
      }

      if Some(SDVOS_FAN_START) == voiceCmd {
        SetSignal(FanSpeed, VSS_FAN_START);
      }

      if Some(SDVOS_FAN_STOP) == voiceCmd {
        SetSignal(FanSpeed, VSS_FAN_STOP);
      }

      if Some(SDVOS_MIRRORREAR_PAN_LEFT) == voiceCmd {
        SetSignal(MirrorLeftPan, VSS_MIRROR_PAN_LEFT);
        Sleep(MOVE_DELAY);
        SetSignal(MirrorLeftPan, VSS_MIRROR_MOVE_STOP);
      }

      if Some(SDVOS_MIRRORREAR_PAN_RIGHT) == voiceCmd {
        SetSignal(MirrorLeftPan, VSS_MIRROR_PAN_RIGHT);
        Sleep(MOVE_DELAY);
        SetSignal(MirrorLeftPan, VSS_MIRROR_MOVE_STOP);
      }

      if Some(SDVOS_MIRRORREAR_TITL_UP) == voiceCmd {
        SetSignal(MirrorLeftPan, VSS_MIRROR_TILT_UP);
        Sleep(MOVE_DELAY);
        SetSignal(MirrorLeftPan, VSS_MIRROR_MOVE_STOP);
      }

      if Some(SDVOS_MIRRORREAR_TITL_DOWN) == voiceCmd {
        SetSignal(MirrorLeftPan, VSS_MIRROR_TILT_DOWN);
        Sleep(MOVE_DELAY);
        SetSignal(MirrorLeftPan, VSS_MIRROR_MOVE_STOP);
      }

      if Some(SDVOS_LUMBAR_SUPPORT_START) == voiceCmd {
        SetSignal(LumbarSupport, VSS_LUMBAR_AIRCELL0);
        SetSignal(LumbarSupport, VSS_LUMBAR_AIRCELL1);
        Sleep(MOVE_DELAY);
        SetSignal(LumbarSupport, VSS_LUMBAR_AIRCELL_STOP);
      }
      if Some(SDVOS_LUMBAR_SUPPORT_DEFLATION) == voiceCmd {
        SetSignal(LumbarSupport, VSS_LUMBAR_AIRCELL_DEFLATION);
      }

      if old(Valid()) {
        StepPreservesReachable(pos0, voiceCmd);
      }
    }

    /** The speed-query handler; `speed` is the value the data broker's
        `Speed.get()` returned. Publishes the speed reply and nothing else. */
    method OnGetSpeedRequestReceived(speed: int)
      modifies this`trace
      ensures trace == old(trace) + [Publish(SpeedResponse(speed))]
    {
      trace := trace + [Publish(SpeedResponse(speed))];
    }
  }
}
