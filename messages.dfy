/** The MQTT reply payloads the application publishes, as structured values.
    A payload `{"result": {"status": s, "message": m}}` is `Reply(s, m)`;
    its JSON text is left to the serialiser. */
module Messages {
  import opened Wrappers
  import opened Decimal

  const GET_SPEED_RESPONSE_TOPIC := "sampleapp/getSpeed/response"
  const VOICE_CONTROL_RESPONSE_TOPICE := "tw_mcu/sdvos_voice_ctrl/response"

  const SPEED_MESSAGE_PREFIX := "Current Speed = "

  /** The `result` object of a reply payload. */
  datatype Reply = Reply(status: int, message: string)

  /** One `publish_mqtt_event(topic, payload)`. */
  datatype Publication = Publication(topic: string, result: Reply)

  /** `send_mqtt_response(msg)`: a status-1 reply on the voice-control response topic. */
  function VoiceResponse(msg: string): (p: Publication)
    ensures p.topic == VOICE_CONTROL_RESPONSE_TOPICE && p.topic != GET_SPEED_RESPONSE_TOPIC
    ensures p.result.status == 1 && p.result.message == msg
  {
    Publication(VOICE_CONTROL_RESPONSE_TOPICE, Reply(1, msg))
  }

  /** The answer to a speed query: a status-0 reply whose message is the
      prefix followed by the speed, from which the speed can be read back. */
  function SpeedResponse(speed: int): (p: Publication)
    ensures p.topic == GET_SPEED_RESPONSE_TOPIC && p.topic != VOICE_CONTROL_RESPONSE_TOPICE
    ensures p.result.status == 0
    ensures |p.result.message| > |SPEED_MESSAGE_PREFIX|
    ensures p.result.message[..|SPEED_MESSAGE_PREFIX|] == SPEED_MESSAGE_PREFIX
    ensures p.result.message[|SPEED_MESSAGE_PREFIX|..] == ToString(speed)
    ensures Parse(p.result.message[|SPEED_MESSAGE_PREFIX|..]) == Some(speed)
  {
    var msg := SPEED_MESSAGE_PREFIX + ToString(speed);
    assert msg[|SPEED_MESSAGE_PREFIX|..] == ToString(speed);
    Publication(GET_SPEED_RESPONSE_TOPIC, Reply(0, msg))
  }

  /** Two speed replies carry the same message only for the same speed. */
  lemma SpeedResponseInjective(a: int, b: int)
    requires SpeedResponse(a) == SpeedResponse(b)
    ensures a == b
  {
  }

  /** A voice-control reply is never a speed reply, and distinct messages
      give distinct voice-control replies. */
  lemma VoiceResponseDistinct(msg: string, msg': string, speed: int)
    ensures VoiceResponse(msg) != SpeedResponse(speed)
    ensures VoiceResponse(msg) == VoiceResponse(msg') ==> msg == msg'
  {
  }
}
