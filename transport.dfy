/** The tunnel WebSocket as the gateway sees it, and the JSON frames carried on it.
    JSON text and its UTF-8 length are not modelled: a frame arrives already
    decoded, with its byte length given beside it. */
module Transport {
  import opened Common

  /** A decoded JSON object frame from the agent; an absent key is None.
      `headers` keeps the order of the JSON object, one pair per key. */
  datatype Message = Message(
    msgType: Option<string>,
    requestId: Option<string>,
    status: Option<int>,
    headers: Option<seq<(string, string)>>,
    body: Option<string>)

  /** The request frame the router sends: `path` already carries its leading slash,
      and `body` is None for an empty body. */
  datatype ForwardedRequest = ForwardedRequest(
    requestId: string,
    httpMethod: string,
    path: string,
    headers: seq<(string, string)>,
    body: Option<string>)

  datatype OutFrame = PingFrame | PongFrame | RequestFrame(request: ForwardedRequest)

  datatype CloseFrame = CloseFrame(code: int, reason: string)

  /** Close code of a plain `websocket.close()`. */
  const NormalClosure := 1000

  /** The server end of one agent connection: whether it was accepted, the close
      frame it sent, and every frame the gateway tried to send on it, in order
      (a send that fails is still attempted; its caller is told of the failure). */
  class WebSocket {
    var accepted: bool
    var closed: Option<CloseFrame>
    var sends: seq<OutFrame>

    constructor ()
      ensures !accepted && closed == None && sends == []
    {
      accepted := false;
      closed := None;
      sends := [];
    }

    method Accept()
      modifies this
      ensures accepted && closed == old(closed) && sends == old(sends)
    {
      accepted := true;
    }

    method Close(code: int, reason: string)
      modifies this
      ensures closed == Some(CloseFrame(code, reason))
      ensures accepted == old(accepted) && sends == old(sends)
    {
      closed := Some(CloseFrame(code, reason));
    }

    method Send(f: OutFrame)
      modifies this
      ensures sends == old(sends) + [f]
      ensures accepted == old(accepted) && closed == old(closed)
    {
      sends := sends + [f];
    }
  }
}
