/** The websocket exchange with the controller at ws://<controller_ip>:9000/ws/.
    Each exchange opens a connection, sends one text frame, receives one and
    closes. The network is not modelled: the controller is a script of the
    outcomes its exchanges will have, and a log of the frames the plugin
    tried to send it. */
module Transport {

  import opened JsonData

  /** What one exchange yields to the code that handles its reply. */
  datatype Response =
    | NoReply              // create_connection, send, recv or close raised
    | Unparsable           // a reply arrived but json.loads rejects it
    | Parsed(value: Json)  // a reply arrived and json.loads returned value

  /** One text frame, and the controller host it was meant for. */
  datatype Message = Message(host: string, text: string)

  /** The outcome of the next exchange; a controller with nothing scripted
      refuses the connection. */
  function Next(script: seq<Response>): Response {
    if script == [] then NoReply else script[0]
  }

  function Rest(script: seq<Response>): (rest: seq<Response>)
    ensures |rest| == if script == [] then 0 else |script| - 1
  {
    if script == [] then [] else script[1..]
  }

  /** The outcome of the exchange `i` places ahead in the script. */
  function At(script: seq<Response>, i: nat): Response {
    if i < |script| then script[i] else NoReply
  }

  /** The script left after `n` exchanges. */
  function Drop(script: seq<Response>, n: nat): seq<Response> {
    if n <= |script| then script[n..] else []
  }

  /** Taking the next outcome of the script left after `n` exchanges. */
  lemma NextOfDrop(script: seq<Response>, n: nat)
    ensures Drop(script, 0) == script
    ensures Next(Drop(script, n)) == At(script, n) && Rest(Drop(script, n)) == Drop(script, n + 1)
  {
  }

  class Controller {
    /** The outcomes of the coming exchanges, in order. */
    var script: seq<Response>
    /** Every frame the plugin tried to send so far, in order, including those
        whose connection was refused or whose exchange then failed. */
    var attempts: seq<Message>

    constructor (script: seq<Response>)
      ensures this.script == script && attempts == []
    {
      this.script := script;
      attempts := [];
    }

    /** One connect / send / recv / close round trip. */
    method Exchange(host: string, text: string) returns (r: Response)
      modifies this
      ensures attempts == old(attempts) + [Message(host, text)]
      ensures r == Next(old(script)) && script == Rest(old(script))
    {
      r := Next(script);
      script := Rest(script);
      attempts := attempts + [Message(host, text)];
    }
  }
}
