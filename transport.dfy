/**
 * The client's single TCP connection to the host, seen as two character
 * streams: what the host has sent and the client has not read yet, and
 * everything the client has written.  A read on a socket that is not
 * connected, or one that finds the stream exhausted, fails (Boost.Asio
 * throws); the callers turn that into status 1.
 */
module Transport {
  import opened Wrappers
  import opened Framing

  /** Return codes shared by every step of the client. */
  const Ok: int := 0
  const Failed: int := 1

  class Socket {
    var open: bool
    var incoming: seq<char>
    var sent: seq<char>

    /** An unconnected socket; `incoming` is everything the host will ever send. */
    constructor (incoming: seq<char>)
      ensures !open && this.incoming == incoming && sent == []
    {
      open := false;
      this.incoming := incoming;
      sent := [];
    }

    /** Connect to the host; `reachable` stands for the outcome of the TCP connect. */
    method Connect(reachable: bool) returns (status: int)
      modifies this`open
      ensures open == reachable
      ensures status == if reachable then Ok else Failed
    {
      open := reachable;
      status := if reachable then Ok else Failed;
    }

    /**
     * Read one character at a time, appending each to the buffer, until
     * the character just read is `c`.  `ok` is false when the read fails
     * first; the characters consumed by then are lost with the buffer.
     */
    method ReadUntilNewline(c: char) returns (ok: bool, buffer: seq<char>)
      modifies this`incoming
      ensures ok <==> open && ReadUntil(old(incoming), c).Some?
      ensures ok ==> ReadUntil(old(incoming), c) == Some((buffer, incoming))
      ensures !ok ==> incoming == if open then [] else old(incoming)
    {
      buffer := [];
      if !open {
        return false, buffer;
      }
      while true
        invariant buffer + incoming == old(incoming)
        invariant c !in buffer
        decreases |incoming|
      {
        if incoming == [] {
          return false, buffer;
        }
        var ch := incoming[0];
        incoming := incoming[1..];
        buffer := buffer + [ch];
        if ch == c {
          assert buffer[..|buffer| - 1] + [c] + incoming == old(incoming);
          TerminatorIndexUnique(old(incoming), c, |buffer| - 1);
          return true, buffer;
        }
      }
    }

    /**
     * Receive one newline-terminated message.  On failure the caller's
     * string `init` is left as it was.
     */
    method ReceiveString(init: string) returns (status: int, message: string)
      modifies this`incoming
      ensures status == Ok <==> open && Unframe(old(incoming)).Some?
      ensures status == Ok || status == Failed
      ensures status == Ok ==> Unframe(old(incoming)) == Some((message, incoming))
      ensures status == Failed ==> message == init && incoming == if open then [] else old(incoming)
    {
      var ok, buffer := ReadUntilNewline(Newline);
      if !ok {
        return Failed, init;
      }
      message := GetLine(buffer);
      status := Ok;
    }

    /** Write the message followed by a single newline. */
    method SendString(message: string) returns (status: int)
      modifies this`sent
      ensures status == if open then Ok else Failed
      ensures sent == if open then old(sent) + Frame(message) else old(sent)
    {
      if !open {
        return Failed;
      }
      sent := sent + Frame(message);
      status := Ok;
    }
  }
}
