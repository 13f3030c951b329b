/**
 * The capture client's start-up: the process-wide state (device index,
 * serial, assigned id, open device, working directory, host connection)
 * as one object, and the five steps `main` runs in order.
 */
module Client {
  import opened Wrappers
  import opened Framing
  import opened Transport
  import opened Decimal
  import opened Checklist
  import opened Device

  const HostAddress: string := "140.114.24.234"
  const HostPort: int := 8080
  const DefaultCameraName: string := "000835513412"
  const UnassignedId: int := -1

  /** Number of steps `main` chains. */
  const StepCount: nat := 5

  lemma SliceGrows<T>(s: seq<T>, lo: nat, hi: nat)
    requires lo <= hi < |s|
    ensures s[lo..hi + 1] == s[lo..hi] + [s[hi]]
  {
  }

  /**
   * When the host answers with the decimal rendering of an id (and
   * possibly more after the newline), the id exchange assigns exactly that
   * id and leaves the rest unread.
   */
  lemma AssignedIdRoundTrip(id: nat, rest: seq<char>)
    requires id <= Int32Max
    ensures var reply := Unframe(Frame(ToDecimal(id)) + rest);
      reply == Some((ToDecimal(id), rest)) && Stoi(reply.value.0) == Some(id)
  {
    var d := ToDecimal(id);
    assert Newline !in d;
    FrameRoundTrip(d, rest);
    StoiOfDecimal(id, []);
    assert d + [] == d;
  }

  /** The trailing loop: every line from position `from` on is read and echoed. */
  method EchoRest(output: seq<string>, from: nat) returns (echoed: seq<string>)
    requires from <= |output|
    ensures echoed == output[from..]
  {
    echoed := [];
    var i := from;
    while i < |output|
      invariant from <= i <= |output|
      invariant echoed == output[from..i]
    {
      SliceGrows(output, from, i);
      echoed := echoed + [output[i]];
      i := i + 1;
    }
  }

  class Session {
    const host: Socket
    var camnum: uint32
    var cameraName: string
    var cameraId: int
    var deviceOpen: bool
    var workingDirectory: seq<string>

    /** The state before `main` starts; `incoming` is what the host will send. */
    constructor (incoming: seq<char>)
      ensures fresh(host) && !host.open && host.incoming == incoming && host.sent == []
      ensures camnum == 0 && cameraName == DefaultCameraName && cameraId == UnassignedId
      ensures !deviceOpen && workingDirectory == []
    {
      host := new Socket(incoming);
      camnum := 0;
      cameraName := DefaultCameraName;
      cameraId := UnassignedId;
      deviceOpen := false;
      workingDirectory := [];
    }

    /**
     * Open the lowest-numbered device that opens and take its serial as
     * the camera name.  Fails when no device is attached or none opens;
     * after trying them all, `camnum` is left at `count`.
     */
    method GetCamera(count: uint32, opens: nat -> bool, serialOf: nat -> string) returns (status: int)
      modifies this`camnum, this`deviceOpen, this`cameraName
      ensures status == Ok || status == Failed
      ensures status == Ok <==> FirstOpen(count, opens).Some?
      ensures status == Ok ==> camnum == FirstOpen(count, opens).value
      ensures status == Ok ==> deviceOpen && cameraName == serialOf(camnum)
      ensures status == Failed ==> camnum == (if count == 0 then old(camnum) else count)
      ensures status == Failed ==> deviceOpen == old(deviceOpen) && cameraName == old(cameraName)
    {
      if count == 0 {
        return Failed;
      }
      camnum := 0;
      while !opens(camnum)
        invariant camnum < count
        invariant forall j :: 0 <= j < camnum ==> !opens(j)
        invariant deviceOpen == old(deviceOpen) && cameraName == old(cameraName)
        decreases count - camnum
      {
        camnum := camnum + 1;
        if camnum >= count {
          return Failed;
        }
      }
      deviceOpen := true;
      cameraName := serialOf(camnum);
      status := Ok;
    }

    /**
     * Create a directory named after the camera if needed and make it the
     * working directory; `fsOk` stands for whether the filesystem calls succeed.
     */
    method SwitchWorkingEnvironments(fsOk: string -> bool) returns (status: int)
      modifies this`workingDirectory
      ensures status == (if fsOk(cameraName) then Ok else Failed)
      ensures workingDirectory == if fsOk(cameraName) then old(workingDirectory) + [cameraName] else old(workingDirectory)
    {
      if !fsOk(cameraName) {
        return Failed;
      }
      workingDirectory := workingDirectory + [cameraName];
      status := Ok;
    }

    /**
     * Send the serial, then the device index in decimal, then receive the
     * id the host assigns.  The first failed send or receive aborts; so
     * does a reply that is not an integer.  On success the device is closed.
     */
    method ReceiveCameraId() returns (status: int)
      modifies this`cameraId, this`deviceOpen, host`sent, host`incoming
      ensures status == Ok || status == Failed
      ensures !host.open ==> status == Failed && host.sent == old(host.sent) && host.incoming == old(host.incoming)
      ensures host.open ==> host.sent == old(host.sent) + Frame(cameraName) + Frame(ToDecimal(camnum))
      ensures var reply := Unframe(old(host.incoming));
        status == Ok <==> host.open && reply.Some? && Stoi(reply.value.0).Some?
      ensures var reply := Unframe(old(host.incoming));
        status == Ok ==> cameraId == Stoi(reply.value.0).value && !deviceOpen && host.incoming == reply.value.1
      ensures status == Failed ==> cameraId == old(cameraId) && deviceOpen == old(deviceOpen)
      ensures var reply := Unframe(old(host.incoming));
        host.open ==> host.incoming == if reply.Some? then reply.value.1 else []
    {
      var s := cameraName;
      status := host.SendString(s);
      if status == Failed {
        return;
      }
      s := ToDecimal(camnum);
      status := host.SendString(s);
      if status == Failed {
        return;
      }
      s := "";
      ghost var reply := Unframe(host.incoming);
      status, s := host.ReceiveString(s);
      if status == Failed {
        return;
      }
      assert reply == Some((s, host.incoming));
      match Stoi(s)
      case None =>
        status := Failed;
      case Some(id) =>
        cameraId := id;
        deviceOpen := false;
        status := Ok;
    }

    /**
     * Validate the child's output against the checklist of this camera's
     * role and report "success" or "fail" to the host; after a reported
     * success, echo the rest of the output.  `echoed` is every line of the
     * output written to the console.
     */
    method ValidateAndReport(output: seq<string>) returns (status: int, echoed: seq<string>)
      modifies host`sent
      ensures var passed := Passes(output, Expected(cameraId, cameraName));
        status == (if passed && host.open then Ok else Failed) &&
        host.sent == if host.open then old(host.sent) + Frame(Verdict(output, Expected(cameraId, cameraName))) else old(host.sent)
      ensures status == Ok ==>
        var n := |Expected(cameraId, cameraName)|;
        echoed == output[..n] + output[if n < |output| then n + 1 else n..]
    {
      var expected := Expected(cameraId, cameraName);
      var checki, next;
      checki, next, echoed := ScanChecklist(output, expected);
      var passed := checki == |expected|;
      assert passed == Passes(output, expected);
      status := host.SendString(Verdict(output, expected));
      if status == Failed || !passed {
        return Failed, echoed;
      }
      var rest := EchoRest(output, next);
      echoed := echoed + rest;
    }

    /**
     * Receive the recorder command line, run it (`run` gives the child's
     * standard output, or None when it cannot be launched), then validate
     * and report.  A failed receive or launch sends nothing.
     */
    method CommandsReceive(run: string -> Option<seq<string>>)
      returns (status: int, command: string, echoed: seq<string>)
      modifies host`sent, host`incoming
      ensures status == Ok || status == Failed
      ensures var received := Unframe(old(host.incoming));
        !(host.open && received.Some?) ==> status == Failed && host.sent == old(host.sent)
      ensures var received := Unframe(old(host.incoming));
        host.open && received.Some? ==> command == received.value.0 && host.incoming == received.value.1
      ensures host.open && Unframe(old(host.incoming)).None? ==> host.incoming == []
      ensures run(command).None? ==> status == Failed && host.sent == old(host.sent)
      ensures status == Ok ==> host.open && run(command).Some?
      ensures host.open && run(command).Some? && Unframe(old(host.incoming)).Some? ==>
        var passed := Passes(run(command).value, Expected(cameraId, cameraName));
        host.sent == old(host.sent) + Frame(Verdict(run(command).value, Expected(cameraId, cameraName))) &&
        (status == Ok <==> passed)
      ensures status == Ok ==>
        var output, n := run(command).value, |Expected(cameraId, cameraName)|;
        echoed == output[..n] + output[if n < |output| then n + 1 else n..]
    {
      echoed := [];
      status, command := host.ReceiveString("");
      if status == Failed {
        return;
      }
      var child := run(command);
      if child.None? {
        return Failed, command, echoed;
      }
      status, echoed := ValidateAndReport(child.value);
    }

    /**
     * `main`: connect, open the camera, enter its directory, exchange ids,
     * validate synchronisation.  A step runs only when every step before
     * it returned 0; the first step that returns 1 ends the run with exit
     * code 1.  `ran` is the number of steps that ran.
     */
    method Run(reachable: (string, int) -> bool, count: uint32, opens: nat -> bool,
               serialOf: nat -> string, fsOk: string -> bool,
               run: string -> Option<seq<string>>)
      returns (exitCode: int, ran: nat)
      modifies this, host
      ensures 1 <= ran <= StepCount
      ensures exitCode == Ok || exitCode == Failed
      ensures exitCode == Ok ==> ran == StepCount
      ensures ran < StepCount ==> exitCode == Failed
      ensures ran > 1 <==> reachable(HostAddress, HostPort)
      ensures ran > 2 <==> ran > 1 && FirstOpen(count, opens).Some?
      ensures ran > 3 <==> ran > 2 && fsOk(cameraName)
      ensures var reply := Unframe(old(host.incoming));
        ran > 4 <==> ran > 3 && reply.Some? && Stoi(reply.value.0).Some?
      ensures var reply := Unframe(old(host.incoming));
        ran == StepCount && reply.Some? ==>
        var received := Unframe(reply.value.1);
        (exitCode == Ok <==>
          received.Some? && run(received.value.0).Some? &&
          Passes(run(received.value.0).value, Expected(cameraId, cameraName)))
      ensures exitCode == Ok ==>
        host.sent == old(host.sent) + Frame(cameraName) + Frame(ToDecimal(camnum)) + Frame(SuccessReply)
      // What each step leaves behind; a step that did not run changes nothing.
      ensures host.open == reachable(HostAddress, HostPort)
      ensures ran == 1 ==> camnum == old(camnum) && cameraName == old(cameraName) && deviceOpen == old(deviceOpen)
      ensures ran == 2 ==>
        camnum == (if count == 0 then old(camnum) else count) &&
        cameraName == old(cameraName) && deviceOpen == old(deviceOpen)
      ensures ran > 2 ==> camnum == FirstOpen(count, opens).value && cameraName == serialOf(camnum)
      ensures workingDirectory == if ran > 3 then old(workingDirectory) + [cameraName] else old(workingDirectory)
      ensures ran <= 3 ==> host.sent == old(host.sent) && host.incoming == old(host.incoming) && cameraId == old(cameraId)
      ensures ran == 3 ==> deviceOpen
      ensures var reply := Unframe(old(host.incoming));
        ran == 4 ==>
        cameraId == old(cameraId) && deviceOpen &&
        host.sent == old(host.sent) + Frame(cameraName) + Frame(ToDecimal(camnum)) &&
        host.incoming == if reply.Some? then reply.value.1 else []
      ensures var reply := Unframe(old(host.incoming));
        ran == StepCount ==> cameraId == Stoi(reply.value.0).value && !deviceOpen
      ensures var reply := Unframe(old(host.incoming));
        ran == StepCount ==>
        var received := Unframe(reply.value.1);
        var launched := received.Some? && run(received.value.0).Some?;
        host.incoming == (if received.Some? then received.value.1 else []) &&
        host.sent == old(host.sent) + Frame(cameraName) + Frame(ToDecimal(camnum)) +
          (if launched then Frame(Verdict(run(received.value.0).value, Expected(cameraId, cameraName))) else [])
    {
      ran := 1;
      var status := host.Connect(reachable(HostAddress, HostPort));
      if status == Failed {
        return Failed, ran;
      }
      ran := 2;
      status := GetCamera(count, opens, serialOf);
      if status == Failed {
        return Failed, ran;
      }
      ran := 3;
      status := SwitchWorkingEnvironments(fsOk);
      if status == Failed {
        return Failed, ran;
      }
      ran := 4;
      ghost var sentBefore := host.sent;
      status := ReceiveCameraId();
      if status == Failed {
        return Failed, ran;
      }
      ran := 5;
      ghost var sentAfterId := host.sent;
      var command, echoed;
      status, command, echoed := CommandsReceive(run);
      if status == Failed {
        return Failed, ran;
      }
      PassesIff(run(command).value, Expected(cameraId, cameraName));
      exitCode := Ok;
    }
  }
}
