# AzureKinectMaster capture client — start-up model

A Dafny model of the start-up logic of the AzureKinectMaster capture client. One
instance runs per Azure Kinect depth camera. It connects to the coordinating host and
opens the first camera that opens. It then enters a working directory named after the
camera's serial number, tells the host its serial and device index, and receives the
camera id the host assigns (1 = master, anything else = subordinate). Finally it
receives a recorder command line, runs it, and checks the recorder's first output lines
against the hardware-synchronisation checklist for its role. It reports "success" or
"fail" to the host.

Modules:

- `Framing` (framing.dfy): newline framing on the host connection as functions over
  character streams. It covers what a send puts on the wire, what reading up to the
  first terminator consumes, and what `getline` extracts, with the round-trip lemmas.
- `Transport` (transport.dfy): the host connection as a class `Socket` with the
  characters not yet read (`incoming`) and everything written (`sent`). It holds the
  byte-at-a-time read loop, the string receive and the string send. Each is proved
  against `Framing`.
- `Decimal` (decimal.dfy): `std::to_string` of the device index and `std::stoi` of the
  reply, with the round trip between them.
- `Checklist` (checklist.dfy): the checklist of each role and the validation loop,
  proved against the function `MatchedPrefix`. It also holds the if-and-only-if
  characterisation of a pass and the "success"/"fail" reply.
- `Device` (device.dfy): which camera gets opened, as a specification function over an
  `opens` oracle.
- `Client` (client.dfy): the process-wide state (`camnum`, `camera_name`, `camera_id`,
  the open device, the working directory, the socket) as a class `Session`. Its methods
  are the five steps, and `Run` is `main` chaining them through `CHECK_AND_RETURN`.

Every step returns 0 or 1, as in the source (`Transport.Ok`, `Transport.Failed`). An
exception that the source catches becomes status 1 on the same path.

The system's wider design describes a length-prefixed wire format. This client's code
frames every string with a trailing newline instead, and the model follows the code.

## Model

| member | source | states |
|---|---|---|
| `Framing.Frame` | AzureKinectMaster/AzureKinectMaster.cpp:245 | a send writes the message and then `'\n'`; for a newline-free message the first newline of what was written is its last character |
| `Framing.TerminatorIndex` | AzureKinectMaster/AzureKinectMaster.cpp:209-218 | the index where the byte-at-a-time read stops: it holds the terminator and no earlier position does; none when the stream holds no terminator |
| `Framing.TerminatorIndexUnique` | AzureKinectMaster/AzureKinectMaster.cpp:214-217 | any position that holds the terminator with none before it is the stopping point |
| `Framing.ReadUntil` | AzureKinectMaster/AzureKinectMaster.cpp:205-219 | reading up to `c` fails exactly when `c` never arrives; otherwise buffer + unread rest is the stream, the buffer ends with `c`, and `c` occurs nowhere earlier in it |
| `Framing.GetLine` | AzureKinectMaster/AzureKinectMaster.cpp:230-231 | `getline` returns a prefix of the buffer with no newline in it, stopping only at a newline or at the end |
| `Framing.Unframe` | AzureKinectMaster/AzureKinectMaster.cpp:221-239 | a receive fails exactly when no newline arrives; otherwise it returns the newline-free text before the first newline and leaves everything after that newline unread, so what it consumed is exactly one frame |
| `Framing.FrameRoundTrip` | AzureKinectMaster/AzureKinectMaster.cpp:227-231 | receiving what a send of a newline-free message wrote returns that message (a `'\r'` kept) and leaves everything after it unread |
| `Framing.UnframeStopsAtFirstNewline` | AzureKinectMaster/AzureKinectMaster.cpp:209-218 | a receive consumes up to and including the first newline and no further |
| `Transport.Socket.constructor` | AzureKinectMaster/AzureKinectMaster.cpp:17-18 | the connection starts unconnected, with nothing written |
| `Transport.Socket.Connect` | AzureKinectMaster/AzureKinectMaster.cpp:67-76 | returns 0 and is connected exactly when the host is reachable, else 1 |
| `Transport.Socket.ReadUntilNewline` | AzureKinectMaster/AzureKinectMaster.cpp:205-219 | the loop's buffer and the unread stream are those `ReadUntil` gives; if the read fails, everything up to the end is consumed (nothing if unconnected) |
| `Transport.Socket.ReceiveString` | AzureKinectMaster/AzureKinectMaster.cpp:221-239 | returns 0 with the message and the rest given by `Unframe` exactly when a terminator arrives; otherwise returns 1 and leaves the caller's string as it was |
| `Transport.Socket.SendString` | AzureKinectMaster/AzureKinectMaster.cpp:241-253 | when connected, appends exactly the message followed by one `'\n'` and returns 0; otherwise writes nothing and returns 1 |
| `Decimal.ToDecimal` | AzureKinectMaster/AzureKinectMaster.cpp:120 | `to_string` of an unsigned index is a non-empty run of digits that starts with 0 only for 0 itself |
| `Decimal.DecimalRoundTrip` | AzureKinectMaster/AzureKinectMaster.cpp:120 | the value of the digits `to_string` writes is the number |
| `Decimal.SkipSpaces` | AzureKinectMaster/AzureKinectMaster.cpp:124 | `stoi` drops exactly the leading white space |
| `Decimal.LeadingDigits` | AzureKinectMaster/AzureKinectMaster.cpp:124 | `stoi` reads the longest run of digits at the front |
| `Decimal.Stoi` | AzureKinectMaster/AzureKinectMaster.cpp:124 | a parsed id always fits an `int` |
| `Decimal.StoiOfDigits` | AzureKinectMaster/AzureKinectMaster.cpp:124 | a reply starting with a digit parses to the value of its leading digits when that fits an `int`, and fails otherwise |
| `Decimal.StoiOfDecimal` | AzureKinectMaster/AzureKinectMaster.cpp:120-124 | `stoi(to_string(n))` is `n` for every `n` from 0 to 2^31-1, even with non-digit text (such as `'\r'`) after it |
| `Decimal.StoiNeedsDigit` | AzureKinectMaster/AzureKinectMaster.cpp:124 | a reply with no digit makes `stoi` fail |
| `Checklist.Expected` | AzureKinectMaster/AzureKinectMaster.cpp:145-147 | id 1 gets 3 entries, any other id 4; the first is `"Device serial number: " + camera_name + "\r"`; every entry ends in `'\r'` |
| `Checklist.SubordinateExtendsMaster` | AzureKinectMaster/AzureKinectMaster.cpp:147 | the subordinate list is the master list (line 170) plus the waiting-for-master line |
| `Checklist.MatchedPrefix` | AzureKinectMaster/AzureKinectMaster.cpp:149-155 | the number of entries matched: bounded by both lengths, the output agrees with the checklist up to it, and it stops only at a mismatch or at an end |
| `Checklist.MatchedPrefixUnique` | AzureKinectMaster/AzureKinectMaster.cpp:149-155 | those three facts determine the count |
| `Checklist.PassesIff` | AzureKinectMaster/AzureKinectMaster.cpp:156-166 | validation passes iff the output has at least N lines and its first N lines equal the N entries in order |
| `Checklist.FailureCause` | AzureKinectMaster/AzureKinectMaster.cpp:151-161 | a failed validation stopped with `checki == k < N`, at a mismatching line k or at the end of the output |
| `Checklist.SubordinatePassImpliesMasterPass` | AzureKinectMaster/AzureKinectMaster.cpp:170-179 | output that passes a subordinate check also passes the master check for the same serial |
| `Checklist.ScanChecklist` | AzureKinectMaster/AzureKinectMaster.cpp:172-178 | the loop ends with `checki` = `MatchedPrefix`; it has read one line past `checki` when one exists (one more line after a full match); it echoed every line read except the one read after a full match |
| `Checklist.Verdict` | AzureKinectMaster/AzureKinectMaster.cpp:179-189 | the reply is "success" exactly when the output has at least N lines and its first N lines are the N checklist entries in order, and "fail" exactly when it does not |
| `Device.FirstOpenFrom` | AzureKinectMaster/AzureKinectMaster.cpp:89-98 | the device chosen is the lowest index below `count` that opens, and every earlier one fails to open; none when no index opens (in particular when `count` is 0) |
| `Client.AssignedIdRoundTrip` | AzureKinectMaster/AzureKinectMaster.cpp:123-124 | a host reply holding the decimal form of an id is received whole and parses to that id, leaving what follows unread |
| `Client.EchoRest` | AzureKinectMaster/AzureKinectMaster.cpp:191-194 | the trailing loop echoes every remaining line, in order |
| `Client.Session.constructor` | AzureKinectMaster/AzureKinectMaster.cpp:17-22 | start-up values: `camnum` 0, serial `"000835513412"`, id -1, no device, unconnected socket |
| `Client.Session.GetCamera` | AzureKinectMaster/AzureKinectMaster.cpp:78-113 | returns 0 exactly when some device opens. On success `camnum` is the first one that opens, the device is open and the serial is that device's. On failure the state is unchanged except that `camnum` ends at `count` once any device was tried |
| `Client.Session.SwitchWorkingEnvironments` | AzureKinectMaster/AzureKinectMaster.cpp:52-65 | on success the working directory descends into the directory named after the serial; on failure it is unchanged and 1 is returned |
| `Client.Session.ReceiveCameraId` | AzureKinectMaster/AzureKinectMaster.cpp:115-131 | sends the serial then `to_string(camnum)`, nothing when unconnected. Returns 0 exactly when a reply arrives and `stoi` accepts it; then the id is the parsed reply and the device is closed. Otherwise the id and device are unchanged. When connected, the unread stream is what follows the reply, or empty when no reply arrived |
| `Client.Session.ValidateAndReport` | AzureKinectMaster/AzureKinectMaster.cpp:145-194 | sends "success" or "fail" according to `Passes` on the role's checklist. Returns 0 only when validation passed and the send went out. Then the console shows every output line except line N+1 |
| `Client.Session.CommandsReceive` | AzureKinectMaster/AzureKinectMaster.cpp:135-203 | a failed command receive or launch sends nothing and returns 1; a failed receive on a connected socket leaves the stream empty. Otherwise exactly the verdict goes out, and 0 is returned iff the child's output passes the checklist of this camera's role |
| `Client.Session.Run` | AzureKinectMaster/AzureKinectMaster.cpp:33-46 | steps run in fixed order, and step k+1 runs iff step k returned 0. A step that did not run changes nothing: for each number of steps run, the device index, serial, open device, working directory, assigned id, bytes sent and unread stream are exactly those the steps that ran leave behind. The exit code is 1 as soon as a step fails. Once the fifth step runs, the exit code is 0 exactly when a second frame (the command) arrives, the command launches, and its output passes the checklist of the assigned role; then the host has received serial, index and "success", in that order |

## Left out

- The TCP connection is a `Socket` whose `incoming` is all the host will ever send. Connecting is the oracle outcome `reachable(address, port)`, with the source's address and port.
- `Transport.Socket.SendString`: a write is all-or-nothing and fails only on an unconnected socket. A peer reset or partial write on a connected socket is not modelled.
- The Azure Kinect driver calls are replaced by parameters. `k4a_device_get_installed_count` is `count`, `k4a_device_open` is the oracle `opens`, and the serial of device i is `serialOf(i)`. The serial's `malloc`'d buffer (never freed) and the device handle itself are not modelled; only whether a device is open is.
- The filesystem calls of `Switch_working_environments` are the single oracle `fsOk(camera_name)`.
- The recorder child process is the oracle `run(command)`: its standard output as lines, or none when it cannot be launched. Its exit code and `wait()` are not modelled.
- Console and error logging (`std::cout`, `std::cerr`, `Print_error`) is left out. The one exception is the echo of the recorder's lines, returned as `echoed`.
- `Decimal.Stoi` covers leading white space, an optional sign, the longest digit run, trailing text and the `int` range. It leaves out locale-dependent white space and any base other than 10.
- The capture pipeline, the blocking queues, the retention window, the length-prefixed message framing and the reconnect supervisor of the wider system are not part of this source file. They are not part of this model.
