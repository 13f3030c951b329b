/**
 * Newline-delimited string framing on the host connection.
 *
 * A message goes on the wire as its characters followed by one '\n'.
 * A receiver reads one character at a time up to and including the
 * first terminator, then extracts a line from what it read, which drops
 * the terminator and keeps every other character (a '\r' included).
 */
module Framing {
  import opened Wrappers

  const Newline: char := '\n'

  /**
   * What SendString puts on the wire for `message`: the message, then one
   * terminator.  For a terminator-free message the first terminator of the
   * frame is its last character, so one read up to it consumes the frame whole.
   */
  function Frame(message: string): (f: string)
    ensures Newline !in message ==> TerminatorIndex(f, Newline) == Some(|message|)
  {
    var f := message + [Newline];
    assert f[..|message|] == message;
    if Newline in message then f
    else
      TerminatorIndexUnique(f, Newline, |message|);
      f
  }

  /** Position of the first `c` in `s`, if any. */
  function TerminatorIndex(s: seq<char>, c: char): (r: Option<nat>)
    ensures r.Some? ==> r.value < |s| && s[r.value] == c && c !in s[..r.value]
    ensures r.None? ==> c !in s
  {
    if s == [] then None
    else if s[0] == c then Some(0)
    else
      match TerminatorIndex(s[1..], c)
      case None => None
      case Some(k) =>
        assert s[1..][..k] == s[1..k + 1];
        assert s[..k + 1] == [s[0]] + s[1..k + 1];
        Some(k + 1)
  }

  /** The first terminator is unique: any index holding `c` with no earlier `c` is it. */
  lemma TerminatorIndexUnique(s: seq<char>, c: char, k: nat)
    requires k < |s| && s[k] == c && c !in s[..k]
    ensures TerminatorIndex(s, c) == Some(k)
  {
    assert s[k] in s[..k + 1];
  }

  /**
   * What reading up to and including the first `c` does to a stream:
   * the characters read (the buffer) and what is left unread.  None when
   * the stream ends before a `c` arrives.
   */
  function ReadUntil(s: seq<char>, c: char): (r: Option<(seq<char>, seq<char>)>)
    ensures r.None? <==> c !in s
    ensures r.Some? ==> r.value.0 + r.value.1 == s
    ensures r.Some? ==> |r.value.0| > 0 && r.value.0[|r.value.0| - 1] == c
    ensures r.Some? ==> c !in r.value.0[..|r.value.0| - 1]
  {
    match TerminatorIndex(s, c)
    case None => None
    case Some(k) =>
      assert s[..k + 1][..k] == s[..k];
      Some((s[..k + 1], s[k + 1..]))
  }

  /**
   * std::getline on a buffer: the characters before the first '\n'
   * (which is extracted and dropped), or the whole buffer when it holds none.
   */
  function GetLine(buffer: seq<char>): (line: string)
    ensures |line| <= |buffer| && line == buffer[..|line|]
    ensures Newline !in line
    ensures |line| < |buffer| ==> buffer[|line|] == Newline
  {
    match TerminatorIndex(buffer, Newline)
    case None => buffer
    case Some(k) => buffer[..k]
  }

  /**
   * ReceiveString on a stream: the received message and the unread rest,
   * or None when the stream ends before a terminator.
   */
  function Unframe(s: seq<char>): (r: Option<(string, seq<char>)>)
    ensures r.None? <==> Newline !in s
    ensures r.Some? ==> var n := |r.value.0|;
      Newline !in r.value.0 && n < |s| && s[..n] == r.value.0 && s[n] == Newline && r.value.1 == s[n + 1..]
  {
    match ReadUntil(s, Newline)
    case None => None
    case Some((buffer, rest)) =>
      var k := |buffer| - 1;
      TerminatorIndexUnique(buffer, Newline, k);
      assert buffer == buffer[..k] + [Newline];
      Some((GetLine(buffer), rest))
  }

  /** Receiving what SendString wrote gives back the message and leaves what follows unread. */
  lemma {:induction false} FrameRoundTrip(message: string, rest: seq<char>)
    requires Newline !in message
    ensures Unframe(Frame(message) + rest) == Some((message, rest))
  {
    var s := Frame(message) + rest;
    var n := |message|;
    assert s[n] == Newline;
    assert s[..n] == message;
    TerminatorIndexUnique(s, Newline, n);
    assert s[..n + 1] == Frame(message);
    assert s[n + 1..] == rest;
    TerminatorIndexUnique(Frame(message), Newline, n);
  }

  /** A receive never returns a message that holds a terminator, and stops at the first one. */
  lemma UnframeStopsAtFirstNewline(s: seq<char>, k: nat)
    requires k < |s| && s[k] == Newline && Newline !in s[..k]
    ensures Unframe(s) == Some((s[..k], s[k + 1..]))
  {
    TerminatorIndexUnique(s, Newline, k);
    assert s[..k + 1][..k] == s[..k];
    TerminatorIndexUnique(s[..k + 1], Newline, k);
  }
}
