/**
 * Length-prefixed messages over the service's named pipe
 * (windows/updater/win_security.cpp, windows/updater/service_main.cpp): a
 * transfer proceeds in rounds, each of which may move only a part.
 */
module Pipes {
  import opened Common

  type Byte = b: int | 0 <= b < 256

  const MaxMessageBytes := 1024 * 1024

  /**
   * What a round of overlapped I/O ends with: some bytes moved, an expired
   * deadline, an error, or a cancellation that caught `count` bytes under way.
   */
  datatype Event = Moved(count: nat) | Late | Broken | Cancelled(count: nat)

  /** One end of the pipe: what it has written so far, and what it has still to read. */
  class Endpoint {
    var sent: seq<Byte>
    var incoming: seq<Byte>

    constructor (incoming: seq<Byte>)
      ensures sent == [] && this.incoming == incoming
    {
      sent, this.incoming := [], incoming;
    }
  }

  function Min(a: nat, b: nat): nat {
    if a < b then a else b
  }

  /** The system call moves at most what was asked for and, reading, at most what is there. */
  function Granted(count: nat, wanted: nat, writing: bool, available: nat): nat {
    Min(count, if writing then wanted else Min(wanted, available))
  }

  /** Every round of the schedule moves something. */
  predicate Steady(schedule: seq<Event>) {
    forall i | 0 <= i < |schedule| :: schedule[i].Moved? && schedule[i].count > 0
  }

  /** Every round moves something, and there are rounds for `size` bytes. */
  predicate Lasts(schedule: seq<Event>, size: nat) {
    Steady(schedule) && |schedule| >= size
  }

  /** The effect of one round on the pipe and the buffer. */
  method Move(pipe: Endpoint, buffer: array<Byte>, offset: nat, writing: bool, count: nat) returns (transferred: nat)
    requires offset <= buffer.Length
    modifies pipe, buffer
    ensures transferred == Granted(count, buffer.Length - offset, writing, |old(pipe.incoming)|)
    ensures writing ==>
      && buffer[..] == old(buffer[..]) && pipe.incoming == old(pipe.incoming)
      && pipe.sent == old(pipe.sent) + buffer[offset..offset + transferred]
    ensures !writing ==>
      && pipe.sent == old(pipe.sent) && pipe.incoming == old(pipe.incoming)[transferred..]
      && buffer[..] == old(buffer[..offset]) + old(pipe.incoming)[..transferred] + old(buffer[offset + transferred..])
  {
    transferred := Granted(count, buffer.Length - offset, writing, |pipe.incoming|);
    if writing {
      pipe.sent := pipe.sent + buffer[offset..offset + transferred];
    } else {
      ghost var before, arriving := buffer[..], pipe.incoming;
      for i := 0 to transferred
        invariant pipe.incoming == arriving && pipe.sent == old(pipe.sent)
        invariant buffer[..offset] == before[..offset]
        invariant buffer[offset..offset + i] == arriving[..i]
        invariant buffer[offset + i..] == before[offset + i..]
      {
        buffer[offset + i] := pipe.incoming[i];
        assert buffer[offset..offset + i] == arriving[..i];
        assert arriving[..i + 1] == arriving[..i] + [arriving[i]];
        assert buffer[offset..offset + i + 1] == buffer[offset..offset + i] + [buffer[offset + i]];
        assert buffer[offset + i + 1..] == before[offset + i..][1..];
      }
      pipe.incoming := pipe.incoming[transferred..];
      assert buffer[..] == buffer[..offset] + buffer[offset..offset + transferred] + buffer[offset + transferred..];
    }
  }

  /**
   * `pipe_transfer`. Whatever the schedule, the bytes that moved are the first
   * ones, in order and once; success means that all of them did; and there are
   * never more rounds than bytes.
   */
  method Transfer(pipe: Endpoint, buffer: array<Byte>, writing: bool, schedule: seq<Event>)
    returns (ok: bool, moved: nat, rounds: nat)
    modifies pipe, buffer
    ensures moved <= buffer.Length && rounds <= buffer.Length
    ensures writing ==>
      && buffer[..] == old(buffer[..]) && pipe.incoming == old(pipe.incoming)
      && pipe.sent == old(pipe.sent) + old(buffer[..])[..moved]
    ensures !writing ==>
      && pipe.sent == old(pipe.sent) && moved <= |old(pipe.incoming)|
      && pipe.incoming == old(pipe.incoming)[moved..]
      && buffer[..] == old(pipe.incoming)[..moved] + old(buffer[..])[moved..]
    ensures ok ==> moved == buffer.Length
    ensures Lasts(schedule, buffer.Length) && (writing || buffer.Length <= |old(pipe.incoming)|) ==> ok
  {
    moved, rounds := 0, 0;
    ghost var before, arriving, gone := buffer[..], pipe.incoming, pipe.sent;
    while moved < buffer.Length
      invariant moved <= buffer.Length && rounds <= moved && rounds <= |schedule|
      invariant Reached(writing, before, arriving, gone, moved, buffer[..], pipe.incoming, pipe.sent)
      decreases buffer.Length - moved
    {
      var event := if rounds < |schedule| then schedule[rounds] else Late;
      rounds := rounds + 1;
      if event.Late? || event.Broken? {
        return false, moved, rounds;
      }
      var transferred := Move(pipe, buffer, moved, writing, event.count);
      Advance(writing, before, arriving, gone, moved, transferred);
      moved := moved + transferred;
      if event.Cancelled? || transferred == 0 {
        return false, moved, rounds;
      }
    }
    ok := true;
  }

  /** The first `moved` bytes have gone the way they should, and nothing else has changed. */
  ghost predicate Reached(writing: bool, before: seq<Byte>, arriving: seq<Byte>, gone: seq<Byte>, moved: nat,
    buffer: seq<Byte>, incoming: seq<Byte>, sent: seq<Byte>)
  {
    && moved <= |before|
    && (writing ==> buffer == before && incoming == arriving && sent == gone + before[..moved])
    && (!writing ==>
          && moved <= |arriving| && sent == gone && incoming == arriving[moved..]
          && buffer == arriving[..moved] + before[moved..])
  }

  /** One round further. */
  lemma Advance(writing: bool, before: seq<Byte>, arriving: seq<Byte>, gone: seq<Byte>, moved: nat, transferred: nat)
    requires moved + transferred <= |before| && (!writing ==> moved + transferred <= |arriving|)
    ensures writing ==>
      (gone + before[..moved]) + before[moved..moved + transferred] == gone + before[..moved + transferred]
    ensures !writing ==>
      var buffer := arriving[..moved] + before[moved..];
      && buffer[..moved] + arriving[moved..][..transferred] + buffer[moved + transferred..]
         == arriving[..moved + transferred] + before[moved + transferred..]
      && arriving[moved..][transferred..] == arriving[moved + transferred..]
  {
    if writing {
      assert before[..moved + transferred] == before[..moved] + before[moved..moved + transferred];
    } else {
      assert arriving[..moved + transferred] == arriving[..moved] + arriving[moved..][..transferred];
    }
  }

  // ----- framing -----

  /** A DWORD in memory: four bytes, least significant first. */
  function Length(n: nat): (r: seq<Byte>)
    requires n < 0x1_0000_0000
    ensures |r| == 4
  {
    [n % 0x100, n / 0x100 % 0x100, n / 0x1_0000 % 0x100, n / 0x100_0000]
  }

  function LengthOf(s: seq<Byte>): nat
    requires |s| == 4
  {
    s[0] as int + s[1] as int * 0x100 + s[2] as int * 0x1_0000 + s[3] as int * 0x100_0000
  }

  lemma LengthRoundTrip(n: nat)
    requires n < 0x1_0000_0000
    ensures LengthOf(Length(n)) == n
  {
    var a, b := n / 0x100, n / 0x1_0000;
    assert b == a / 0x100 && n / 0x100_0000 == b / 0x100;
    assert n == a * 0x100 + n % 0x100 && a == b * 0x100 + a % 0x100 && b == b / 0x100 * 0x100 + b % 0x100;
  }

  function Frame(message: seq<Byte>): seq<Byte>
    requires |message| <= MaxMessageBytes
  {
    Length(|message|) + message
  }

  /** What follows a frame never changes how it is read. */
  lemma FramesAreUnambiguous(a: seq<Byte>, b: seq<Byte>, x: seq<Byte>, y: seq<Byte>)
    requires |a| <= MaxMessageBytes && |b| <= MaxMessageBytes
    requires Frame(a) + x == Frame(b) + y
    ensures a == b && x == y
  {
    LengthRoundTrip(|a|);
    LengthRoundTrip(|b|);
    var s := Frame(a) + x;
    assert s[..4] == Length(|a|);
    assert s[..4] == Length(|b|);
    assert s[4..] == a + x;
    assert s[4..] == b + y;
    assert a == (a + x)[..|a|] && b == (b + y)[..|b|];
    assert x == (a + x)[|a|..] && y == (b + y)[|b|..];
  }

  method BufferOf(bytes: seq<Byte>) returns (buffer: array<Byte>)
    ensures fresh(buffer) && buffer[..] == bytes
  {
    buffer := new Byte[|bytes|](i requires 0 <= i < |bytes| => bytes[i]);
  }

  /**
   * `pipe_reply`: an empty or oversized message is not sent at all; behind a
   * message that was, one byte of receipt is awaited and makes no difference.
   */
  method Send(pipe: Endpoint, bytes: seq<Byte>, first: seq<Event>, second: seq<Event>, third: seq<Event>)
    returns (ok: bool)
    modifies pipe
    ensures pipe.incoming == old(pipe.incoming) ||
      (ok && |old(pipe.incoming)| > 0 && pipe.incoming == old(pipe.incoming)[1..])
    ensures !(1 <= |bytes| <= MaxMessageBytes) ==> !ok && pipe.sent == old(pipe.sent)
    ensures 1 <= |bytes| <= MaxMessageBytes ==> old(pipe.sent) <= pipe.sent <= old(pipe.sent) + Frame(bytes)
    ensures ok ==> pipe.sent == old(pipe.sent) + Frame(bytes)
    ensures 1 <= |bytes| <= MaxMessageBytes && Lasts(first, 4) && Lasts(second, |bytes|) ==> ok
  {
    if |bytes| == 0 || |bytes| > MaxMessageBytes {
      return false;
    }
    ghost var before := pipe.sent;
    var length := BufferOf(Length(|bytes|));
    var moved, rounds;
    ok, moved, rounds := Transfer(pipe, length, true, first);
    Prefix(before, Length(|bytes|), bytes, moved);
    if !ok {
      return;
    }
    var buffer := BufferOf(bytes);
    ok, moved, rounds := Transfer(pipe, buffer, true, second);
    assert before + Length(|bytes|) + bytes == before + Frame(bytes);
    assert bytes[..moved] <= bytes;
    if ok {
      var receipt := BufferOf([0]);
      var ignored;
      ignored, moved, rounds := Transfer(pipe, receipt, false, third);
      assert old(pipe.incoming)[0..] == old(pipe.incoming);
    }
  }

  lemma Prefix(before: seq<Byte>, head: seq<Byte>, tail: seq<Byte>, n: nat)
    requires n <= |head|
    ensures before <= before + head[..n] <= before + (head + tail)
    ensures n == |head| ==> head[..n] == head
  {
  }

  /** The stream starts with a whole frame. */
  predicate Framed(stream: seq<Byte>) {
    && |stream| >= 4
    && LengthOf(stream[..4]) <= MaxMessageBytes && LengthOf(stream[..4]) <= |stream| - 4
  }

  /** The receiving loop body: a length, then that many bytes, unless the length is out of range. */
  method Receive(pipe: Endpoint, first: seq<Event>, second: seq<Event>) returns (r: Result<seq<Byte>>)
    modifies pipe
    ensures pipe.sent == old(pipe.sent)
    ensures r.Ok? ==> |r.value| <= MaxMessageBytes && old(pipe.incoming) == Frame(r.value) + pipe.incoming
    ensures r.Err? ==> r.reason == "invalid_message_size" || r.reason == "invalid_message"
    ensures |old(pipe.incoming)| >= 4 && LengthOf(old(pipe.incoming)[..4]) > MaxMessageBytes ==>
      r == Err("invalid_message_size")
    ensures Lasts(first, 4) && Lasts(second, MaxMessageBytes) && Framed(old(pipe.incoming)) ==> r.Ok?
  {
    ghost var arriving := pipe.incoming;
    var length := BufferOf([0, 0, 0, 0]);
    var ok, moved, rounds := Transfer(pipe, length, false, first);
    if !ok {
      return Err("invalid_message_size");
    }
    assert length[..] == arriving[..4];
    var size := LengthOf(length[..]);
    if size > MaxMessageBytes {
      return Err("invalid_message_size");
    }
    ghost var behind := pipe.incoming;
    var buffer := BufferOf(seq(size, i => 0));
    ok, moved, rounds := Transfer(pipe, buffer, false, second);
    if !ok {
      return Err("invalid_message");
    }
    assert buffer[..] == behind[..size];
    LengthInverse(arriving[..4]);
    assert arriving == arriving[..4] + (behind[..size] + behind[size..]);
    assert Frame(buffer[..]) + behind[size..] == arriving[..4] + (behind[..size] + behind[size..]);
    return Ok(buffer[..]);
  }

  lemma LengthInverse(s: seq<Byte>)
    requires |s| == 4
    ensures LengthOf(s) < 0x1_0000_0000 && Length(LengthOf(s)) == s
  {
    var n := LengthOf(s);
    assert n / 0x100 == s[1] as int + s[2] as int * 0x100 + s[3] as int * 0x1_0000;
    assert n / 0x1_0000 == s[2] as int + s[3] as int * 0x100;
    assert n / 0x100_0000 == s[3];
  }

  /**
   * Sender and receiver together: if both report success, the receiver has the
   * sender's message and nothing else was consumed, however either side's
   * transfers were split up.
   */
  method Deliver(sender: Endpoint, receiver: Endpoint, message: seq<Byte>, later: seq<Byte>, schedules: seq<seq<Event>>)
    returns (sent: bool, received: Result<seq<Byte>>)
    requires |schedules| == 5 && sender != receiver && sender.sent == []
    modifies sender, receiver
    ensures sent && received.Ok? ==> received.value == message && receiver.incoming == later
    ensures sent && Lasts(schedules[2], 4) && Lasts(schedules[3], MaxMessageBytes) ==> received == Ok(message)
  {
    sent := Send(sender, message, schedules[0], schedules[1], schedules[4]);
    receiver.incoming := sender.sent + later;
    if sent {
      LengthRoundTrip(|message|);
      assert receiver.incoming[..4] == Length(|message|);
    }
    received := Receive(receiver, schedules[2], schedules[3]);
    if sent && received.Ok? {
      FramesAreUnambiguous(message, received.value, later, receiver.incoming);
    }
  }
}
