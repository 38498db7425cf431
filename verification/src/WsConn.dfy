// cmd/nova-bridge/ws.go: the server half of one WebSocket connection.
module WsConn {
  import opened Prelude
  import opened Frames
  import opened Messages

  // inbox holds the bytes the peer still sends before the stream ends; outbox what was
  // written to it; quota how many more frames the transport takes.
  class Conn {
    var inbox: seq<Byte>
    var outbox: seq<Byte>
    var quota: nat
    var closed: bool

    constructor (bytes: seq<Byte>, frames: nat)
      ensures inbox == bytes && outbox == [] && quota == frames && !closed
    {
      inbox, outbox, quota, closed := bytes, [], frames, false;
    }

    method ReadFull(n: nat) returns (ok: bool, data: array<Byte>)
      modifies this`inbox
      ensures fresh(data)
      ensures ok == (n <= |old(inbox)|)
      ensures ok ==> data[..] == old(inbox)[..n] && inbox == old(inbox)[n..]
    {
      if |inbox| < n {
        ok, data, inbox := false, new Byte[0], [];
      } else {
        var bytes := inbox;
        ok, data := true, new Byte[n](i requires 0 <= i < n && n <= |bytes| => bytes[i]);
        inbox := inbox[n..];
      }
    }

    method ReadFrame() returns (r: Parsed)
      modifies this`inbox
      ensures r == Decode(old(inbox), true, MAX_MESSAGE)
      ensures r.Got? ==> r.used <= |old(inbox)| && inbox == old(inbox)[r.used..]
    {
      hide Mask, Value;
      var ok, h := ReadFull(2);
      if !ok { return Refused(Closed); }
      var fin := h[0] >= 128;
      if (h[0] / 16) % 8 != 0 { return Refused(ReservedBits); }
      var opcode, masked := h[0] % 16, h[1] >= 128;
      ghost var input := old(inbox);
      var length;
      ok, length := ReadLength(h[1]);
      if !ok { return Refused(Closed); }
      assert input[2..][..ExtraOf(h[1])] == input[2..2 + ExtraOf(h[1])];
      if length > MAX_MESSAGE { return Refused(TooLong); }
      if !masked { return Refused(WrongMasking); }
      var payload;
      ok, payload := ReadBody(length);
      if !ok { return Refused(Closed); }
      var extra := ExtraOf(h[1]);
      assert inbox == input[6 + extra + length..];
      assert input[2..][extra..][..4] == input[2 + extra..6 + extra];
      assert input[2..][extra..][4..4 + length] == input[6 + extra..6 + extra + length];
      r := Got(Frame(fin, opcode, payload[..]), 6 + extra + length);
    }

    // The length that follows the second byte, in 0, 2 or 8 more bytes.
    method ReadLength(second: Byte) returns (ok: bool, length: nat)
      modifies this`inbox
      ensures ok == (|old(inbox)| >= ExtraOf(second))
      ensures ok ==> inbox == old(inbox)[ExtraOf(second)..]
                     && length == if ExtraOf(second) == 0 then second % 128 else Value(old(inbox)[..ExtraOf(second)])
    {
      ok, length := true, second % 128;
      if length == 126 {
        var ext;
        ok, ext := ReadFull(2);
        if ok { length := Value(ext[..]); }
      } else if length == 127 {
        var ext;
        ok, ext := ReadFull(8);
        if ok { length := Value(ext[..]); }
      }
    }

    // The masking key, and the payload with the mask taken off.
    method ReadBody(length: nat) returns (ok: bool, payload: array<Byte>)
      modifies this`inbox
      ensures fresh(payload)
      ensures ok == (|old(inbox)| >= 4 + length)
      ensures ok ==> inbox == old(inbox)[4 + length..] && payload[..] == Mask(old(inbox)[4..4 + length], old(inbox)[..4])
    {
      hide Mask;
      ghost var input := inbox;
      var mask;
      ok, mask := ReadFull(4);
      payload := mask;
      if ok {
        ok, payload := ReadFull(length);
        if ok {
          assert input[4..][..length] == input[4..4 + length];
          Unmask(payload, mask);
          assert inbox == input[4 + length..];
        }
      }
    }

    // Takes the mask off in place.
    method Unmask(payload: array<Byte>, mask: array<Byte>)
      requires mask.Length == 4 && payload != mask
      modifies payload
      ensures payload[..] == Mask(old(payload[..]), mask[..])
    {
      var i := 0;
      while i < payload.Length
        invariant 0 <= i <= payload.Length
        invariant forall k :: 0 <= k < i ==> payload[k] == Xor(old(payload[k]), mask[k % 4])
        invariant forall k :: i <= k < payload.Length ==> payload[k] == old(payload[k])
      {
        payload[i] := Xor(payload[i], mask[i % 4]);
        i := i + 1;
      }
    }

    // What ReadMessage returned and left behind is what r says.
    ghost predicate Returned(r: Received, out: seq<Byte>, opcode: nat, payload: seq<Byte>, error: Option<Refusal>)
      reads this
    {
      && outbox == out + r.out && quota == r.quota
      && match r
         case Message(op, bytes, rest, _, _) => error.None? && opcode == op && payload == bytes && inbox == rest
         case Failed(why, _, _) => error == Some(why) && opcode == 0 && payload == []
    }

    // A close is answered and ends the reading; a ping is answered.
    method Control(f: Frame) returns (error: Option<Refusal>)
      requires f.opcode == CLOSE || f.opcode == PING || f.opcode == PONG
      modifies this`outbox, this`quota
      ensures f.opcode == PONG ==> error.None? && outbox == old(outbox) && quota == old(quota)
      ensures f.opcode == PING ==> Wrote(error.None?, old(outbox), old(quota), ServerFrame(PONG, Cut(f.payload)))
      ensures f.opcode == PING && error.Some? ==> error == Some(WriteFailed)
      ensures f.opcode == CLOSE ==> Wrote(old(quota) > 0, old(outbox), old(quota), ServerFrame(CLOSE, [])) && error == Some(Closed)
    {
      hide ServerFrame;
      if f.opcode == CLOSE {
        var _ := WriteControl(CLOSE, []);
        return Some(Closed);
      } else if f.opcode == PING {
        var ok := WriteControl(PONG, f.payload);
        if !ok { return Some(WriteFailed); }
      }
      return None;
    }

    // What data frame f makes of a message that began with opcode started, if it began.
    method Append(f: Frame, started: Option<nat>, msg: seq<Byte>) returns (error: Option<Refusal>, opcode: nat, all: seq<Byte>)
      ensures error == if f.opcode != TEXT && f.opcode != BINARY && f.opcode != CONTINUATION then Some(UnknownOpcode)
                       else if f.opcode != CONTINUATION && started.Some? then Some(NewStart)
                       else if f.opcode == CONTINUATION && started.None? then Some(NoStart)
                       else if |msg + f.payload| > MAX_MESSAGE then Some(TooLong) else None
      ensures error.None? ==> opcode == (if started.Some? then started.value else f.opcode) && all == msg + f.payload
    {
      opcode, all := f.opcode, msg;
      if f.opcode == TEXT || f.opcode == BINARY {
        if started.Some? { return Some(NewStart), opcode, all; }
      } else if f.opcode == CONTINUATION {
        if started.None? { return Some(NoStart), opcode, all; }
        opcode := started.value;
      } else {
        return Some(UnknownOpcode), opcode, all;
      }
      all := all + f.payload;
      error := if |all| > MAX_MESSAGE then Some(TooLong) else None;
    }

    // Reassembles one message, answering pings and a close on the way.
    method ReadMessage() returns (opcode: nat, payload: seq<Byte>, error: Option<Refusal>)
      modifies this
      ensures Returned(Receive(old(inbox), None, [], old(quota)), old(outbox), opcode, payload, error) && closed == old(closed)
    {
      hide Decode, ServerFrame, Receive, Cut, After;
      var started: Option<nat>, msg: seq<Byte> := None, [];
      ghost var answered: seq<Byte> := [];
      AfterNothing(Receive(inbox, None, [], quota));
      while true
        invariant closed == old(closed) && outbox == old(outbox) + answered
        invariant Receive(old(inbox), None, [], old(quota)) == After(answered, Receive(inbox, started, msg, quota))
        decreases |inbox|
      {
        Progress(inbox);
        ReceivesOn(inbox, started, msg, quota);
        ghost var now := Receive(inbox, started, msg, quota);
        AfterLast(answered, now);
        var p := ReadFrame();
        if p.Refused? { return 0, [], Some(p.why); }
        var f := p.frame;
        if f.opcode == CLOSE || f.opcode == PING || f.opcode == PONG {
          error := Control(f);
          if error.Some? { return 0, [], error; }
          if f.opcode == PING {
            AfterBoth(answered, ServerFrame(PONG, Cut(f.payload)), Receive(inbox, started, msg, quota));
            answered := answered + ServerFrame(PONG, Cut(f.payload));
          }
        } else {
          var op: nat;
          error, op, msg := Append(f, started, msg);
          if error.Some? { return 0, [], error; }
          started := Some(op);
          if f.fin { return op, msg, None; }
        }
      }
    }

    method WriteControl(opcode: nat, payload: seq<Byte>) returns (ok: bool)
      requires opcode < 16
      modifies this`outbox, this`quota
      ensures Wrote(ok, old(outbox), old(quota), ServerFrame(opcode, Cut(payload)))
    {
      var data := payload;
      if |data| > 125 { data := data[..125]; }
      ok := WriteFrame(opcode, data);
    }

    // One whole frame went out, or the transport is at its end.
    ghost predicate Wrote(ok: bool, out: seq<Byte>, frames: nat, wire: seq<Byte>)
      reads this
    {
      && ok == (frames > 0)
      && outbox == (if ok then out + wire else out)
      && quota == (if ok then frames - 1 else 0)
    }

    method WriteFrame(opcode: nat, payload: seq<Byte>) returns (ok: bool)
      requires opcode < 16 && |payload| < TOO_LONG
      modifies this`outbox, this`quota
      ensures Wrote(ok, old(outbox), old(quota), ServerFrame(opcode, payload))
    {
      hide ServerFrame, HeaderOf;
      var header, n := Header(opcode, |payload|);
      ServerFrameIs(opcode, payload);
      if quota == 0 { return false; }
      ok, quota := true, quota - 1;
      outbox := outbox + header[..n];
      if |payload| > 0 { outbox := outbox + payload; }
      assert old(outbox) + (header[..n] + payload) == old(outbox) + header[..n] + payload;
    }

    // The first n bytes of header come before a payload of length l.
    method Header(opcode: nat, l: nat) returns (header: array<Byte>, n: nat)
      requires opcode < 16 && l < TOO_LONG
      ensures fresh(header) && n <= header.Length && header[..n] == HeaderOf(opcode, l)
    {
      hide Big;
      header := new Byte[10];
      header[0] := 128 + opcode;
      n := 2;
      if l < 126 {
        header[1] := l;
      } else if l < 65536 {
        header[1] := 126;
        PutBig(header, 2, l, 2);
        n := 4;
        assert header[..4] == header[..2] + header[2..4];
      } else {
        header[1] := 127;
        PutBig(header, 2, l, 8);
        n := 10;
        assert header[..10] == header[..2] + header[2..10];
      }
    }

    // binary.BigEndian.PutUint16 and PutUint64.
    method PutBig(a: array<Byte>, at: nat, value: nat, width: nat)
      requires at + width <= a.Length
      modifies a
      ensures a[at..at + width] == Big(value, width)
      ensures a[..at] == old(a[..at]) && a[at + width..] == old(a[at + width..])
    {
      var i, v := width, value;
      while i > 0
        invariant 0 <= i <= width
        invariant Big(value, width) == Big(v, i) + a[at + i..at + width]
        invariant a[..at] == old(a[..at]) && a[at + width..] == old(a[at + width..])
      {
        i := i - 1;
        a[at + i] := v % 256;
        v := v / 256;
      }
    }

    // Shuts the transport too: nothing more is written, and nothing more is read than the
    // bytes the read buffer already holds.
    method Close(buffered: nat)
      modifies this
      ensures closed
      ensures outbox == old(outbox) + if old(closed) || old(quota) == 0 then [] else ServerFrame(CLOSE, [])
      ensures quota == if old(closed) then old(quota) else 0
      ensures inbox == if old(closed) then old(inbox) else old(inbox)[..Min(buffered, |old(inbox)|)]
    {
      if !closed {
        closed := true;
        var _ := WriteControl(CLOSE, []);
        quota, inbox := 0, inbox[..Min(buffered, |inbox|)];
      }
    }
  }

  // A frame that was read took at least its header.
  lemma Progress(input: seq<Byte>)
    ensures Decode(input, true, MAX_MESSAGE).Got? ==> 2 <= Decode(input, true, MAX_MESSAGE).used <= |input|
    ensures Decode(input, true, MAX_MESSAGE).Got? ==> Decode(input, true, MAX_MESSAGE).frame.opcode < 16
  {
    if Decode(input, true, MAX_MESSAGE).Got? { OnlyFramesAreRead(input, true, MAX_MESSAGE); }
  }

  // What one frame makes of the bytes still to come.
  lemma ReceivesOn(input: seq<Byte>, started: Option<nat>, msg: seq<Byte>, quota: nat)
    ensures
      var p, r := Decode(input, true, MAX_MESSAGE), Receive(input, started, msg, quota);
      match p
      case Refused(why) => r == Failed(why, [], quota)
      case Got(f, used) =>
        && used <= |input|
        && var rest, all := input[used..], msg + f.payload;
           if f.opcode == CLOSE then r == Failed(Closed, if quota > 0 then ServerFrame(CLOSE, []) else [], if quota > 0 then quota - 1 else 0)
           else if f.opcode == PING then
             f.opcode < 16 && r == if quota == 0 then Failed(WriteFailed, [], 0)
                                   else After(ServerFrame(PONG, Cut(f.payload)), Receive(rest, started, msg, quota - 1))
           else if f.opcode == PONG then r == Receive(rest, started, msg, quota)
           else if f.opcode != TEXT && f.opcode != BINARY && f.opcode != CONTINUATION then r == Failed(UnknownOpcode, [], quota)
           else if f.opcode != CONTINUATION && started.Some? then r == Failed(NewStart, [], quota)
           else if f.opcode == CONTINUATION && started.None? then r == Failed(NoStart, [], quota)
           else if |all| > MAX_MESSAGE then r == Failed(TooLong, [], quota)
           else
             var opcode := if started.Some? then started.value else f.opcode;
             r == if f.fin then Message(opcode, all, rest, [], quota) else Receive(rest, Some(opcode), all, quota)
  {
    hide Decode, ServerFrame;
    Progress(input);
  }

  // The bytes of a server frame before its payload.
  function HeaderOf(opcode: nat, l: nat): seq<Byte>
    requires opcode < 16 && l < TOO_LONG
  {
    [128 + opcode, if l < 126 then l else if l < 65536 then 126 else 127]
    + if l < 126 then [] else if l < 65536 then Big(l, 2) else Big(l, 8)
  }

  lemma ServerFrameIs(opcode: nat, payload: seq<Byte>)
    requires opcode < 16 && |payload| < TOO_LONG
    ensures HeaderOf(opcode, |payload|) + payload == ServerFrame(opcode, payload)
  {
    MinimalFormFits(|payload|);
  }

  lemma AfterNothing(r: Received)
    ensures After([], r) == r
  {
    assert [] + r.out == r.out;
  }

  lemma AfterLast(out: seq<Byte>, r: Received)
    ensures After(out, r) == r.(out := out + r.out)
    ensures r.out == [] ==> After(out, r) == r.(out := out)
  {
  }

  lemma AfterBoth(a: seq<Byte>, b: seq<Byte>, r: Received)
    ensures After(a, After(b, r)) == After(a + b, r)
  {
    assert a + (b + r.out) == (a + b) + r.out;
  }
}
