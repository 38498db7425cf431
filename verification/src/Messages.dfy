// cmd/nova-bridge/ws.go: how frames become messages, with control frames in between.
module Messages {
  import opened Prelude
  import opened Frames

  datatype Received =
    | Message(opcode: nat, payload: seq<Byte>, rest: seq<Byte>, out: seq<Byte>, quota: nat)
    | Failed(why: Refusal, out: seq<Byte>, quota: nat)

  // Control payloads are cut to what a control frame may carry.
  function Cut(payload: seq<Byte>): (r: seq<Byte>)
    ensures |r| <= MAX_CONTROL
  {
    if |payload| > MAX_CONTROL then payload[..MAX_CONTROL] else payload
  }

  function After(out: seq<Byte>, r: Received): Received { r.(out := out + r.out) }

  // What ReadMessage makes of the bytes still to come: started is the opcode of a message
  // that has begun, msg what it holds so far, quota how many more frames can be written.
  function Receive(input: seq<Byte>, started: Option<nat>, msg: seq<Byte>, quota: nat): Received
    decreases |input|
  {
    match Decode(input, true, MAX_MESSAGE)
    case Refused(why) => Failed(why, [], quota)
    case Got(f, used) =>
      OnlyFramesAreRead(input, true, MAX_MESSAGE);
      var rest := input[used..];
      if f.opcode == CLOSE then if quota > 0 then Failed(Closed, ServerFrame(CLOSE, []), quota - 1) else Failed(Closed, [], 0)
      else if f.opcode == PING then
        if quota == 0 then Failed(WriteFailed, [], 0)
        else After(ServerFrame(PONG, Cut(f.payload)), Receive(rest, started, msg, quota - 1))
      else if f.opcode == PONG then Receive(rest, started, msg, quota)
      else if (f.opcode == TEXT || f.opcode == BINARY) && started.Some? then Failed(NewStart, [], quota)
      else if f.opcode == CONTINUATION && started.None? then Failed(NoStart, [], quota)
      else if f.opcode !in {TEXT, BINARY, CONTINUATION} then Failed(UnknownOpcode, [], quota)
      else
        var all, opcode := msg + f.payload, if started.Some? then started.value else f.opcode;
        if |all| > MAX_MESSAGE then Failed(TooLong, [], quota)
        else if f.fin then Message(opcode, all, rest, [], quota)
        else Receive(rest, Some(opcode), all, quota)
  }

  // ----- Streams of frames -----

  datatype Wire = Wire(frame: Frame, form: Form, key: Key)

  ghost predicate WireOk(w: Wire) {
    w.frame.opcode < 16 && CanWrite(w.form, |w.frame.payload|) && |w.frame.payload| <= MAX_MESSAGE
  }

  ghost predicate WiresOk(ws: seq<Wire>) { forall i :: 0 <= i < |ws| ==> WireOk(ws[i]) }

  ghost function Stream(ws: seq<Wire>): seq<Byte>
    requires WiresOk(ws)
  {
    if ws == [] then [] else Encode(ws[0].frame, ws[0].form, Some(ws[0].key)) + Stream(ws[1..])
  }

  predicate Data(w: Wire) { w.frame.opcode == TEXT || w.frame.opcode == BINARY || w.frame.opcode == CONTINUATION }

  // Some data frame comes before position i.
  ghost predicate Begun(ws: seq<Wire>, started: bool, i: nat) {
    started || exists j :: 0 <= j < i && j < |ws| && Data(ws[j])
  }

  // The frames of one message, fragmented any way, pings and pongs anywhere in between;
  // started when the message began before them.
  ghost predicate OneMessage(ws: seq<Wire>, started: bool) {
    && ws != [] && WiresOk(ws)
    && (forall i :: 0 <= i < |ws| ==> Data(ws[i]) || ws[i].frame.opcode == PING || ws[i].frame.opcode == PONG)
    && (forall i :: 0 <= i < |ws| && Data(ws[i]) ==> (ws[i].frame.opcode == CONTINUATION <==> Begun(ws, started, i)))
    && Data(ws[|ws| - 1])
    && (forall i :: 0 <= i < |ws| && Data(ws[i]) ==> (ws[i].frame.fin <==> i == |ws| - 1))
  }

  // Section 5.5 of RFC 6455: control frames are never fragmented and carry 125 bytes at most.
  ghost predicate ControlsOk(ws: seq<Wire>) {
    forall i :: 0 <= i < |ws| && !Data(ws[i]) ==> ws[i].frame.fin && |ws[i].frame.payload| <= MAX_CONTROL
  }

  function Payload(ws: seq<Wire>): seq<Byte> {
    if ws == [] then [] else (if Data(ws[0]) then ws[0].frame.payload else []) + Payload(ws[1..])
  }

  function Opcode(ws: seq<Wire>): nat {
    if ws == [] then CONTINUATION else if Data(ws[0]) then ws[0].frame.opcode else Opcode(ws[1..])
  }

  function PingPayloads(ws: seq<Wire>): seq<seq<Byte>> {
    if ws == [] then [] else (if ws[0].frame.opcode == PING then [ws[0].frame.payload] else []) + PingPayloads(ws[1..])
  }

  function Pongs(payloads: seq<seq<Byte>>): seq<Byte> {
    if payloads == [] then [] else ServerFrame(PONG, Cut(payloads[0])) + Pongs(payloads[1..])
  }

  lemma TailMessage(ws: seq<Wire>, started: bool)
    requires OneMessage(ws, started) && |ws| > 1
    ensures OneMessage(ws[1..], started || Data(ws[0]))
  {
    var t, now := ws[1..], started || Data(ws[0]);
    forall i | 0 <= i < |t| && Data(t[i])
      ensures t[i].frame.opcode == CONTINUATION <==> Begun(t, now, i)
    {
      assert t[i] == ws[i + 1];
      if Begun(ws, started, i + 1) && !started {
        var j :| 0 <= j < i + 1 && Data(ws[j]);
        if j > 0 { assert Data(t[j - 1]); }
      }
      if Begun(t, now, i) && !now {
        var j :| 0 <= j < i && Data(t[j]);
        assert Data(ws[j + 1]);
      }
    }
  }

  lemma HeadMessage(w: Wire, t: seq<Wire>, started: bool)
    requires WireOk(w) && OneMessage(t, started || Data(w))
    requires Data(w) || w.frame.opcode == PING || w.frame.opcode == PONG
    requires Data(w) ==> !w.frame.fin && (w.frame.opcode == CONTINUATION <==> started)
    ensures OneMessage([w] + t, started)
  {
    var ws, now := [w] + t, started || Data(w);
    assert ws[0] == w;
    forall i | 0 <= i < |ws| && Data(ws[i])
      ensures ws[i].frame.opcode == CONTINUATION <==> Begun(ws, started, i)
    {
      if i > 0 {
        assert ws[i] == t[i - 1];
        BegunBehind(w, t, started, i);
      }
    }
  }

  lemma BegunBehind(w: Wire, t: seq<Wire>, started: bool, i: nat)
    requires 0 < i <= |t|
    ensures Begun([w] + t, started, i) <==> Begun(t, started || Data(w), i - 1)
  {
    var ws, now := [w] + t, started || Data(w);
    assert ws[0] == w;
    if Begun(t, now, i - 1) && !now {
      var j :| 0 <= j < i - 1 && Data(t[j]);
      assert Data(ws[j + 1]);
    }
    if Begun(ws, started, i) && !started {
      var j :| 0 <= j < i && Data(ws[j]);
      if j > 0 { assert Data(t[j - 1]); }
    }
  }

  // The message made of frames ws, after msg under opcode started.
  ghost predicate Delivers(r: Received, ws: seq<Wire>, started: Option<nat>, msg: seq<Byte>, rest: seq<Byte>, quota: nat) {
    && |msg + Payload(ws)| <= MAX_MESSAGE && |PingPayloads(ws)| <= quota
    && r == Message(if started.Some? then started.value else Opcode(ws), msg + Payload(ws), rest,
                    Pongs(PingPayloads(ws)), quota - |PingPayloads(ws)|)
  }

  // One more frame in front of a message delivered from frames t.
  lemma FrameBefore(r: Received, w: Wire, t: seq<Wire>, started: Option<nat>, msg: seq<Byte>, rest: seq<Byte>, quota: nat)
    requires Data(w) ==> Delivers(r, t, Some(if started.Some? then started.value else w.frame.opcode), msg + w.frame.payload, rest, quota)
    requires w.frame.opcode == PONG ==> Delivers(r, t, started, msg, rest, quota)
    requires w.frame.opcode == PING ==> quota > 0 && Delivers(r, t, started, msg, rest, quota - 1)
    ensures Data(w) || w.frame.opcode == PONG ==> Delivers(r, [w] + t, started, msg, rest, quota)
    ensures w.frame.opcode == PING ==> Delivers(After(ServerFrame(PONG, Cut(w.frame.payload)), r), [w] + t, started, msg, rest, quota)
  {
    hide ServerFrame;
    var ws, f := [w] + t, w.frame;
    assert ws[0] == w && ws[1..] == t;
    assert (msg + f.payload) + Payload(t) == msg + (f.payload + Payload(t));
    assert PingPayloads(ws) == (if f.opcode == PING then [f.payload] else []) + PingPayloads(t);
    assert f.opcode == PING ==> PingPayloads(ws)[1..] == PingPayloads(t);
    assert !Data(w) ==> Payload(ws) == Payload(t);
    assert f.opcode != PING ==> PingPayloads(ws) == PingPayloads(t);
  }

  lemma LastFrame(w: Wire, started: Option<nat>, msg: seq<Byte>, rest: seq<Byte>, quota: nat)
    requires Data(w) && |msg + w.frame.payload| <= MAX_MESSAGE
    ensures Delivers(Message(if started.Some? then started.value else w.frame.opcode, msg + w.frame.payload, rest, [], quota),
                     [w], started, msg, rest, quota)
  {
    assert [w][1..] == [];
    assert Payload([w]) == w.frame.payload + [] == w.frame.payload;
    assert PingPayloads([w]) == [];
  }

  // Every message that fits is delivered: opcode, payloads joined in order, every ping
  // answered in order, and not a byte of what follows touched.
  lemma {:induction false} MessagesArrive(ws: seq<Wire>, started: Option<nat>, msg: seq<Byte>, rest: seq<Byte>, quota: nat)
    requires OneMessage(ws, started.Some?)
    requires |msg + Payload(ws)| <= MAX_MESSAGE && |PingPayloads(ws)| <= quota
    ensures Delivers(Receive(Stream(ws) + rest, started, msg, quota), ws, started, msg, rest, quota)
    decreases |ws|
  {
    hide Encode, Decode, Delivers, Stream, ServerFrame, OneMessage;
    FirstOf(ws, started.Some?);
    var w, f, tail := ws[0], ws[0].frame, ws[1..];
    var used := FirstFrame(ws, rest);
    if |ws| == 1 {
      assert ws == [w] && Payload(ws) == f.payload + Payload(tail) == f.payload;
      LastFrame(w, started, msg, rest, quota);
    } else {
      TailMessage(ws, started.Some?);
      assert ws == [w] + tail;
      var opcode := if started.Some? then started.value else f.opcode;
      if Data(w) {
        assert msg + Payload(ws) == (msg + f.payload) + Payload(tail);
        MessagesArrive(tail, Some(opcode), msg + f.payload, rest, quota);
        FrameBefore(Receive(Stream(tail) + rest, Some(opcode), msg + f.payload, quota), w, tail, started, msg, rest, quota);
      } else {
        assert Payload(ws) == Payload(tail);
        var left := if f.opcode == PING then quota - 1 else quota;
        MessagesArrive(tail, started, msg, rest, left);
        FrameBefore(Receive(Stream(tail) + rest, started, msg, left), w, tail, started, msg, rest, quota);
      }
    }
  }

  lemma FirstOf(ws: seq<Wire>, started: bool)
    requires OneMessage(ws, started)
    ensures ws != [] && WiresOk(ws) && |ws[0].frame.payload| <= MAX_MESSAGE
    ensures Data(ws[0]) || ws[0].frame.opcode == PING || ws[0].frame.opcode == PONG
    ensures Data(ws[0]) ==> (ws[0].frame.fin <==> |ws| == 1) && (ws[0].frame.opcode == CONTINUATION <==> started)
    ensures |ws| == 1 ==> Data(ws[0])
  {
    assert Begun(ws, started, 0) <==> started;
  }

  lemma FirstFrame(ws: seq<Wire>, rest: seq<Byte>) returns (used: nat)
    requires WiresOk(ws) && ws != []
    ensures Decode(Stream(ws) + rest, true, MAX_MESSAGE) == Got(ws[0].frame, used)
    ensures used <= |Stream(ws) + rest| && (Stream(ws) + rest)[used..] == Stream(ws[1..]) + rest
    ensures |ws| == 1 ==> Stream(ws[1..]) + rest == rest
  {
    hide Encode, Decode;
    var w := ws[0];
    var wire := Encode(w.frame, w.form, Some(w.key));
    used := |wire|;
    FramesReadBack(w.frame, w.form, Some(w.key), MAX_MESSAGE, Stream(ws[1..]) + rest);
    assert Stream(ws) + rest == wire + (Stream(ws[1..]) + rest);
  }

  // And nothing else is delivered: when ReadMessage returns a message, the bytes it
  // consumed are exactly the frames of one message with pings and pongs in between.
  lemma {:induction false} OnlyMessagesArrive(input: seq<Byte>, started: Option<nat>, msg: seq<Byte>, quota: nat)
    returns (ws: seq<Wire>)
    requires Receive(input, started, msg, quota).Message? && |msg| <= MAX_MESSAGE
    ensures OneMessage(ws, started.Some?)
    ensures
      var r := Receive(input, started, msg, quota);
      input == Stream(ws) + r.rest && Delivers(r, ws, started, msg, r.rest, quota)
    decreases |input|
  {
    hide Encode, Decode, Delivers, ServerFrame;
    var g := Decode(input, true, MAX_MESSAGE);
    OnlyFramesAreRead(input, true, MAX_MESSAGE);
    var f, rest := g.frame, input[g.used..];
    var w := Wire(f, FormOf(input[1]), KeyOf(input, true).value);
    var r := Receive(input, started, msg, quota);
    if Data(w) && f.fin {
      ws := [w];
      OneFrame(w, started.Some?);
      LastFrame(w, started, msg, rest, quota);
    } else {
      var opcode := if started.Some? then started.value else f.opcode;
      var next := if Data(w) then Some(opcode) else started;
      var all, left := if Data(w) then msg + f.payload else msg, if f.opcode == PING then quota - 1 else quota;
      var tail := OnlyMessagesArrive(rest, next, all, left);
      ws := [w] + tail;
      HeadMessage(w, tail, started.Some?);
      FrameBefore(Receive(rest, next, all, left), w, tail, started, msg, r.rest, quota);
    }
    StreamBefore(w, ws[1..], r.rest, input, g.used);
  }

  lemma OneFrame(w: Wire, started: bool)
    requires WireOk(w) && Data(w) && w.frame.fin && (w.frame.opcode == CONTINUATION <==> started)
    ensures OneMessage([w], started)
  {
    assert !Begun([w], false, 0);
  }

  lemma StreamBefore(w: Wire, t: seq<Wire>, rest: seq<Byte>, input: seq<Byte>, used: nat)
    requires WireOk(w) && WiresOk(t) && used <= |input|
    requires input[..used] == Encode(w.frame, w.form, Some(w.key)) && input[used..] == Stream(t) + rest
    ensures WiresOk([w] + t) && input == Stream([w] + t) + rest
  {
    hide Encode;
    var ws := [w] + t;
    assert ws[0] == w && ws[1..] == t;
    assert input == input[..used] + input[used..];
  }

  lemma {:induction false} PingsAreShort(ws: seq<Wire>)
    requires WiresOk(ws) && ControlsOk(ws)
    ensures forall i :: 0 <= i < |PingPayloads(ws)| ==> Cut(PingPayloads(ws)[i]) == PingPayloads(ws)[i]
  {
    if ws != [] {
      assert forall i :: 0 <= i < |ws[1..]| ==> ws[1..][i] == ws[i + 1];
      PingsAreShort(ws[1..]);
    }
  }

  lemma {:induction false} FirstDataOpens(ws: seq<Wire>)
    requires OneMessage(ws, false)
    ensures Opcode(ws) == TEXT || Opcode(ws) == BINARY
  {
    FirstOf(ws, false);
    if !Data(ws[0]) {
      TailMessage(ws, false);
      FirstDataOpens(ws[1..]);
    }
  }

  // The law for a conforming client: a text or binary message in any fragments, with pings
  // and pongs anywhere in between, comes out whole, and each ping is answered with its payload.
  lemma ConformingMessagesArrive(ws: seq<Wire>, rest: seq<Byte>, quota: nat)
    requires OneMessage(ws, false) && ControlsOk(ws) && |Payload(ws)| <= MAX_MESSAGE && |PingPayloads(ws)| <= quota
    ensures
      && Receive(Stream(ws) + rest, None, [], quota)
         == Message(Opcode(ws), Payload(ws), rest, Pongs(PingPayloads(ws)), quota - |PingPayloads(ws)|)
      && (Opcode(ws) == TEXT || Opcode(ws) == BINARY)
      && forall i :: 0 <= i < |PingPayloads(ws)| ==> Cut(PingPayloads(ws)[i]) == PingPayloads(ws)[i]
  {
    hide Receive, Stream, OneMessage, Pongs, ControlsOk;
    FirstOf(ws, false);
    assert [] + Payload(ws) == Payload(ws);
    MessagesArrive(ws, None, [], rest, quota);
    PingsAreShort(ws);
    FirstDataOpens(ws);
  }

  // input starts with the frames ws of one message, which fits and whose pings can be answered.
  ghost predicate StartsWithMessage(input: seq<Byte>, ws: seq<Wire>, rest: seq<Byte>, quota: nat) {
    && OneMessage(ws, false) && |Payload(ws)| <= MAX_MESSAGE && |PingPayloads(ws)| <= quota
    && input == Stream(ws) + rest
  }

  // Exactly what the reader accepts: the frames of one message that fits, with any pings and
  // pongs in between, as many pings as it can answer.
  lemma AcceptsExactly(input: seq<Byte>, quota: nat)
    ensures Receive(input, None, [], quota).Message? <==> exists ws, rest :: StartsWithMessage(input, ws, rest, quota)
  {
    hide Receive, OneMessage, Stream, Payload, PingPayloads;
    if Receive(input, None, [], quota).Message? {
      var ws := OnlyMessagesArrive(input, None, [], quota);
      assert [] + Payload(ws) == Payload(ws);
      assert StartsWithMessage(input, ws, Receive(input, None, [], quota).rest, quota);
    } else if exists ws, rest :: StartsWithMessage(input, ws, rest, quota) {
      var ws, rest :| StartsWithMessage(input, ws, rest, quota);
      assert [] + Payload(ws) == Payload(ws);
      MessagesArrive(ws, None, [], rest, quota);
      assert false;
    }
  }

  // The reader is more lenient than section 5.5: a fragmented control frame passes.
  lemma LenientAboutControls(key: Key)
    ensures
      var ws := [Wire(Frame(false, PING, []), Short, key), Wire(Frame(true, TEXT, []), Short, key)];
      OneMessage(ws, false) && !ControlsOk(ws) && Receive(Stream(ws), None, [], 1).Message?
  {
    var ws := [Wire(Frame(false, PING, []), Short, key), Wire(Frame(true, TEXT, []), Short, key)];
    assert !Begun(ws, false, 1) && !Begun(ws, false, 0);
    var last := ws[1..];
    assert last[0] == ws[1] && last[1..] == [];
    var none: seq<seq<Byte>> := [];
    assert PingPayloads(last[1..]) == none && PingPayloads(last) == none + none;
    assert Payload(last) == [] && |PingPayloads(last)| == 0;
    assert Payload(ws) == [] && PingPayloads(ws) == [[]] + PingPayloads(last);
    MessagesArrive(ws, None, [], [], 1);
    assert Stream(ws) + [] == Stream(ws);
  }

  // A close frame ends the conversation with one close in answer; so does a stream that stops.
  lemma CloseIsAnswered(f: Frame, form: Form, key: Key, rest: seq<Byte>, started: Option<nat>, msg: seq<Byte>, quota: nat)
    requires f.opcode == CLOSE && CanWrite(form, |f.payload|) && |f.payload| <= MAX_MESSAGE
    ensures Receive(Encode(f, form, Some(key)) + rest, started, msg, quota)
            == Failed(Closed, if quota > 0 then ServerFrame(CLOSE, []) else [], if quota > 0 then quota - 1 else 0)
  {
    hide Encode, Decode, ServerFrame;
    FramesReadBack(f, form, Some(key), MAX_MESSAGE, rest);
  }
}
