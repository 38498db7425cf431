// cmd/nova-bridge/ws.go and sections 5.2 to 5.5 of RFC 6455: what a frame looks like on
// the wire, and what the server half reads out of a byte stream.
module Frames {
  import opened Prelude

  type Byte = x: int | 0 <= x < 256 witness 0

  const CONTINUATION: nat := 0
  const TEXT: nat := 1
  const BINARY: nat := 2
  const CLOSE: nat := 8
  const PING: nat := 9
  const PONG: nat := 10
  const MAX_MESSAGE: nat := 1048576
  const MAX_CONTROL: nat := 125

  // ----- Masking -----

  // Exclusive or of two numbers of the given number of bits.
  function XorBits(a: nat, b: nat, bits: nat): nat {
    if bits == 0 then 0 else (a % 2 + b % 2) % 2 + 2 * XorBits(a / 2, b / 2, bits - 1)
  }

  function Power2(n: nat): nat { if n == 0 then 1 else 2 * Power2(n - 1) }

  lemma {:induction false} XorTwice(a: nat, b: nat, bits: nat)
    requires a < Power2(bits)
    ensures XorBits(a, b, bits) < Power2(bits)
    ensures XorBits(XorBits(a, b, bits), b, bits) == a
  {
    if bits > 0 {
      XorTwice(a / 2, b / 2, bits - 1);
      var d, y := (a % 2 + b % 2) % 2, XorBits(a / 2, b / 2, bits - 1);
      HalfOf(d, y);
      XorStep(d, y, b, bits);
      BitTwice(a, b);
    }
  }

  lemma XorStep(d: nat, y: nat, b: nat, bits: nat)
    requires d < 2 && bits > 0
    ensures XorBits(d + 2 * y, b, bits) == (d + b % 2) % 2 + 2 * XorBits(y, b / 2, bits - 1)
  {
    HalfOf(d, y);
  }

  lemma BitTwice(a: nat, b: nat)
    ensures ((a % 2 + b % 2) % 2 + b % 2) % 2 == a % 2
  {
  }

  lemma HalfOf(d: nat, y: nat)
    requires d < 2
    ensures (d + 2 * y) / 2 == y && (d + 2 * y) % 2 == d
  {
  }

  function Xor(a: Byte, b: Byte): Byte {
    assert Power2(8) == 256 by { Power2Of8(); }
    XorTwice(a, b, 8);
    XorBits(a, b, 8)
  }

  lemma Power2Of8()
    ensures Power2(8) == 256
  {
    assert Power2(4) == 16;
  }

  lemma XorUndoes(a: Byte, b: Byte)
    ensures Xor(Xor(a, b), b) == a
  {
    Power2Of8();
    XorTwice(a, b, 8);
  }

  type Key = k: seq<Byte> | |k| == 4 witness [0, 0, 0, 0]

  function Mask(s: seq<Byte>, key: Key): (r: seq<Byte>)
    ensures |r| == |s|
  {
    seq(|s|, i requires 0 <= i < |s| => Xor(s[i], key[i % 4]))
  }

  lemma MaskUndoes(s: seq<Byte>, key: Key)
    ensures Mask(Mask(s, key), key) == s
  {
    forall i | 0 <= i < |s|
      ensures Mask(Mask(s, key), key)[i] == s[i]
    {
      XorUndoes(s[i], key[i % 4]);
    }
  }

  // ----- Lengths -----

  // n in width bytes, most significant first.
  function Big(n: nat, width: nat): (r: seq<Byte>)
    ensures |r| == width
  {
    if width == 0 then [] else Big(n / 256, width - 1) + [n % 256]
  }

  function Value(s: seq<Byte>): nat {
    if s == [] then 0 else Value(s[..|s| - 1]) * 256 + s[|s| - 1]
  }

  predicate FitsIn(n: nat, width: nat) { if width == 0 then n == 0 else FitsIn(n / 256, width - 1) }

  lemma {:induction false} ValueOfBig(n: nat, width: nat)
    requires FitsIn(n, width)
    ensures Value(Big(n, width)) == n
  {
    if width > 0 {
      ValueOfBig(n / 256, width - 1);
      assert Big(n, width)[..width - 1] == Big(n / 256, width - 1);
    }
  }

  lemma {:induction false} BigOfValue(s: seq<Byte>)
    ensures FitsIn(Value(s), |s|) && Big(Value(s), |s|) == s
  {
    if s != [] {
      BigOfValue(s[..|s| - 1]);
      assert Value(s) / 256 == Value(s[..|s| - 1]) && Value(s) % 256 == s[|s| - 1];
    }
  }

  // ----- Frames -----

  datatype Frame = Frame(fin: bool, opcode: nat, payload: seq<Byte>)

  // The three ways to write a length; a peer may use a longer one than it needs.
  datatype Form = Short | Medium | Long

  function ExtraBytes(form: Form): nat {
    match form case Short => 0 case Medium => 2 case Long => 8
  }

  predicate CanWrite(form: Form, length: nat) {
    match form case Short => length < 126 case Medium => FitsIn(length, 2) case Long => FitsIn(length, 8)
  }

  function LengthCode(form: Form, length: nat): nat {
    match form case Short => length case Medium => 126 case Long => 127
  }

  // The frame as section 5.2 lays it out, masked when a key is given.
  function Encode(f: Frame, form: Form, key: Option<Key>): seq<Byte>
    requires f.opcode < 16 && CanWrite(form, |f.payload|)
  {
    [(if f.fin then 128 else 0) + f.opcode, (if key.Some? then 128 else 0) + LengthCode(form, |f.payload|)]
    + Big(|f.payload|, ExtraBytes(form))
    + (if key.Some? then key.value else [])
    + (if key.Some? then Mask(f.payload, key.value) else f.payload)
  }

  datatype Refusal = Closed | ReservedBits | TooLong | WrongMasking | NewStart | NoStart | UnknownOpcode | WriteFailed

  datatype Parsed = Got(frame: Frame, used: nat) | Refused(why: Refusal)

  function ExtraOf(second: Byte): nat { if second % 128 == 126 then 2 else if second % 128 == 127 then 8 else 0 }

  // Reads one frame off the front of a stream that ends after input: a server's reader
  // takes masked frames up to the cap, a client's takes unmasked ones.
  function Decode(input: seq<Byte>, masked: bool, cap: nat): Parsed {
    if |input| < 2 then Refused(Closed)
    else if (input[0] / 16) % 8 != 0 then Refused(ReservedBits)
    else
      var extra := ExtraOf(input[1]);
      if |input| < 2 + extra then Refused(Closed)
      else
        var length := if extra == 0 then input[1] % 128 else Value(input[2..2 + extra]);
        if length > cap then Refused(TooLong)
        else if (input[1] >= 128) != masked then Refused(WrongMasking)
        else
          var at := 2 + extra + if masked then 4 else 0;
          if |input| < at + length then Refused(Closed)
          else
            var body := input[at..at + length];
            Got(Frame(input[0] >= 128, input[0] % 16, if masked then Mask(body, input[at - 4..at]) else body), at + length)
  }

  // Every frame a peer may send is read back as it was meant, whatever follows it, and
  // whichever length form and masking key the peer picked.
  lemma FramesReadBack(f: Frame, form: Form, key: Option<Key>, cap: nat, rest: seq<Byte>)
    requires f.opcode < 16 && CanWrite(form, |f.payload|) && |f.payload| <= cap
    ensures Decode(Encode(f, form, key) + rest, key.Some?, cap) == Got(f, |Encode(f, form, key)|)
  {
    hide Big, Value, Mask, FitsIn;
    var length, extra := |f.payload|, ExtraBytes(form);
    var input := Encode(f, form, key) + rest;
    var at := 2 + extra + if key.Some? then 4 else 0;
    FirstBytes(f, form, key, rest);
    WireParts(f, form, key, rest);
    if extra > 0 { ValueOfBig(length, extra); }
    if key.Some? { MaskUndoes(f.payload, key.value); }
  }

  lemma FirstBytes(f: Frame, form: Form, key: Option<Key>, rest: seq<Byte>)
    requires f.opcode < 16 && CanWrite(form, |f.payload|)
    ensures
      var input := Encode(f, form, key) + rest;
      && input[0] / 16 % 8 == 0 && input[0] % 16 == f.opcode && (input[0] >= 128 <==> f.fin)
      && input[1] % 128 == LengthCode(form, |f.payload|) && (input[1] >= 128 <==> key.Some?)
      && ExtraOf(input[1]) == ExtraBytes(form)
  {
    hide Big, Value, Mask, FitsIn;
  }

  // Where each part of a frame is on the wire.
  lemma WireParts(f: Frame, form: Form, key: Option<Key>, rest: seq<Byte>)
    requires f.opcode < 16 && CanWrite(form, |f.payload|)
    ensures
      var input, extra := Encode(f, form, key) + rest, ExtraBytes(form);
      var at := 2 + extra + if key.Some? then 4 else 0;
      && |Encode(f, form, key)| == at + |f.payload|
      && input[2..2 + extra] == Big(|f.payload|, extra)
      && (key.Some? ==> input[at - 4..at] == key.value)
      && input[at..at + |f.payload|] == if key.Some? then Mask(f.payload, key.value) else f.payload
  {
    hide Value, FitsIn, XorBits;
  }

  function FormOf(second: Byte): Form { if second % 128 == 126 then Medium else if second % 128 == 127 then Long else Short }

  function KeyOf(input: seq<Byte>, masked: bool): Option<Key>
    requires |input| >= 2 && (masked ==> |input| >= 2 + ExtraOf(input[1]) + 4)
  {
    var at := 2 + ExtraOf(input[1]);
    if masked then Some(input[at..at + 4]) else None
  }

  // Nothing else is read: bytes that yield a frame are that frame's encoding.
  lemma OnlyFramesAreRead(input: seq<Byte>, masked: bool, cap: nat)
    requires Decode(input, masked, cap).Got?
    ensures
      var g := Decode(input, masked, cap);
      && 2 + ExtraOf(input[1]) + (if masked then 4 else 0) <= g.used <= |input|
      && g.frame.opcode < 16 && |g.frame.payload| <= cap
      && CanWrite(FormOf(input[1]), |g.frame.payload|)
      && input[..g.used] == Encode(g.frame, FormOf(input[1]), KeyOf(input, masked))
  {
    hide Big, Value, Mask, FitsIn;
    var g := Decode(input, masked, cap);
    var extra, key := ExtraOf(input[1]), KeyOf(input, masked);
    var at := 2 + extra + if masked then 4 else 0;
    var body := input[at..g.used];
    if extra > 0 { BigOfValue(input[2..2 + extra]); }
    if masked { MaskUndoes(body, key.value); }
    Rejoin(input, extra, if masked then key.value else [], g.used);
    EncodeIs(g.frame, FormOf(input[1]), key, input[0], input[1], input[2..2 + extra], body);
  }

  lemma Rejoin(input: seq<Byte>, extra: nat, key: seq<Byte>, used: nat)
    requires 2 + extra + |key| <= used <= |input| && key == input[2 + extra..2 + extra + |key|]
    ensures input[..used] == [input[0], input[1]] + input[2..2 + extra] + key + input[2 + extra + |key|..used]
  {
  }

  // The parts that Encode puts together.
  lemma EncodeIs(f: Frame, form: Form, key: Option<Key>, first: Byte, second: Byte, length: seq<Byte>, body: seq<Byte>)
    requires f.opcode < 16 && CanWrite(form, |f.payload|)
    requires f.fin == (first >= 128) && f.opcode == first % 16 && (first / 16) % 8 == 0
    requires second % 128 == LengthCode(form, |f.payload|) && (second >= 128 <==> key.Some?)
    requires length == Big(|f.payload|, ExtraBytes(form))
    requires body == if key.Some? then Mask(f.payload, key.value) else f.payload
    ensures Encode(f, form, key) == [first, second] + length + (if key.Some? then key.value else []) + body
  {
    hide Big, Mask;
  }

  // ----- What the server writes -----

  function MinimalForm(length: nat): Form { if length < 126 then Short else if length < 65536 then Medium else Long }

  function Power256(width: nat): nat { if width == 0 then 1 else 256 * Power256(width - 1) }

  lemma {:induction false} FitsBelow(n: nat, width: nat)
    ensures FitsIn(n, width) <==> n < Power256(width)
  {
    if width > 0 { FitsBelow(n / 256, width - 1); }
  }

  const TOO_LONG := 0x1_0000_0000_0000_0000

  lemma MinimalFormFits(length: nat)
    requires length < TOO_LONG
    ensures CanWrite(MinimalForm(length), length)
  {
    assert Power256(2) == 65536;
    assert Power256(4) == 0x1_0000_0000;
    assert Power256(6) == 0x1_0000_0000_0000;
    assert Power256(8) == TOO_LONG;
    FitsBelow(length, 2);
    FitsBelow(length, 8);
  }

  function ServerFrame(opcode: nat, payload: seq<Byte>): seq<Byte>
    requires opcode < 16 && |payload| < TOO_LONG
  {
    MinimalFormFits(|payload|);
    Encode(Frame(true, opcode, payload), MinimalForm(|payload|), None)
  }

  // A client reads every server frame back: opcode and payload, unfragmented and unmasked.
  lemma ServerFramesReadBack(opcode: nat, payload: seq<Byte>, rest: seq<Byte>)
    requires opcode < 16 && |payload| < TOO_LONG
    ensures
      var wire := ServerFrame(opcode, payload);
      Decode(wire + rest, false, |payload|) == Got(Frame(true, opcode, payload), |wire|)
  {
    MinimalFormFits(|payload|);
    FramesReadBack(Frame(true, opcode, payload), MinimalForm(|payload|), None, |payload|, rest);
  }
}
