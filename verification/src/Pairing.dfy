// internal/auth/device.go: pairing a device, with any number of confirmations, polls and
// retries racing over one PAIR row.
module Pairing {
  import opened Prelude

  const MAX_ATTEMPTS: nat := 5
  const CODE_LENGTH: nat := 8
  const ALPHABET := "BCDFGHJKLMNPQRSTVWXZ"

  // ----- User codes -----

  function Upper(c: char): char { if 'a' <= c <= 'z' then c - 'a' + 'A' else c }

  predicate Separator(c: char) { c == '-' || c == ' ' || c == '\t' }

  // What a human typed, in the stored form. Upper-casing beyond ASCII is not modelled.
  function Normalize(s: string): string {
    if s == [] then []
    else (if Separator(s[0]) then [] else [Upper(s[0])]) + Normalize(s[1..])
  }

  predicate CodeMatches(typed: string, stored: string) { stored != "" && Normalize(typed) == stored }

  function FormatCode(code: string): string {
    if |code| != CODE_LENGTH then code else code[..CODE_LENGTH / 2] + "-" + code[CODE_LENGTH / 2..]
  }

  predicate FromAlphabet(s: string) { forall i :: 0 <= i < |s| ==> s[i] in ALPHABET }

  function Lower(c: char): char { if 'A' <= c <= 'Z' then c - 'A' + 'a' else c }

  // a is b typed in any mixture of cases, with separators anywhere.
  predicate TypedAs(a: string, b: string) {
    if a == [] then b == []
    else if Separator(a[0]) then TypedAs(a[1..], b)
    else b != [] && (a[0] == b[0] || a[0] == Lower(b[0])) && TypedAs(a[1..], b[1..])
  }

  predicate Capitals(s: string) { forall i :: 0 <= i < |s| ==> 'A' <= s[i] <= 'Z' }

  lemma AlphabetIsCapitals(code: string)
    requires FromAlphabet(code)
    ensures Capitals(code)
  {
    assert forall c :: c in ALPHABET ==> 'A' <= c <= 'Z';
  }

  lemma CapitalsTail(s: string)
    requires Capitals(s) && s != []
    ensures Capitals(s[1..]) && s == [s[0]] + s[1..]
  {
  }

  lemma {:induction false} TypedNormalizes(typed: string, code: string)
    requires Capitals(code)
    ensures TypedAs(typed, code) <==> Normalize(typed) == code
  {
    if typed != [] {
      var rest := Normalize(typed[1..]);
      if Separator(typed[0]) {
        TypedNormalizes(typed[1..], code);
        assert [] + rest == rest;
      } else if code != [] {
        CapitalsTail(code);
        TypedNormalizes(typed[1..], code[1..]);
        assert ([Upper(typed[0])] + rest)[0] == Upper(typed[0]) && ([Upper(typed[0])] + rest)[1..] == rest;
      }
    }
  }

  // A code matches exactly when it is typed right, in whatever case and grouping.
  lemma TypedCodesMatch(typed: string, code: string)
    requires FromAlphabet(code) && code != ""
    ensures CodeMatches(typed, code) <==> TypedAs(typed, code)
  {
    AlphabetIsCapitals(code);
    TypedNormalizes(typed, code);
  }

  lemma {:induction false} PlainIsTyped(code: string)
    requires Capitals(code)
    ensures TypedAs(code, code)
  {
    if code != [] {
      CapitalsTail(code);
      PlainIsTyped(code[1..]);
    }
  }

  lemma {:induction false} DashedIsTyped(a: string, b: string)
    requires Capitals(a) && Capitals(b)
    ensures TypedAs(a + "-" + b, a + b)
  {
    var typed := a + "-" + b;
    if a == [] {
      assert typed[1..] == b && a + b == b && typed[0] == '-';
      PlainIsTyped(b);
    } else {
      CapitalsTail(a);
      DashedIsTyped(a[1..], b);
      assert typed[1..] == a[1..] + "-" + b && (a + b)[1..] == a[1..] + b && typed[0] == (a + b)[0] == a[0];
    }
  }

  // The code as the device shows it matches the code as it is stored.
  lemma DisplayedCodesMatch(code: string)
    requires FromAlphabet(code) && code != ""
    ensures CodeMatches(FormatCode(code), code)
  {
    AlphabetIsCapitals(code);
    if |code| == CODE_LENGTH {
      var a, b := code[..CODE_LENGTH / 2], code[CODE_LENGTH / 2..];
      assert code == a + b;
      DashedIsTyped(a, b);
    } else {
      PlainIsTyped(code);
    }
    TypedNormalizes(FormatCode(code), code);
  }

  // ----- generateUserCode -----

  const ACCEPTED: nat := 240

  function Letters(bytes: seq<nat>): string {
    if bytes == [] then ""
    else
      var b := bytes[|bytes| - 1];
      Letters(bytes[..|bytes| - 1]) + if b < ACCEPTED then [ALPHABET[b % 20]] else ""
  }

  lemma {:induction false} LettersGrow(a: seq<nat>, b: seq<nat>)
    ensures Letters(a) <= Letters(a + b) && FromAlphabet(Letters(a))
  {
    if b == [] {
      assert a + b == a;
    } else {
      LettersGrow(a, b[..|b| - 1]);
      assert (a + b)[..|a + b| - 1] == a + b[..|b| - 1];
    }
    if a != [] { LettersGrow(a[..|a| - 1], [a[|a| - 1]]); }
  }

  // Rejection sampling over random bytes; None when they run out. The code is the first
  // eight accepted bytes, whatever came in between.
  method GenerateUserCode(random: seq<nat>) returns (code: Option<string>)
    ensures code.Some? <==> |Letters(random)| >= CODE_LENGTH
    ensures code.Some? ==> code.value == Letters(random)[..CODE_LENGTH] && FromAlphabet(code.value)
  {
    var out, i := "", 0;
    while |out| < CODE_LENGTH && i < |random|
      invariant 0 <= i <= |random| && out == Letters(random[..i]) && |out| <= CODE_LENGTH
    {
      assert random[..i + 1][..i] == random[..i];
      var b := random[i];
      if b < ACCEPTED { out := out + [ALPHABET[b % |ALPHABET|]]; }
      i := i + 1;
    }
    if i == |random| { assert random[..i] == random; }
    LettersGrow(random[..i], random[i..]);
    assert random[..i] + random[i..] == random;
    if |out| < CODE_LENGTH { return None; }
    return Some(out);
  }

  // How many of the bytes below n give letter c.
  function Chances(c: nat, n: nat): nat {
    if n == 0 then 0 else Chances(c, n - 1) + if n - 1 < ACCEPTED && (n - 1) % 20 == c then 1 else 0
  }

  lemma {:induction false} ChancesPerBlock(c: nat, k: nat, r: nat)
    requires c < 20 && r <= 20 && 20 * k + r <= ACCEPTED
    ensures Chances(c, 20 * k + r) == k + if c < r then 1 else 0
  {
    if r > 0 {
      ChancesPerBlock(c, k, r - 1);
      PlaceInBlock(k, r - 1);
    } else if k > 0 {
      ChancesPerBlock(c, k - 1, 20);
    }
  }

  lemma PlaceInBlock(k: nat, r: nat)
    requires r < 20
    ensures (20 * k + r) % 20 == r
  {
  }

  lemma {:induction false} RejectedBytes(c: nat, n: nat)
    requires ACCEPTED <= n
    ensures Chances(c, n) == Chances(c, ACCEPTED)
  {
    if n > ACCEPTED { RejectedBytes(c, n - 1); }
  }

  // No letter is likelier than another.
  lemma LettersAreUniform(c: nat)
    requires c < 20
    ensures Chances(c, 256) == 12
  {
    RejectedBytes(c, 256);
    ChancesPerBlock(c, 12, 0);
  }

  // ----- The pairing protocol -----

  datatype Status = Pending | Bound | Claimed | Failed

  datatype Pair = Pair(challenge: string, code: string, status: Status, device: Option<nat>, user: string, attempts: nat)

  datatype Device = Device(user: string, family: nat)

  datatype Proc =
    | BindRead(nonce: nat, typed: string)
    | BindAuthorize(nonce: nat, typed: string, pair: Pair)
    | BindDevice(nonce: nat, typed: string, user: string)
    | BindFlip(nonce: nat, typed: string, user: string, device: nat)
    | CountMiss(nonce: nat)
    | MissRead(nonce: nat, count: nat)   // count is history: which wrong entry this process counted
    | MissFlip(nonce: nat, count: nat)
    | ClaimRead(nonce: nat, verifier: string)
    | ClaimDevice(nonce: nat, verifier: string, pair: Pair)
    | ClaimSession(nonce: nat, verifier: string, device: nat, record: Device)
    | ClaimFlip(nonce: nat, verifier: string, device: nat, record: Device, session: nat)

  // user: the account the sign-in gate let through, if any. ok: the store and the
  // provisioning hook answer; otherwise the call ends with an error.
  datatype Choice = Choice(user: Option<string>, ok: bool)

  datatype Action =
    | Register(challenge: string, code: string)
    | Expire(nonce: nat)
    | Start(pid: nat, entry: Proc)
    | Advance(pid: nat, ch: Choice)
    | Crash(pid: nat)

  datatype Binding = Binding(typed: string, device: nat, user: string, code: string, challenge: string)

  datatype Claim = Claim(nonce: nat, verifier: string, device: nat, user: string, family: nat, session: nat)

  // The count-th wrong entry for pairing nonce, and what became of the process that counted
  // it: on its way to failing the pairing, ended before that, excused because it read fewer
  // than five, or run to its end.
  datatype Miss = Miss(nonce: nat, count: nat)

  datatype Fate = UnderWay(pid: nat) | Ended | Excused | Acted

  datatype Log = Log(bindings: map<nat, Binding>, claims: seq<Claim>, fates: map<Miss, Fate>)

  datatype Sys = Sys(pairs: map<nat, Pair>, devices: map<nat, Device>, procs: map<nat, Proc>, next: nat, log: Log)

  const INIT := Sys(map[], map[], map[], 0, Log(map[], [], map[]))

  // S256 of section 4.6 of RFC 7636, left open.
  datatype Env = Env(s256: string -> string)

  function To(s: Sys, pid: nat, p: Proc): Sys { s.(procs := s.procs[pid := p]) }

  function Stop(s: Sys, pid: nat): Sys { s.(procs := s.procs - {pid}) }

  function Meets(log: Log, m: Miss, fate: Fate): Log { log.(fates := log.fates[m := fate]) }

  // A process that counted a wrong code may end before it could fail the pairing.
  function Abandon(s: Sys, pid: nat): Sys
    requires pid in s.procs
  {
    var p := s.procs[pid];
    if p.MissRead? || p.MissFlip? then Stop(s, pid).(log := Meets(s.log, Miss(p.nonce, p.count), Ended)) else Stop(s, pid)
  }

  predicate Begins(p: Proc) { p.BindRead? || (p.ClaimRead? && p.verifier != "") }

  // The conditional update of a PAIR row: only from the status it expects.
  predicate InState(s: Sys, nonce: nat, from: Status) { nonce in s.pairs && s.pairs[nonce].status == from }

  function Step(env: Env, s: Sys, a: Action): Sys {
    match a
    case Register(challenge, code) =>
      if challenge == "" || code == "" then s
      else s.(pairs := s.pairs[s.next := Pair(challenge, code, Pending, None, "", 0)], next := s.next + 1)
    case Expire(nonce) => s.(pairs := s.pairs - {nonce})
    case Start(pid, entry) => if pid !in s.procs && Begins(entry) then To(s, pid, entry) else s
    case Crash(pid) => if pid in s.procs then Abandon(s, pid) else s
    case Advance(pid, ch) =>
      if pid !in s.procs then s
      else if !ch.ok then Abandon(s, pid)
      else
        match s.procs[pid]
        case BindRead(nonce, typed) => BindReadStep(s, pid, nonce, typed)
        case BindAuthorize(nonce, typed, pair) => BindAuthorizeStep(s, pid, nonce, typed, pair, ch)
        case BindDevice(nonce, typed, user) => BindDeviceStep(s, pid, nonce, typed, user)
        case BindFlip(nonce, typed, user, device) => BindFlipStep(s, pid, nonce, typed, user, device)
        case CountMiss(nonce) => CountMissStep(s, pid, nonce)
        case MissRead(nonce, count) => MissReadStep(s, pid, nonce, count)
        case MissFlip(nonce, count) => MissFlipStep(s, pid, nonce, count)
        case ClaimRead(nonce, verifier) => ClaimReadStep(env, s, pid, nonce, verifier)
        case ClaimDevice(nonce, verifier, pair) => ClaimDeviceStep(s, pid, nonce, verifier, pair)
        case ClaimSession(nonce, verifier, device, record) =>
          To(s, pid, ClaimFlip(nonce, verifier, device, record, s.next)).(next := s.next + 1)
        case ClaimFlip(nonce, verifier, device, record, session) => ClaimFlipStep(s, pid, nonce, verifier, device, record, session)
  }

  function Run(env: Env, s: Sys, actions: seq<Action>): Sys {
    if actions == [] then s else Step(env, Run(env, s, actions[..|actions| - 1]), actions[|actions| - 1])
  }

  // ----- BindPairing -----

  function BindReadStep(s: Sys, pid: nat, nonce: nat, typed: string): Sys {
    if !InState(s, nonce, Pending) then Stop(s, pid) else To(s, pid, BindAuthorize(nonce, typed, s.pairs[nonce]))
  }

  function BindAuthorizeStep(s: Sys, pid: nat, nonce: nat, typed: string, pair: Pair, ch: Choice): Sys {
    if ch.user.None? then Stop(s, pid)
    else if !CodeMatches(typed, pair.code) then To(s, pid, CountMiss(nonce))
    else To(s, pid, BindDevice(nonce, typed, ch.user.value))
  }

  // The DEVICE record is created before the pairing is flipped; a lost race leaves it orphaned.
  function BindDeviceStep(s: Sys, pid: nat, nonce: nat, typed: string, user: string): Sys {
    To(s, pid, BindFlip(nonce, typed, user, s.next)).(devices := s.devices[s.next := Device(user, s.next + 1)], next := s.next + 2)
  }

  function BindFlipStep(s: Sys, pid: nat, nonce: nat, typed: string, user: string, device: nat): Sys {
    if !InState(s, nonce, Pending) then Stop(s, pid)
    else
      Stop(s, pid).(pairs := s.pairs[nonce := s.pairs[nonce].(status := Bound, device := Some(device), user := user)],
                    log := s.log.(bindings := s.log.bindings[nonce := Binding(typed, device, user, s.pairs[nonce].code, s.pairs[nonce].challenge)]))
  }

  // ----- recordUserCodeFailure -----

  function CountMissStep(s: Sys, pid: nat, nonce: nat): Sys {
    if !InState(s, nonce, Pending) then Stop(s, pid)
    else
      var count := s.pairs[nonce].attempts + 1;
      To(s, pid, MissRead(nonce, count)).(pairs := s.pairs[nonce := s.pairs[nonce].(attempts := count)],
                                          log := Meets(s.log, Miss(nonce, count), UnderWay(pid)))
  }

  // The row is read again; a row that is gone ends the call with an error.
  function MissReadStep(s: Sys, pid: nat, nonce: nat, count: nat): Sys {
    if nonce !in s.pairs then Stop(s, pid).(log := Meets(s.log, Miss(nonce, count), Ended))
    else if s.pairs[nonce].attempts < MAX_ATTEMPTS then Stop(s, pid).(log := Meets(s.log, Miss(nonce, count), Excused))
    else To(s, pid, MissFlip(nonce, count))
  }

  function MissFlipStep(s: Sys, pid: nat, nonce: nat, count: nat): Sys {
    var t := Stop(s, pid).(log := Meets(s.log, Miss(nonce, count), Acted));
    if !InState(s, nonce, Pending) then t else t.(pairs := s.pairs[nonce := s.pairs[nonce].(status := Failed)])
  }

  // ----- ClaimPairing -----

  function ClaimReadStep(env: Env, s: Sys, pid: nat, nonce: nat, verifier: string): Sys {
    if !InState(s, nonce, Bound) || env.s256(verifier) != s.pairs[nonce].challenge then Stop(s, pid)
    else To(s, pid, ClaimDevice(nonce, verifier, s.pairs[nonce]))
  }

  function ClaimDeviceStep(s: Sys, pid: nat, nonce: nat, verifier: string, pair: Pair): Sys {
    if pair.device.None? || pair.device.value !in s.devices then Stop(s, pid)
    else To(s, pid, ClaimSession(nonce, verifier, pair.device.value, s.devices[pair.device.value]))
  }

  function ClaimFlipStep(s: Sys, pid: nat, nonce: nat, verifier: string, device: nat, record: Device, session: nat): Sys {
    if !InState(s, nonce, Bound) then Stop(s, pid)
    else
      Stop(s, pid).(pairs := s.pairs[nonce := s.pairs[nonce].(status := Claimed)],
                    log := s.log.(claims := s.log.claims + [Claim(nonce, verifier, device, record.user, record.family, session)]))
  }
}
