// What a confirmation and a claim that nothing disturbs come to, from every reachable state, and
// that a device whose code is typed right is paired and claimed by its owner.
module PairingAnswers {
  import opened Prelude
  import opened Pairing
  import opened PairingSafety

  // Process pid takes n steps, the world answering ch each time.
  function Alone(env: Env, s: Sys, pid: nat, ch: Choice, n: nat): Sys
    decreases n
  {
    if n == 0 then s else Alone(env, Step(env, s, Advance(pid, ch)), pid, ch, n - 1)
  }

  lemma EndedStays(env: Env, s: Sys, pid: nat, ch: Choice, n: nat)
    requires pid !in s.procs
    ensures Alone(env, s, pid, ch, n) == s
    decreases n
  {
    if n > 0 { EndedStays(env, s, pid, ch, n - 1); }
  }

  lemma NextAlone(env: Env, s: Sys, pid: nat, ch: Choice, n: nat)
    ensures Alone(env, s, pid, ch, n + 1) == Alone(env, Step(env, s, Advance(pid, ch)), pid, ch, n) && Alone(env, s, pid, ch, 0) == s
    ensures pid !in s.procs ==> Alone(env, s, pid, ch, n) == s
  {
    hide Step;
    if pid !in s.procs { EndedStays(env, s, pid, ch, n); }
  }

  // ----- Confirming -----

  // The rows, devices, bindings and claims are as they were.
  ghost predicate Untouched(s: Sys, t: Sys) {
    && t.pairs == s.pairs && t.devices == s.devices && t.log.bindings == s.log.bindings && t.log.claims == s.log.claims && t.next == s.next
  }

  // The pairing is bound to the new device d, for the account user.
  ghost predicate BoundTo(s: Sys, t: Sys, nonce: nat, typed: string, user: string, d: nat)
    requires nonce in s.pairs
  {
    var p := s.pairs[nonce];
    && d !in s.devices && d in t.devices && t.devices[d].user == user && t.devices == s.devices[d := t.devices[d]]
    && t.pairs == s.pairs[nonce := p.(status := Bound, device := Some(d), user := user)]
    && t.log.bindings == s.log.bindings[nonce := Binding(typed, d, user, p.code, p.challenge)] && t.log.claims == s.log.claims
  }

  // An open pairing is bound by the right code, and counts a wrong one; the fifth fails it. No
  // other pairing is touched, and without an account that may sign in, none is.
  ghost predicate BindComesTo(s: Sys, t: Sys, nonce: nat, typed: string, user: Option<string>) {
    if nonce !in s.pairs || s.pairs[nonce].status != Pending || user.None? then Untouched(s, t)
    else if CodeMatches(typed, s.pairs[nonce].code) then exists d: nat :: BoundTo(s, t, nonce, typed, user.value, d)
    else
      var p := s.pairs[nonce];
      && t.pairs == s.pairs[nonce := p.(attempts := p.attempts + 1, status := if p.attempts + 1 >= 5 then Failed else Pending)]
      && t.devices == s.devices && t.log.bindings == s.log.bindings && t.log.claims == s.log.claims
  }

  lemma BindUndisturbed(env: Env, s: Sys, pid: nat, nonce: nat, typed: string, ch: Choice)
    requires Inv(env, s) && pid !in s.procs && ch.ok
    ensures
      var t := Alone(env, Step(env, s, Start(pid, BindRead(nonce, typed))), pid, ch, 5);
      pid !in t.procs && BindComesTo(s, t, nonce, typed, ch.user)
  {
    hide Inv, Step, Alone, CodeMatches;
    var a := To(s, pid, BindRead(nonce, typed));
    StartsAt(env, s, pid, BindRead(nonce, typed));
    var b := Step(env, a, Advance(pid, ch));
    BindReads(env, s, pid, nonce, typed, ch);
    NextAlone(env, a, pid, ch, 4);
    NextAlone(env, b, pid, ch, 4);
    if pid in b.procs && ch.user.Some? {
      var c := Step(env, b, Advance(pid, ch));
      NextAlone(env, b, pid, ch, 3);
      if CodeMatches(typed, s.pairs[nonce].code) {
        NextIsNew(env, s);
        RightCode(env, s, pid, nonce, typed, ch);
      } else {
        WrongCode(env, s, pid, nonce, ch);
      }
    } else if pid in b.procs {
      NextAlone(env, b, pid, ch, 3);
      NextAlone(env, Step(env, b, Advance(pid, ch)), pid, ch, 3);
    }
  }

  lemma StartsAt(env: Env, s: Sys, pid: nat, p: Proc)
    requires pid !in s.procs && Begins(p)
    ensures Step(env, s, Start(pid, p)) == To(s, pid, p)
  {
  }

  lemma BindReads(env: Env, s: Sys, pid: nat, nonce: nat, typed: string, ch: Choice)
    requires pid !in s.procs && ch.ok
    ensures
      var t := Step(env, To(s, pid, BindRead(nonce, typed)), Advance(pid, ch));
      if !InState(s, nonce, Pending) then pid !in t.procs && Untouched(s, t)
      else
        && t == To(s, pid, BindAuthorize(nonce, typed, s.pairs[nonce]))
        && var u := Step(env, t, Advance(pid, ch));
           if ch.user.None? then pid !in u.procs && Untouched(s, u)
           else
             u == To(s, pid, if CodeMatches(typed, s.pairs[nonce].code) then BindDevice(nonce, typed, ch.user.value) else CountMiss(nonce))
  {
    hide CodeMatches;
  }

  lemma NextIsNew(env: Env, s: Sys)
    requires Inv(env, s)
    ensures s.next !in s.devices
  {
    hide PairOk, BindingOk, ClaimOk, ProcOk, ClaimsDistinct;
  }

  lemma RightCode(env: Env, s: Sys, pid: nat, nonce: nat, typed: string, ch: Choice)
    requires s.next !in s.devices && pid !in s.procs && ch.ok && ch.user.Some? && InState(s, nonce, Pending)
    ensures
      var t := Alone(env, To(s, pid, BindDevice(nonce, typed, ch.user.value)), pid, ch, 3);
      pid !in t.procs && BoundTo(s, t, nonce, typed, ch.user.value, s.next)
  {
    hide Alone, Step;
    var c := To(s, pid, BindDevice(nonce, typed, ch.user.value));
    var d := Step(env, c, Advance(pid, ch));
    var t := Step(env, d, Advance(pid, ch));
    NextAlone(env, c, pid, ch, 2);
    NextAlone(env, d, pid, ch, 1);
    BindsIt(env, s, pid, nonce, typed, ch);
    NextAlone(env, t, pid, ch, 1);
  }

  lemma BindsIt(env: Env, s: Sys, pid: nat, nonce: nat, typed: string, ch: Choice)
    requires s.next !in s.devices && pid !in s.procs && ch.ok && ch.user.Some? && InState(s, nonce, Pending)
    ensures
      var d := Step(env, To(s, pid, BindDevice(nonce, typed, ch.user.value)), Advance(pid, ch));
      var t := Step(env, d, Advance(pid, ch));
      pid !in t.procs && BoundTo(s, t, nonce, typed, ch.user.value, s.next)
  {
  }

  lemma WrongCode(env: Env, s: Sys, pid: nat, nonce: nat, ch: Choice)
    requires pid !in s.procs && ch.ok && InState(s, nonce, Pending)
    ensures
      var p, t := s.pairs[nonce], Alone(env, To(s, pid, CountMiss(nonce)), pid, ch, 3);
      && pid !in t.procs
      && t.pairs == s.pairs[nonce := p.(attempts := p.attempts + 1, status := if p.attempts + 1 >= 5 then Failed else Pending)]
      && t.devices == s.devices && t.log.bindings == s.log.bindings && t.log.claims == s.log.claims
  {
    hide Alone, Step;
    var c := To(s, pid, CountMiss(nonce));
    var d := Step(env, c, Advance(pid, ch));
    var e := Step(env, d, Advance(pid, ch));
    CountsIt(env, s, pid, nonce, ch);
    NextAlone(env, c, pid, ch, 2);
    NextAlone(env, d, pid, ch, 1);
    NextAlone(env, e, pid, ch, 1);
    NextAlone(env, e, pid, ch, 0);
    NextAlone(env, Step(env, e, Advance(pid, ch)), pid, ch, 0);
  }

  lemma CountsIt(env: Env, s: Sys, pid: nat, nonce: nat, ch: Choice)
    requires pid !in s.procs && ch.ok && InState(s, nonce, Pending)
    ensures
      var p, d := s.pairs[nonce], Step(env, To(s, pid, CountMiss(nonce)), Advance(pid, ch));
      var e := Step(env, d, Advance(pid, ch));
      var f := Step(env, e, Advance(pid, ch));
      var t := if p.attempts + 1 >= 5 then f else e;
      && pid !in t.procs && (p.attempts + 1 >= 5 ==> pid in e.procs)
      && t.pairs == s.pairs[nonce := p.(attempts := p.attempts + 1, status := if p.attempts + 1 >= 5 then Failed else Pending)]
      && t.devices == s.devices && t.log.bindings == s.log.bindings && t.log.claims == s.log.claims
  {
  }

  // ----- Claiming -----

  // A bound pairing is claimed by whoever holds the verifier of its challenge: they get the
  // device it was bound to, for the account that confirmed it. Nothing else is touched.
  ghost predicate ClaimComesTo(env: Env, s: Sys, t: Sys, nonce: nat, verifier: string) {
    if nonce in s.pairs && s.pairs[nonce].status == Bound && env.s256(verifier) == s.pairs[nonce].challenge then
      var p := s.pairs[nonce];
      && p.device.Some? && p.device.value in s.devices
      && t.pairs == s.pairs[nonce := p.(status := Claimed)] && t.devices == s.devices && t.log.bindings == s.log.bindings
      && t.log.claims == s.log.claims + [Claim(nonce, verifier, p.device.value, p.user, s.devices[p.device.value].family, s.next)]
    else Untouched(s, t)
  }

  lemma ClaimUndisturbed(env: Env, s: Sys, pid: nat, nonce: nat, verifier: string, ch: Choice)
    requires Inv(env, s) && pid !in s.procs && ch.ok && verifier != ""
    ensures
      var t := Alone(env, Step(env, s, Start(pid, ClaimRead(nonce, verifier))), pid, ch, 4);
      pid !in t.procs && ClaimComesTo(env, s, t, nonce, verifier)
  {
    hide Inv, Step, Alone;
    var a := To(s, pid, ClaimRead(nonce, verifier));
    StartsAt(env, s, pid, ClaimRead(nonce, verifier));
    var b := Step(env, a, Advance(pid, ch));
    NextAlone(env, a, pid, ch, 3);
    NextAlone(env, b, pid, ch, 3);
    ClaimReads(env, s, pid, nonce, verifier, ch);
    if pid in b.procs {
      var p := s.pairs[nonce];
      BoundDevice(env, s, nonce);
      var c := Step(env, b, Advance(pid, ch));
      var d := Step(env, c, Advance(pid, ch));
      NextAlone(env, b, pid, ch, 2);
      NextAlone(env, c, pid, ch, 1);
      NextAlone(env, d, pid, ch, 0);
      NextAlone(env, Step(env, d, Advance(pid, ch)), pid, ch, 0);
      ClaimsIt(env, s, pid, nonce, verifier, ch);
    }
  }

  lemma ClaimReads(env: Env, s: Sys, pid: nat, nonce: nat, verifier: string, ch: Choice)
    requires pid !in s.procs && ch.ok
    ensures
      var t := Step(env, To(s, pid, ClaimRead(nonce, verifier)), Advance(pid, ch));
      if InState(s, nonce, Bound) && env.s256(verifier) == s.pairs[nonce].challenge
      then t == To(s, pid, ClaimDevice(nonce, verifier, s.pairs[nonce]))
      else pid !in t.procs && Untouched(s, t)
  {
  }

  lemma BoundDevice(env: Env, s: Sys, nonce: nat)
    requires Inv(env, s) && InState(s, nonce, Bound)
    ensures
      var p := s.pairs[nonce];
      p.device.Some? && p.device.value in s.devices && s.devices[p.device.value].user == p.user
  {
    hide ProcOk, ClaimOk;
    assert PairOk(s, nonce) && BindingOk(s, nonce);
  }

  lemma ClaimsIt(env: Env, s: Sys, pid: nat, nonce: nat, verifier: string, ch: Choice)
    requires pid !in s.procs && ch.ok && InState(s, nonce, Bound)
    requires var p := s.pairs[nonce]; p.device.Some? && p.device.value in s.devices && s.devices[p.device.value].user == p.user
    ensures
      var p := s.pairs[nonce];
      var c := Step(env, To(s, pid, ClaimDevice(nonce, verifier, p)), Advance(pid, ch));
      var d := Step(env, c, Advance(pid, ch));
      var t := Step(env, d, Advance(pid, ch));
      && pid !in t.procs
      && t.pairs == s.pairs[nonce := p.(status := Claimed)] && t.devices == s.devices && t.log.bindings == s.log.bindings
      && t.log.claims == s.log.claims + [Claim(nonce, verifier, p.device.value, p.user, s.devices[p.device.value].family, s.next)]
  {
  }

  // ----- From registration to claim -----

  lemma {:induction false} AloneKeeps(env: Env, s: Sys, pid: nat, ch: Choice, n: nat)
    requires Inv(env, s)
    ensures Inv(env, Alone(env, s, pid, ch, n))
    decreases n
  {
    hide Inv, Step;
    if n > 0 {
      StepKeeps(env, s, Advance(pid, ch));
      AloneKeeps(env, Step(env, s, Advance(pid, ch)), pid, ch, n - 1);
    }
  }

  // From every reachable state: a device registers with the challenge of its verifier and shows
  // its code; an account types that code in any casing and grouping; the device claims. It gets
  // a device of that account.
  lemma RightCodePairs(env: Env, s: Sys, pid: nat, code: string, typed: string, verifier: string, ch: Choice)
    requires Inv(env, s) && pid !in s.procs && ch.ok && ch.user.Some?
    requires FromAlphabet(code) && code != "" && TypedAs(typed, code) && verifier != "" && env.s256(verifier) != ""
    ensures
      var a := Step(env, s, Register(env.s256(verifier), code));
      var b := Alone(env, Step(env, a, Start(pid, BindRead(s.next, typed))), pid, ch, 5);
      var t := Alone(env, Step(env, b, Start(pid, ClaimRead(s.next, verifier))), pid, ch, 4);
      && s.next in t.pairs && t.pairs[s.next].status == Claimed && t.pairs[s.next].user == ch.user.value
      && |t.log.claims| == |s.log.claims| + 1
      && var c := t.log.claims[|s.log.claims|];
         c.nonce == s.next && c.verifier == verifier && c.user == ch.user.value
         && c.device in t.devices && t.devices[c.device] == Device(c.user, c.family) && c.device !in s.devices
  {
    hide Inv, Step, Alone, CodeMatches;
    var a := Step(env, s, Register(env.s256(verifier), code));
    Registered(env, s, env.s256(verifier), code);
    StepKeeps(env, s, Register(env.s256(verifier), code));
    TypedCodesMatch(typed, code);
    BindUndisturbed(env, a, pid, s.next, typed, ch);
    var a' := Step(env, a, Start(pid, BindRead(s.next, typed)));
    StepKeeps(env, a, Start(pid, BindRead(s.next, typed)));
    AloneKeeps(env, a', pid, ch, 5);
    var b := Alone(env, a', pid, ch, 5);
    var d: nat :| BoundTo(a, b, s.next, typed, ch.user.value, d);
    ClaimUndisturbed(env, b, pid, s.next, verifier, ch);
  }

  lemma Registered(env: Env, s: Sys, challenge: string, code: string)
    requires challenge != "" && code != ""
    ensures
      var t := Step(env, s, Register(challenge, code));
      && t == s.(pairs := t.pairs, next := t.next) && s.next in t.pairs
      && t.pairs[s.next] == Pair(challenge, code, Pending, None, "", 0)
  {
  }
}
