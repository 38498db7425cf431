// What every race over a pairing keeps.
module PairingSafety {
  import opened Prelude
  import opened Pairing

  // ----- How rows may change -----

  function Rank(s: Status): nat { match s case Pending => 0 case Bound => 1 case Claimed => 2 case Failed => 2 }

  // pending to bound to claimed, or pending to failed; the codes never change, and the
  // device and owner are fixed once bound.
  ghost predicate PairStep(a: Pair, b: Pair) {
    && b.challenge == a.challenge && b.code == a.code && a.attempts <= b.attempts
    && (a.status != b.status ==>
          (a.status == Pending && (b.status == Bound || b.status == Claimed || b.status == Failed)) || (a.status == Bound && b.status == Claimed))
    && (a.status == Bound || a.status == Claimed ==> b.device == a.device && b.user == a.user)
  }

  // Rows move on or expire; a nonce is never registered twice.
  ghost predicate Evolves(s: Sys, t: Sys) {
    && s.next <= t.next
    && (forall n :: n in t.pairs && n in s.pairs ==> PairStep(s.pairs[n], t.pairs[n]))
    && (forall n :: n in t.pairs && n !in s.pairs ==> n >= s.next)
    && (forall n :: n in s.log.bindings ==> n in t.log.bindings && t.log.bindings[n] == s.log.bindings[n])
    && s.log.claims <= t.log.claims
  }

  // ----- The invariant -----

  ghost predicate PairOk(s: Sys, n: nat)
    requires n in s.pairs
  {
    var p := s.pairs[n];
    && n < s.next && p.code != ""
    && (p.status == Pending || p.status == Failed <==> n !in s.log.bindings)
    && (p.status == Bound || p.status == Claimed ==>
          n in s.log.bindings && s.log.bindings[n] == Binding(s.log.bindings[n].typed, s.log.bindings[n].device, p.user, p.code, p.challenge)
          && p.device == Some(s.log.bindings[n].device))
    && (p.status == Bound ==> forall i :: 0 <= i < |s.log.claims| ==> s.log.claims[i].nonce != n)
  }

  ghost predicate BindingOk(s: Sys, n: nat)
    requires n in s.log.bindings
  {
    var b := s.log.bindings[n];
    n < s.next && CodeMatches(b.typed, b.code) && b.device in s.devices && s.devices[b.device].user == b.user
  }

  // The device that started pairing n is the one holding verifier, and n was bound to device.
  ghost predicate Proven(env: Env, s: Sys, n: nat, verifier: string, device: nat) {
    n in s.log.bindings && s.log.bindings[n].device == device && env.s256(verifier) == s.log.bindings[n].challenge
  }

  ghost predicate ClaimOk(env: Env, s: Sys, c: Claim) {
    && Proven(env, s, c.nonce, c.verifier, c.device)
    && s.log.bindings[c.nonce].user == c.user
    && (c.nonce in s.pairs ==> s.pairs[c.nonce].status == Claimed)
  }

  ghost predicate ProcOk(env: Env, s: Sys, p: Proc) {
    match p
    case BindAuthorize(n, _, pair) => n < s.next && (n in s.pairs ==> s.pairs[n].code == pair.code)
    case BindDevice(n, typed, _) => n < s.next && (n in s.pairs ==> CodeMatches(typed, s.pairs[n].code))
    case BindFlip(n, typed, user, device) =>
      n < s.next && (n in s.pairs ==> CodeMatches(typed, s.pairs[n].code)) && device in s.devices && s.devices[device].user == user
    case ClaimDevice(n, verifier, pair) => pair.device.Some? && Proven(env, s, n, verifier, pair.device.value)
    case ClaimSession(n, verifier, device, record) => Proven(env, s, n, verifier, device) && record.user == s.log.bindings[n].user
    case ClaimFlip(n, verifier, device, record, _) => Proven(env, s, n, verifier, device) && record.user == s.log.bindings[n].user
    case _ => true
  }

  ghost predicate ClaimsDistinct(claims: seq<Claim>) {
    forall i, j :: 0 <= i < j < |claims| ==> claims[i].nonce != claims[j].nonce
  }

  ghost predicate Inv(env: Env, s: Sys) {
    match s case Sys(pairs, devices, procs, next, log) =>
      && (forall n :: n in pairs ==> PairOk(s, n))
      && (forall n :: n in log.bindings ==> BindingOk(s, n))
      && (forall d :: d in devices ==> d < next)
      && (forall i :: 0 <= i < |log.claims| ==> ClaimOk(env, s, log.claims[i]))
      && ClaimsDistinct(log.claims)
      && (forall pid :: pid in procs ==> ProcOk(env, s, procs[pid]))
  }

  // ----- Steps that move one process and leave every row alone -----

  ghost predicate Moves(env: Env, s: Sys, t: Sys, pid: nat) {
    && t.pairs == s.pairs && t.log.bindings == s.log.bindings && t.log.claims == s.log.claims
    && s.next <= t.next
    && (forall d :: d in s.devices ==> d in t.devices && t.devices[d] == s.devices[d]) && (forall d :: d in t.devices ==> d < t.next)
    && (forall q :: q in t.procs && q != pid ==> q in s.procs && t.procs[q] == s.procs[q])
    && (pid in t.procs ==> ProcOk(env, t, t.procs[pid]))
  }

  lemma MovesKeep(env: Env, s: Sys, t: Sys, pid: nat)
    requires Inv(env, s) && Moves(env, s, t, pid)
    ensures Inv(env, t) && Evolves(s, t)
  {
    forall n | n in t.pairs
      ensures PairOk(t, n)
    {
      assert PairOk(s, n);
    }
    forall n | n in t.log.bindings
      ensures BindingOk(t, n)
    {
      assert BindingOk(s, n);
    }
    forall i | 0 <= i < |t.log.claims|
      ensures ClaimOk(env, t, t.log.claims[i])
    {
      assert ClaimOk(env, s, s.log.claims[i]);
    }
    forall q | q in t.procs
      ensures ProcOk(env, t, t.procs[q])
    {
      if q != pid { ProcStays(env, s, t, s.procs[q]); }
    }
  }

  // Everything a process may know about a row stays true while rows move on.
  ghost predicate Grows(s: Sys, t: Sys) {
    && Evolves(s, t) && (forall d :: d in s.devices ==> d in t.devices && t.devices[d] == s.devices[d])
  }

  lemma ProcStays(env: Env, s: Sys, t: Sys, p: Proc)
    requires ProcOk(env, s, p) && Grows(s, t)
    ensures ProcOk(env, t, p)
  {
  }

  // Process pid, working on nonce n, changes that row and nothing else.
  ghost predicate RowMoves(env: Env, s: Sys, t: Sys, pid: nat, n: nat) {
    && pid in s.procs && s.procs[pid].nonce == n && n in s.pairs && n in t.pairs
    && t.pairs == s.pairs[n := t.pairs[n]] && PairStep(s.pairs[n], t.pairs[n])
    && t.devices == s.devices && t.next == s.next
    && (t.log.bindings == s.log.bindings || (n !in s.log.bindings && n in t.log.bindings && t.log.bindings == s.log.bindings[n := t.log.bindings[n]]))
    && (n in t.log.bindings ==> BindingOk(t, n))
    && (t.log.claims == s.log.claims
        || (|t.log.claims| == |s.log.claims| + 1 && s.log.claims <= t.log.claims && t.log.claims[|s.log.claims|].nonce == n
            && s.pairs[n].status == Bound && ClaimOk(env, t, t.log.claims[|s.log.claims|])))
    && (t.procs == s.procs - {pid} || (pid in t.procs && t.procs == s.procs[pid := t.procs[pid]] && ProcOk(env, t, t.procs[pid])))
  }

  lemma RowEvolves(env: Env, s: Sys, t: Sys, pid: nat, n: nat)
    requires RowMoves(env, s, t, pid, n)
    ensures Evolves(s, t) && Grows(s, t)
  {
  }

  lemma OtherRow(env: Env, s: Sys, t: Sys, pid: nat, n: nat, m: nat)
    requires RowMoves(env, s, t, pid, n) && m in s.pairs && m != n && PairOk(s, m)
    ensures PairOk(t, m)
  {
    hide ClaimOk, ProcOk, BindingOk, PairStep;
    if t.pairs[m].status == Bound {
      forall i | 0 <= i < |t.log.claims|
        ensures t.log.claims[i].nonce != m
      {
        if i < |s.log.claims| { assert t.log.claims[i] == s.log.claims[i]; }
      }
    }
  }

  lemma OldClaim(env: Env, s: Sys, t: Sys, pid: nat, n: nat, c: Claim)
    requires RowMoves(env, s, t, pid, n) && ClaimOk(env, s, c)
    ensures ClaimOk(env, t, c)
  {
    hide ProcOk, BindingOk;
  }

  lemma RowKeeps(env: Env, s: Sys, t: Sys, pid: nat, n: nat)
    requires Inv(env, s) && RowMoves(env, s, t, pid, n) && PairOk(t, n)
    ensures Inv(env, t) && Evolves(s, t)
  {
    hide PairOk, BindingOk, ClaimOk, ProcOk, PairStep, Evolves, Grows, ClaimsDistinct;
    RowEvolves(env, s, t, pid, n);
    forall m | m in t.pairs
      ensures PairOk(t, m)
    {
      if m != n { OtherRow(env, s, t, pid, n, m); }
    }
    forall m | m in t.log.bindings
      ensures BindingOk(t, m)
    {
      if m != n { OtherBinding(s, t, m); }
    }
    forall i | 0 <= i < |t.log.claims|
      ensures ClaimOk(env, t, t.log.claims[i])
    {
      if i < |s.log.claims| {
        assert t.log.claims[i] == s.log.claims[i];
        OldClaim(env, s, t, pid, n, s.log.claims[i]);
      }
    }
    ClaimsStayDistinct(s, t, n);
    forall q | q in t.procs
      ensures ProcOk(env, t, t.procs[q])
    {
      if q != pid { ProcStays(env, s, t, s.procs[q]); }
    }
  }

  lemma OtherBinding(s: Sys, t: Sys, m: nat)
    requires m in s.log.bindings && BindingOk(s, m) && m in t.log.bindings && t.log.bindings[m] == s.log.bindings[m]
    requires t.devices == s.devices && s.next <= t.next
    ensures BindingOk(t, m)
  {
  }

  lemma ClaimsStayDistinct(s: Sys, t: Sys, n: nat)
    requires ClaimsDistinct(s.log.claims) && n in s.pairs && PairOk(s, n)
    requires t.log.claims == s.log.claims
             || (|t.log.claims| == |s.log.claims| + 1 && s.log.claims <= t.log.claims && t.log.claims[|s.log.claims|].nonce == n
                 && s.pairs[n].status == Bound)
    ensures ClaimsDistinct(t.log.claims)
  {
    forall i, j | 0 <= i < j < |t.log.claims|
      ensures t.log.claims[i].nonce != t.log.claims[j].nonce
    {
      assert t.log.claims[i] == s.log.claims[i];
      if j < |s.log.claims| { assert t.log.claims[j] == s.log.claims[j]; }
    }
  }

  lemma BindFlipKeeps(env: Env, s: Sys, pid: nat)
    requires Inv(env, s) && pid in s.procs && s.procs[pid].BindFlip?
    ensures var p := s.procs[pid]; var t := BindFlipStep(s, pid, p.nonce, p.typed, p.user, p.device); Inv(env, t) && Evolves(s, t)
  {
    var p := s.procs[pid];
    var t := BindFlipStep(s, pid, p.nonce, p.typed, p.user, p.device);
    assert ProcOk(env, s, p);
    if InState(s, p.nonce, Pending) {
      assert PairOk(s, p.nonce);
      forall i | 0 <= i < |s.log.claims|
        ensures s.log.claims[i].nonce != p.nonce
      {
        assert ClaimOk(env, s, s.log.claims[i]);
      }
      RowKeeps(env, s, t, pid, p.nonce);
    } else {
      MovesKeep(env, s, t, pid);
    }
  }

  lemma CountMissKeeps(env: Env, s: Sys, pid: nat)
    requires Inv(env, s) && pid in s.procs && s.procs[pid].CountMiss?
    ensures var t := CountMissStep(s, pid, s.procs[pid].nonce); Inv(env, t) && Evolves(s, t)
  {
    var n := s.procs[pid].nonce;
    var t := CountMissStep(s, pid, n);
    if InState(s, n, Pending) {
      assert PairOk(s, n);
      RowKeeps(env, s, t, pid, n);
    } else {
      MovesKeep(env, s, t, pid);
    }
  }

  lemma MissFlipKeeps(env: Env, s: Sys, pid: nat)
    requires Inv(env, s) && pid in s.procs && s.procs[pid].MissFlip?
    ensures var t := MissFlipStep(s, pid, s.procs[pid].nonce, s.procs[pid].count); Inv(env, t) && Evolves(s, t)
  {
    var n := s.procs[pid].nonce;
    var t := MissFlipStep(s, pid, n, s.procs[pid].count);
    if InState(s, n, Pending) {
      assert PairOk(s, n);
      RowKeeps(env, s, t, pid, n);
    } else {
      MovesKeep(env, s, t, pid);
    }
  }

  lemma ClaimFlipKeeps(env: Env, s: Sys, pid: nat)
    requires Inv(env, s) && pid in s.procs && s.procs[pid].ClaimFlip?
    ensures
      var p := s.procs[pid];
      var t := ClaimFlipStep(s, pid, p.nonce, p.verifier, p.device, p.record, p.session);
      Inv(env, t) && Evolves(s, t)
  {
    var p := s.procs[pid];
    var t := ClaimFlipStep(s, pid, p.nonce, p.verifier, p.device, p.record, p.session);
    assert ProcOk(env, s, p);
    if InState(s, p.nonce, Bound) {
      assert PairOk(s, p.nonce) && BindingOk(s, p.nonce);
      RowKeeps(env, s, t, pid, p.nonce);
    } else {
      MovesKeep(env, s, t, pid);
    }
  }

  lemma ClaimReadKeeps(env: Env, s: Sys, pid: nat)
    requires Inv(env, s) && pid in s.procs && s.procs[pid].ClaimRead?
    ensures var t := ClaimReadStep(env, s, pid, s.procs[pid].nonce, s.procs[pid].verifier); Inv(env, t) && Evolves(s, t)
  {
    var p := s.procs[pid];
    if p.nonce in s.pairs { assert PairOk(s, p.nonce); }
    MovesKeep(env, s, ClaimReadStep(env, s, pid, p.nonce, p.verifier), pid);
  }

  lemma ClaimDeviceKeeps(env: Env, s: Sys, pid: nat)
    requires Inv(env, s) && pid in s.procs && s.procs[pid].ClaimDevice?
    ensures
      var t := ClaimDeviceStep(s, pid, s.procs[pid].nonce, s.procs[pid].verifier, s.procs[pid].pair);
      Inv(env, t) && Evolves(s, t)
  {
    var p := s.procs[pid];
    assert ProcOk(env, s, p);
    assert BindingOk(s, p.nonce);
    MovesKeep(env, s, ClaimDeviceStep(s, pid, p.nonce, p.verifier, p.pair), pid);
  }

  lemma AbandonKeeps(env: Env, s: Sys, pid: nat)
    requires Inv(env, s) && pid in s.procs
    ensures Inv(env, Abandon(s, pid)) && Evolves(s, Abandon(s, pid))
  {
    MovesKeep(env, s, Abandon(s, pid), pid);
  }

  lemma ReadKeeps(env: Env, s: Sys, pid: nat, ch: Choice)
    requires Inv(env, s) && pid in s.procs && ch.ok
    requires var p := s.procs[pid]; p.BindRead? || p.BindAuthorize? || p.MissRead?
    ensures var t := Step(env, s, Advance(pid, ch)); Inv(env, t) && Evolves(s, t)
  {
    hide BindDeviceStep, ClaimReadStep, ClaimDeviceStep, ClaimFlipStep, BindFlipStep, CountMissStep, MissFlipStep, CodeMatches, Inv, Evolves;
    InvParts(env, s, pid);
    MovesKeep(env, s, Step(env, s, Advance(pid, ch)), pid);
  }

  lemma FreshKeeps(env: Env, s: Sys, pid: nat, ch: Choice)
    requires Inv(env, s) && pid in s.procs && ch.ok && (s.procs[pid].BindDevice? || s.procs[pid].ClaimSession?)
    ensures var t := Step(env, s, Advance(pid, ch)); Inv(env, t) && Evolves(s, t)
  {
    hide ClaimReadStep, ClaimDeviceStep, ClaimFlipStep, BindFlipStep, CountMissStep, MissFlipStep, CodeMatches, Inv, Evolves;
    InvParts(env, s, pid);
    MovesKeep(env, s, Step(env, s, Advance(pid, ch)), pid);
  }

  lemma InvParts(env: Env, s: Sys, pid: nat)
    requires Inv(env, s) && pid in s.procs
    ensures ProcOk(env, s, s.procs[pid])
    ensures forall d :: d in s.devices ==> d < s.next
    ensures s.procs[pid].nonce in s.pairs ==> s.procs[pid].nonce < s.next
  {
    if s.procs[pid].nonce in s.pairs { assert PairOk(s, s.procs[pid].nonce); }
  }

  lemma OutsideKeeps(env: Env, s: Sys, a: Action)
    requires Inv(env, s) && !a.Advance?
    ensures Inv(env, Step(env, s, a)) && Evolves(s, Step(env, s, a))
  {
    var t := Step(env, s, a);
    match a
    case Start(pid, entry) => if t == s { Unchanged(env, s); } else { MovesKeep(env, s, t, pid); }
    case Crash(pid) => if pid in s.procs { AbandonKeeps(env, s, pid); } else { Unchanged(env, s); }
    case Register(challenge, code) => RowsKeep(env, s, t);
    case Expire(nonce) => RowsKeep(env, s, t);
  }

  lemma Unchanged(env: Env, s: Sys)
    requires Inv(env, s)
    ensures Evolves(s, s)
  {
  }

  lemma UnboundYet(env: Env, s: Sys, n: nat)
    requires Inv(env, s) && n >= s.next
    ensures n !in s.log.bindings
  {
  }

  // A row appeared or expired.
  lemma RowsKeep(env: Env, s: Sys, t: Sys)
    requires Inv(env, s) && t.devices == s.devices && t.procs == s.procs && t.log == s.log && s.next <= t.next
    requires forall n :: n in t.pairs ==> (n in s.pairs && t.pairs[n] == s.pairs[n]) || (n == s.next < t.next && t.pairs[n].status == Pending
                                           && t.pairs[n].attempts == 0 && t.pairs[n].code != "")
    ensures Inv(env, t) && Evolves(s, t)
  {
    forall n | n in t.pairs
      ensures PairOk(t, n)
    {
      if n == s.next {
        UnboundYet(env, s, n);
      } else {
        assert PairOk(s, n);
      }
    }
    forall n | n in t.log.bindings
      ensures BindingOk(t, n)
    {
      assert BindingOk(s, n);
    }
    forall i | 0 <= i < |t.log.claims|
      ensures ClaimOk(env, t, t.log.claims[i])
    {
      var c := s.log.claims[i];
      assert ClaimOk(env, s, c);
      assert BindingOk(s, c.nonce);
    }
    forall q | q in t.procs
      ensures ProcOk(env, t, t.procs[q])
    {
      assert ProcOk(env, s, s.procs[q]);
    }
  }

  lemma StepKeeps(env: Env, s: Sys, a: Action)
    requires Inv(env, s)
    ensures Inv(env, Step(env, s, a)) && Evolves(s, Step(env, s, a))
  {
    hide Inv, Evolves, BindReadStep, BindAuthorizeStep, BindDeviceStep, BindFlipStep, CountMissStep, MissReadStep, MissFlipStep,
         ClaimReadStep, ClaimDeviceStep, ClaimFlipStep;
    if !a.Advance? { OutsideKeeps(env, s, a); }
    else if a.pid !in s.procs { Unchanged(env, s); }
    else if !a.ch.ok { AbandonKeeps(env, s, a.pid); }
    else {
      match s.procs[a.pid]
      case BindFlip(_, _, _, _) => BindFlipKeeps(env, s, a.pid);
      case CountMiss(_) => CountMissKeeps(env, s, a.pid);
      case MissFlip(_, _) => MissFlipKeeps(env, s, a.pid);
      case ClaimFlip(_, _, _, _, _) => ClaimFlipKeeps(env, s, a.pid);
      case ClaimRead(_, _) => ClaimReadKeeps(env, s, a.pid);
      case ClaimDevice(_, _, _) => ClaimDeviceKeeps(env, s, a.pid);
      case BindDevice(_, _, _) => FreshKeeps(env, s, a.pid, a.ch);
      case ClaimSession(_, _, _, _) => FreshKeeps(env, s, a.pid, a.ch);
      case _ => ReadKeeps(env, s, a.pid, a.ch);
    }
  }

  lemma {:induction false} Throughout(env: Env, actions: seq<Action>)
    ensures Inv(env, Run(env, INIT, actions))
  {
    hide Inv, Step;
    if actions == [] {
      InitOk(env);
    } else {
      Throughout(env, actions[..|actions| - 1]);
      StepKeeps(env, Run(env, INIT, actions[..|actions| - 1]), actions[|actions| - 1]);
    }
  }

  lemma InitOk(env: Env)
    ensures Inv(env, INIT)
  {
  }

  lemma {:induction false} RunSplits(env: Env, s: Sys, a: seq<Action>, b: seq<Action>)
    ensures Run(env, s, a + b) == Run(env, Run(env, s, a), b)
  {
    if b == [] {
      assert a + b == a;
    } else {
      RunSplits(env, s, a, b[..|b| - 1]);
      assert (a + b)[..|a + b| - 1] == a + b[..|b| - 1];
    }
  }

  lemma EvolvesTwice(env: Env, a: Sys, b: Sys, c: Sys)
    requires Inv(env, a) && Evolves(a, b) && Evolves(b, c)
    ensures Evolves(a, c)
  {
    forall n | n in c.pairs && n in a.pairs
      ensures PairStep(a.pairs[n], c.pairs[n])
    {
      assert PairOk(a, n);
      assert PairStep(a.pairs[n], b.pairs[n]) && PairStep(b.pairs[n], c.pairs[n]);
    }
  }

  lemma {:induction false} RunEvolves(env: Env, past: seq<Action>, future: seq<Action>)
    ensures Evolves(Run(env, INIT, past), Run(env, INIT, past + future))
  {
    hide Inv, Evolves, Step;
    Throughout(env, past);
    if future == [] {
      assert past + future == past;
      Unchanged(env, Run(env, INIT, past));
    } else {
      var fewer := future[..|future| - 1];
      RunEvolves(env, past, fewer);
      assert (past + future)[..|past + future| - 1] == past + fewer;
      Throughout(env, past + fewer);
      StepKeeps(env, Run(env, INIT, past + fewer), future[|future| - 1]);
      EvolvesTwice(env, Run(env, INIT, past), Run(env, INIT, past + fewer), Run(env, INIT, past + future));
    }
  }

  // ----- Main results -----

  // Whatever races, a pairing only goes pending, bound, claimed, or pending, failed; its
  // codes never change; and once bound, neither do its device and owner.
  lemma PairingsMoveForward(env: Env, past: seq<Action>, future: seq<Action>, n: nat)
    requires n in Run(env, INIT, past).pairs && n in Run(env, INIT, past + future).pairs
    ensures
      var a, b := Run(env, INIT, past).pairs[n], Run(env, INIT, past + future).pairs[n];
      && Rank(a.status) <= Rank(b.status)
      && (a.status == Claimed || a.status == Failed ==> b.status == a.status)
      && (a.status == Bound ==> b.status == Bound || b.status == Claimed)
      && b.code == a.code && b.challenge == a.challenge
      && (a.status == Bound || a.status == Claimed ==> b.device == a.device && b.user == a.user)
  {
    RunEvolves(env, past, future);
  }

  // At most one claim is handed out per pairing, and only after a confirmation with the
  // right user code, to whoever holds the verifier the device registered; what is handed
  // out is that confirmation's device, owned by the account that confirmed.
  lemma OneProvenClaimPerPairing(env: Env, actions: seq<Action>, i: nat)
    requires i < |Run(env, INIT, actions).log.claims|
    ensures
      var s := Run(env, INIT, actions);
      var c := s.log.claims[i];
      && (forall j :: 0 <= j < |s.log.claims| && j != i ==> s.log.claims[j].nonce != c.nonce)
      && c.nonce in s.log.bindings
      && var b := s.log.bindings[c.nonce];
         && CodeMatches(b.typed, b.code) && env.s256(c.verifier) == b.challenge
         && c.device == b.device && c.user == b.user
         && c.device in s.devices && s.devices[c.device].user == c.user
  {
    Throughout(env, actions);
    var s := Run(env, INIT, actions);
    var c := s.log.claims[i];
    assert ClaimOk(env, s, c);
    assert BindingOk(s, c.nonce);
  }
}
