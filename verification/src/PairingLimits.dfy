// Five wrong user codes: exactly when they invalidate a pairing. The count and the
// invalidation are two writes, and a confirmation may be under way between any two steps.
module PairingLimits {
  import opened Prelude
  import opened Pairing
  import opened PairingSafety

  // ----- What became of each wrong entry -----

  // Process pid counted entry m and is on its way to act on it.
  ghost predicate OnItsWay(s: Sys, pid: nat, m: Miss) {
    pid in s.procs && (s.procs[pid] == MissRead(m.nonce, m.count) || s.procs[pid] == MissFlip(m.nonce, m.count))
  }

  // Each entry counted while the row stands has a fate, and no other has.
  ghost predicate CountsOk(s: Sys) {
    && (forall m :: m in s.log.fates ==> m.nonce < s.next)
    && (forall m: Miss :: m.nonce in s.pairs ==> (m in s.log.fates <==> 1 <= m.count <= s.pairs[m.nonce].attempts))
    && (forall n :: n in s.pairs ==> n < s.next)
  }

  ghost predicate FatesOk(s: Sys) {
    && (forall m :: m in s.log.fates && s.log.fates[m].UnderWay? ==> OnItsWay(s, s.log.fates[m].pid, m))
    && (forall pid, m: Miss :: OnItsWay(s, pid, m) ==> m in s.log.fates && s.log.fates[m] == UnderWay(pid))
    && (forall m :: m in s.log.fates && s.log.fates[m] == Excused ==> m.count < MAX_ATTEMPTS)
    && (forall pid :: pid in s.procs && s.procs[pid].MissFlip? && s.procs[pid].nonce in s.pairs ==>
          s.pairs[s.procs[pid].nonce].attempts >= MAX_ATTEMPTS)
  }

  ghost predicate SomeActed(s: Sys, n: nat) { exists m :: m in s.log.fates && m.nonce == n && s.log.fates[m] == Acted }

  // A row is failed by a process that acted, never sooner than the fifth entry; an open row has seen none act.
  ghost predicate RowsOk(s: Sys) {
    forall n :: n in s.pairs ==>
      && (s.pairs[n].status == Failed ==> SomeActed(s, n) && s.pairs[n].attempts >= MAX_ATTEMPTS)
      && (s.pairs[n].status == Pending ==> !SomeActed(s, n))
  }

  ghost predicate Limits(s: Sys) { CountsOk(s) && FatesOk(s) && RowsOk(s) }

  ghost predicate CountsNothing(s: Sys, pid: nat) { pid in s.procs ==> !s.procs[pid].MissRead? && !s.procs[pid].MissFlip? }

  // A row of s as it may be left by a step that acts on no wrong entry.
  ghost predicate SameCount(a: Pair, b: Pair) {
    b.attempts == a.attempts && (b.status == a.status || (a.status != Failed && b.status != Failed && b.status != Pending))
  }

  // At most process pid moved, and it neither was nor is one that counted a wrong entry.
  ghost predicate Aside(s: Sys, t: Sys, pid: nat) {
    && t.log.fates == s.log.fates && s.next <= t.next
    && (forall n :: n in t.pairs && n in s.pairs ==> SameCount(s.pairs[n], t.pairs[n]))
    && (forall n :: n in t.pairs && n !in s.pairs ==> s.next <= n < t.next && t.pairs[n].attempts == 0 && t.pairs[n].status == Pending)
    && (forall q :: q != pid ==> Get(t.procs, q) == Get(s.procs, q))
    && (Get(t.procs, pid) == Get(s.procs, pid) || (CountsNothing(s, pid) && CountsNothing(t, pid)))
  }

  lemma AsideKeeps(s: Sys, t: Sys, pid: nat)
    requires Limits(s) && Aside(s, t, pid)
    ensures Limits(t)
  {
    AsideFates(s, t, pid);
    forall n | n in t.pairs
      ensures (n in s.pairs && SameCount(s.pairs[n], t.pairs[n])) || (t.pairs[n].status == Pending && t.pairs[n].attempts == 0)
      ensures SomeActed(t, n) <==> SomeActed(s, n)
      ensures n !in s.pairs ==> !SomeActed(s, n)
    {
    }
    AsideCounts(s, t, pid);
  }

  lemma AsideWay(s: Sys, t: Sys, pid: nat, q: nat, m: Miss)
    requires Aside(s, t, pid)
    ensures OnItsWay(t, q, m) <==> OnItsWay(s, q, m)
  {
    assert Get(t.procs, q) == Get(s.procs, q) || q == pid;
  }

  // A process about to act still finds five entries.
  lemma AsideFlips(s: Sys, t: Sys, pid: nat, q: nat)
    requires CountsOk(s) && FatesOk(s) && Aside(s, t, pid) && q in t.procs && t.procs[q].MissFlip? && t.procs[q].nonce in t.pairs
    ensures t.pairs[t.procs[q].nonce].attempts >= MAX_ATTEMPTS
  {
    assert Get(t.procs, q) == Get(s.procs, q) || q == pid;
    assert OnItsWay(s, q, Miss(t.procs[q].nonce, t.procs[q].count));
  }

  lemma SameFates(s: Sys, t: Sys, pid: nat)
    requires Aside(s, t, pid)
    ensures t.log.fates == s.log.fates
  {
  }

  lemma AsideFates(s: Sys, t: Sys, pid: nat)
    requires CountsOk(s) && FatesOk(s) && Aside(s, t, pid)
    ensures FatesOk(t)
  {
    hide Aside;
    forall q, m: Miss
      ensures OnItsWay(t, q, m) <==> OnItsWay(s, q, m)
    {
      AsideWay(s, t, pid, q, m);
    }
    SameFates(s, t, pid);
    forall q | q in t.procs && t.procs[q].MissFlip? && t.procs[q].nonce in t.pairs
      ensures t.pairs[t.procs[q].nonce].attempts >= MAX_ATTEMPTS
    {
      AsideFlips(s, t, pid, q);
    }
  }

  lemma AsideCounts(s: Sys, t: Sys, pid: nat)
    requires CountsOk(s) && Aside(s, t, pid)
    ensures CountsOk(t)
  {
    forall m: Miss | m.nonce in t.pairs
      ensures m in t.log.fates <==> 1 <= m.count <= t.pairs[m.nonce].attempts
    {
      if m.nonce in s.pairs { assert SameCount(s.pairs[m.nonce], t.pairs[m.nonce]); }
    }
  }

  // Process pid, which counted m, met its fate: it is elsewhere, or ended.
  lemma FateKeeps(s: Sys, pid: nat, m: Miss, fate: Fate)
    requires Limits(s) && OnItsWay(s, pid, m) && (fate == Ended || (fate == Excused && m.count < MAX_ATTEMPTS))
    ensures Limits(Stop(s, pid).(log := Meets(s.log, m, fate)))
  {
    var t := Stop(s, pid).(log := Meets(s.log, m, fate));
    assert forall q, x :: OnItsWay(t, q, x) <==> OnItsWay(s, q, x) && q != pid;
    forall n | n in t.pairs
      ensures SomeActed(t, n) <==> SomeActed(s, n)
    {
      if SomeActed(s, n) {
        var x :| x in s.log.fates && x.nonce == n && s.log.fates[x] == Acted;
        assert x in t.log.fates && t.log.fates[x] == Acted;
      }
    }
  }

  lemma AbandonLimits(s: Sys, pid: nat)
    requires Limits(s) && pid in s.procs
    ensures Limits(Abandon(s, pid))
  {
    var p := s.procs[pid];
    if p.MissRead? || p.MissFlip? {
      assert OnItsWay(s, pid, Miss(p.nonce, p.count));
      FateKeeps(s, pid, Miss(p.nonce, p.count), Ended);
    } else {
      AsideKeeps(s, Abandon(s, pid), pid);
    }
  }

  lemma CountCounts(s: Sys, pid: nat, n: nat)
    requires CountsOk(s) && InState(s, n, Pending)
    ensures CountsOk(CountMissStep(s, pid, n)) && Miss(n, s.pairs[n].attempts + 1) !in s.log.fates
  {
  }

  lemma CountActs(s: Sys, pid: nat, n: nat)
    requires CountsOk(s) && InState(s, n, Pending)
    ensures
      var t := CountMissStep(s, pid, n);
      && (forall x :: x in s.log.fates && s.log.fates[x] == Acted ==> x in t.log.fates && t.log.fates[x] == Acted)
      && (forall x :: x in t.log.fates && t.log.fates[x] == Acted ==> x in s.log.fates && s.log.fates[x] == Acted)
  {
    CountCounts(s, pid, n);
  }

  lemma CountRows(s: Sys, pid: nat, n: nat)
    requires CountsOk(s) && RowsOk(s) && InState(s, n, Pending)
    ensures RowsOk(CountMissStep(s, pid, n))
  {
    hide CountsOk, SomeActed;
    CountActs(s, pid, n);
    ActedStays(s, CountMissStep(s, pid, n));
  }

  lemma GoneAside(s: Sys, pid: nat)
    requires CountsNothing(s, pid)
    ensures Aside(s, Stop(s, pid), pid)
  {
  }

  lemma CountLimits(s: Sys, pid: nat, n: nat)
    requires Limits(s) && pid in s.procs && s.procs[pid] == CountMiss(n)
    ensures Limits(CountMissStep(s, pid, n))
  {
    hide CountsOk, FatesOk, RowsOk, Aside;
    var t := CountMissStep(s, pid, n);
    if InState(s, n, Pending) {
      CountCounts(s, pid, n);
      CountFates(s, pid, n);
      CountRows(s, pid, n);
    } else {
      GoneAside(s, pid);
      AsideKeeps(s, t, pid);
    }
  }

  lemma CountFates(s: Sys, pid: nat, n: nat)
    requires FatesOk(s) && pid in s.procs && s.procs[pid] == CountMiss(n) && InState(s, n, Pending)
    requires Miss(n, s.pairs[n].attempts + 1) !in s.log.fates
    ensures FatesOk(CountMissStep(s, pid, n))
  {
    var t, k := CountMissStep(s, pid, n), Miss(n, s.pairs[n].attempts + 1);
    assert forall q, x: Miss :: OnItsWay(t, q, x) <==> if q == pid then x == k else OnItsWay(s, q, x);
  }

  // A fate that is not Acted, for an entry that had not acted, changes no row's verdict.
  lemma ActedStays(s: Sys, t: Sys)
    requires forall x :: x in s.log.fates && s.log.fates[x] == Acted ==> x in t.log.fates && t.log.fates[x] == Acted
    requires forall x :: x in t.log.fates && t.log.fates[x] == Acted ==> x in s.log.fates && s.log.fates[x] == Acted
    ensures forall n :: SomeActed(t, n) <==> SomeActed(s, n)
  {
    forall n
      ensures SomeActed(t, n) <==> SomeActed(s, n)
    {
      if SomeActed(s, n) {
        var x :| x in s.log.fates && x.nonce == n && s.log.fates[x] == Acted;
        assert x in t.log.fates && t.log.fates[x] == Acted;
      }
    }
  }

  lemma ReadLimits(s: Sys, pid: nat, n: nat, k: nat)
    requires Limits(s) && pid in s.procs && s.procs[pid] == MissRead(n, k)
    ensures Limits(MissReadStep(s, pid, n, k))
  {
    var t, m := MissReadStep(s, pid, n, k), Miss(n, k);
    assert OnItsWay(s, pid, m);
    if n !in s.pairs { FateKeeps(s, pid, m, Ended); }
    else if s.pairs[n].attempts < MAX_ATTEMPTS { FateKeeps(s, pid, m, Excused); }
    else {
      assert forall q, x :: OnItsWay(t, q, x) <==> OnItsWay(s, q, x);
      assert forall x :: SomeActed(t, x) <==> SomeActed(s, x);
    }
  }

  lemma FlipLimits(s: Sys, pid: nat, n: nat, k: nat)
    requires Limits(s) && pid in s.procs && s.procs[pid] == MissFlip(n, k)
    ensures Limits(MissFlipStep(s, pid, n, k))
  {
    var m := Miss(n, k);
    assert OnItsWay(s, pid, m);
    FlipFates(s, pid, n, k);
    FlipRows(s, pid, n, k);
  }

  lemma FlipFates(s: Sys, pid: nat, n: nat, k: nat)
    requires FatesOk(s) && pid in s.procs && s.procs[pid] == MissFlip(n, k)
    ensures FatesOk(MissFlipStep(s, pid, n, k))
  {
    var t := MissFlipStep(s, pid, n, k);
    assert OnItsWay(s, pid, Miss(n, k));
    assert forall q, x: Miss :: OnItsWay(t, q, x) <==> OnItsWay(s, q, x) && q != pid;
  }

  lemma FlipRows(s: Sys, pid: nat, n: nat, k: nat)
    requires RowsOk(s) && FatesOk(s) && pid in s.procs && s.procs[pid] == MissFlip(n, k)
    ensures RowsOk(MissFlipStep(s, pid, n, k))
  {
    var t, m := MissFlipStep(s, pid, n, k), Miss(n, k);
    forall x | x in t.pairs
      ensures SomeActed(t, x) <==> x == n || SomeActed(s, x)
    {
      if x == n { assert m in t.log.fates && t.log.fates[m] == Acted; }
      if SomeActed(s, x) {
        var y :| y in s.log.fates && y.nonce == x && s.log.fates[y] == Acted;
        assert y in t.log.fates && t.log.fates[y] == Acted;
      }
    }
  }

  lemma LimitsStep(env: Env, s: Sys, a: Action)
    requires Limits(s)
    ensures Limits(Step(env, s, a))
  {
    hide Limits, Abandon, CountMissStep, MissReadStep, MissFlipStep, BindReadStep, BindAuthorizeStep, BindDeviceStep, BindFlipStep,
         ClaimReadStep, ClaimDeviceStep, ClaimFlipStep;
    if a.Advance? && a.pid in s.procs && !a.ch.ok { AbandonLimits(s, a.pid); }
    else if a.Advance? && a.pid in s.procs {
      match s.procs[a.pid]
      case CountMiss(n) => CountLimits(s, a.pid, n);
      case MissRead(n, k) => ReadLimits(s, a.pid, n, k);
      case MissFlip(n, k) => FlipLimits(s, a.pid, n, k);
      case ClaimFlip(n, verifier, device, record, session) => ClaimLimits(env, s, a.pid, a.ch);
      case ClaimRead(_, _) => ClaimLimits(env, s, a.pid, a.ch);
      case ClaimDevice(_, _, _) => ClaimLimits(env, s, a.pid, a.ch);
      case ClaimSession(_, _, _, _) => ClaimLimits(env, s, a.pid, a.ch);
      case _ => BindLimits(env, s, a.pid, a.ch);
    } else if a.Crash? && a.pid in s.procs {
      AbandonLimits(s, a.pid);
    } else {
      OutsideLimits(env, s, a);
    }
  }

  lemma TryAside(s: Sys, pid: nat, p: Proc, ch: Choice)
    requires pid in s.procs && s.procs[pid] == p
    ensures p.BindRead? ==> Aside(s, BindReadStep(s, pid, p.nonce, p.typed), pid)
    ensures p.BindAuthorize? ==> Aside(s, BindAuthorizeStep(s, pid, p.nonce, p.typed, p.pair, ch), pid)
    ensures p.BindDevice? ==> Aside(s, BindDeviceStep(s, pid, p.nonce, p.typed, p.user), pid)
    ensures p.BindFlip? ==> Aside(s, BindFlipStep(s, pid, p.nonce, p.typed, p.user, p.device), pid)
  {
    hide CodeMatches;
  }

  lemma BindLimits(env: Env, s: Sys, pid: nat, ch: Choice)
    requires Limits(s) && pid in s.procs && ch.ok
    requires var p := s.procs[pid]; p.BindRead? || p.BindAuthorize? || p.BindDevice? || p.BindFlip?
    ensures Limits(Step(env, s, Advance(pid, ch)))
  {
    hide Limits, Aside, BindReadStep, BindAuthorizeStep, BindDeviceStep, BindFlipStep;
    TryAside(s, pid, s.procs[pid], ch);
    AsideKeeps(s, Step(env, s, Advance(pid, ch)), pid);
  }

  lemma ClaimAside(env: Env, s: Sys, pid: nat, p: Proc)
    requires pid in s.procs && s.procs[pid] == p
    ensures p.ClaimRead? ==> Aside(s, ClaimReadStep(env, s, pid, p.nonce, p.verifier), pid)
    ensures p.ClaimDevice? ==> Aside(s, ClaimDeviceStep(s, pid, p.nonce, p.verifier, p.pair), pid)
    ensures p.ClaimSession? ==>
              Aside(s, To(s, pid, ClaimFlip(p.nonce, p.verifier, p.device, p.record, s.next)).(next := s.next + 1), pid)
    ensures p.ClaimFlip? ==> Aside(s, ClaimFlipStep(s, pid, p.nonce, p.verifier, p.device, p.record, p.session), pid)
  {
  }

  lemma ClaimLimits(env: Env, s: Sys, pid: nat, ch: Choice)
    requires Limits(s) && pid in s.procs && ch.ok
    requires var p := s.procs[pid]; p.ClaimRead? || p.ClaimDevice? || p.ClaimSession? || p.ClaimFlip?
    ensures Limits(Step(env, s, Advance(pid, ch)))
  {
    hide Limits, Aside, ClaimReadStep, ClaimDeviceStep, ClaimFlipStep;
    ClaimAside(env, s, pid, s.procs[pid]);
    AsideKeeps(s, Step(env, s, Advance(pid, ch)), pid);
  }

  lemma OutsideLimits(env: Env, s: Sys, a: Action)
    requires Limits(s) && !(a.Advance? && a.pid in s.procs) && !(a.Crash? && a.pid in s.procs)
    ensures Limits(Step(env, s, a))
  {
    hide FatesOk, RowsOk;
    AsideKeeps(s, Step(env, s, a), if a.Start? then a.pid else 0);
  }

  lemma {:induction false} LimitsThroughout(env: Env, actions: seq<Action>)
    ensures Limits(Run(env, INIT, actions))
  {
    hide Limits, Step;
    if actions == [] {
      InitLimits();
    } else {
      LimitsThroughout(env, actions[..|actions| - 1]);
      LimitsStep(env, Run(env, INIT, actions[..|actions| - 1]), actions[|actions| - 1]);
    }
  }

  lemma InitLimits()
    ensures Limits(INIT)
  {
  }

  // ----- Main results -----

  // In every reachable state, exactly: a pairing is failed if and only if it was not bound
  // and some process that read five wrong entries ran to its end; it is bound or claimed if
  // and only if it was bound; and otherwise it is open. It never fails before the fifth entry.
  lemma VerdictOfAPairing(env: Env, actions: seq<Action>, n: nat)
    requires n in Run(env, INIT, actions).pairs
    ensures
      var s := Run(env, INIT, actions);
      var p := s.pairs[n];
      && (p.status == Failed <==> n !in s.log.bindings && SomeActed(s, n))
      && (p.status == Bound || p.status == Claimed <==> n in s.log.bindings)
      && (p.status == Pending <==> n !in s.log.bindings && !SomeActed(s, n))
      && (p.status == Failed ==> p.attempts >= MAX_ATTEMPTS)
  {
    hide Run, Step;
    Throughout(env, actions);
    LimitsThroughout(env, actions);
    assert PairOk(Run(env, INIT, actions), n);
  }

  // A wrong entry that was to be acted on: its process was not excused by reading fewer than five.
  ghost predicate ToAct(s: Sys, m: Miss) { m in s.log.fates && s.log.fates[m] != Excused }

  // Its process ended before it acted, or is still under way.
  ghost predicate NotActedYet(s: Sys, m: Miss) {
    m in s.log.fates && (s.log.fates[m] == Ended || (s.log.fates[m].UnderWay? && OnItsWay(s, s.log.fates[m].pid, m)))
  }

  // With five wrong entries counted, an unbound pairing is left open if and only if every
  // process that was to act ended before its flip or is still under way; the fifth and later
  // entries are always to be acted on.
  lemma GuessesAreLimited(env: Env, actions: seq<Action>, n: nat)
    requires n in Run(env, INIT, actions).pairs && Run(env, INIT, actions).pairs[n].attempts >= MAX_ATTEMPTS
    ensures
      var s := Run(env, INIT, actions);
      && (s.pairs[n].status == Pending
          <==> n !in s.log.bindings && forall m: Miss :: m.nonce == n && ToAct(s, m) ==> NotActedYet(s, m))
      && (forall k :: MAX_ATTEMPTS <= k <= s.pairs[n].attempts ==> ToAct(s, Miss(n, k)))
  {
    hide Run, Step;
    LimitsThroughout(env, actions);
    VerdictOfAPairing(env, actions, n);
    var s := Run(env, INIT, actions);
    forall m: Miss | m.nonce == n && ToAct(s, m)
      ensures NotActedYet(s, m) <==> s.log.fates[m] != Acted
    {
    }
  }

  // So once the fifth entry's own process is through, nothing else decides: the pairing is
  // invalid if and only if no confirmation bound it.
  lemma FifthEntryInvalidates(env: Env, actions: seq<Action>, n: nat)
    requires n in Run(env, INIT, actions).pairs && Run(env, INIT, actions).pairs[n].attempts >= MAX_ATTEMPTS
    requires !NotActedYet(Run(env, INIT, actions), Miss(n, MAX_ATTEMPTS))
    ensures var s := Run(env, INIT, actions); s.pairs[n].status == Failed <==> n !in s.log.bindings
  {
    hide Run, Step;
    LimitsThroughout(env, actions);
    VerdictOfAPairing(env, actions, n);
    GuessesAreLimited(env, actions, n);
    var s := Run(env, INIT, actions);
    var fifth := Miss(n, MAX_ATTEMPTS);
    assert ToAct(s, fifth);
    assert s.log.fates[fifth] == Acted;
  }

  // Action a, in state s, is the confirmation that binds the open pairing n.
  ghost predicate Binds(s: Sys, a: Action, n: nat) {
    && a.Advance? && a.ch.ok && a.pid in s.procs && s.procs[a.pid].BindFlip? && s.procs[a.pid].nonce == n
    && InState(s, n, Pending)
  }

  lemma OthersBindNothing(env: Env, s: Sys, a: Action)
    requires !(a.Advance? && a.ch.ok && a.pid in s.procs && s.procs[a.pid].BindFlip?)
    ensures Step(env, s, a).log.bindings == s.log.bindings
  {
    hide CodeMatches, BindFlipStep, BindReadStep, BindAuthorizeStep, BindDeviceStep, CountMissStep, MissReadStep, MissFlipStep,
         ClaimReadStep, ClaimDeviceStep, ClaimFlipStep;
    if a.Advance? && a.pid in s.procs { TriesBindNothing(s, a.pid, s.procs[a.pid], a.ch); ClaimsBindNothing(env, s, a.pid, s.procs[a.pid]); }
  }

  lemma TriesBindNothing(s: Sys, pid: nat, p: Proc, ch: Choice)
    ensures p.BindRead? ==> BindReadStep(s, pid, p.nonce, p.typed).log == s.log
    ensures p.BindAuthorize? ==> BindAuthorizeStep(s, pid, p.nonce, p.typed, p.pair, ch).log == s.log
    ensures p.BindDevice? ==> BindDeviceStep(s, pid, p.nonce, p.typed, p.user).log == s.log
    ensures p.CountMiss? ==> CountMissStep(s, pid, p.nonce).log.bindings == s.log.bindings
    ensures p.MissRead? ==> MissReadStep(s, pid, p.nonce, p.count).log.bindings == s.log.bindings
    ensures p.MissFlip? ==> MissFlipStep(s, pid, p.nonce, p.count).log.bindings == s.log.bindings
  {
    hide CodeMatches, InState;
  }

  lemma ClaimsBindNothing(env: Env, s: Sys, pid: nat, p: Proc)
    ensures p.ClaimRead? ==> ClaimReadStep(env, s, pid, p.nonce, p.verifier).log == s.log
    ensures p.ClaimDevice? ==> ClaimDeviceStep(s, pid, p.nonce, p.verifier, p.pair).log == s.log
    ensures p.ClaimFlip? ==> ClaimFlipStep(s, pid, p.nonce, p.verifier, p.device, p.record, p.session).log.bindings == s.log.bindings
  {
  }

  lemma NewBinding(env: Env, s: Sys, a: Action, n: nat)
    requires n !in s.log.bindings && n in Step(env, s, a).log.bindings
    ensures Binds(s, a, n)
  {
    hide BindReadStep, BindAuthorizeStep, BindDeviceStep, CountMissStep, MissReadStep, MissFlipStep, ClaimReadStep, ClaimDeviceStep,
         ClaimFlipStep;
    if !(a.Advance? && a.ch.ok && a.pid in s.procs && s.procs[a.pid].BindFlip?) { OthersBindNothing(env, s, a); }
  }

  lemma {:induction false} WhenBound(env: Env, actions: seq<Action>, n: nat) returns (i: nat)
    requires n in Run(env, INIT, actions).log.bindings
    ensures i < |actions| && Binds(Run(env, INIT, actions[..i]), actions[i], n)
  {
    hide Step;
    if actions == [] {
      assert false;
    } else {
      var before := actions[..|actions| - 1];
      if n in Run(env, INIT, before).log.bindings {
        i := WhenBound(env, before, n);
        assert before[..i] == actions[..i];
      } else {
        i := |actions| - 1;
        NewBinding(env, Run(env, INIT, before), actions[i], n);
      }
    }
  }

  // A bound pairing, whatever its count of wrong entries, was bound by a confirmation that
  // found it open, and at no moment of the run was it invalid.
  lemma BoundWasNeverInvalid(env: Env, actions: seq<Action>, n: nat) returns (i: nat)
    requires n in Run(env, INIT, actions).pairs
    requires var p := Run(env, INIT, actions).pairs[n]; p.status == Bound || p.status == Claimed
    ensures i < |actions| && Binds(Run(env, INIT, actions[..i]), actions[i], n)
    ensures forall m :: 0 <= m <= |actions| && n in Run(env, INIT, actions[..m]).pairs ==> Run(env, INIT, actions[..m]).pairs[n].status != Failed
  {
    hide Step, Run;
    VerdictOfAPairing(env, actions, n);
    i := WhenBound(env, actions, n);
    forall m | 0 <= m <= |actions| && n in Run(env, INIT, actions[..m]).pairs
      ensures Run(env, INIT, actions[..m]).pairs[n].status != Failed
    {
      assert actions[..m] + actions[m..] == actions;
      PairingsMoveForward(env, actions[..m], actions[m..], n);
    }
  }
}
