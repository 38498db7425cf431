// One live turn per owner over any number of Echos, exactly: what matters for it is not
// whether the lock is held, but whether a Submit commits in time beside another live turn.
module AlexaOneLive {
  import opened Conversation
  import opened AlexaProtocol
  import opened AlexaSafety
  import opened AlexaTheorems
  import opened AlexaResults
  import opened AlexaLock
  import opened AlexaExclusion

  // A Submit is about to commit, while its own turn can still run and another turn is live.
  ghost predicate Crowds(env: Env, s: Sys, a: Action) {
    && a.Advance? && a.pid in s.procs && s.procs[a.pid].SubmitCommit? && Passes(env, s, s.procs[a.pid], a.ch)
    && s.procs[a.pid].now + WORKER_BUDGET > s.clock && exists y: Receipt :: Live(s.table, s.clock, y)
  }

  // The commit of process p adds a turn.
  ghost predicate Adds(env: Env, s: Sys, a: Action) {
    a.Advance? && a.pid in s.procs && s.procs[a.pid].SubmitCommit? && Passes(env, s, s.procs[a.pid], a.ch)
  }

  lemma SubmitAlone(env: Env, s: Sys, a: Action)
    requires NoticesFit(env) && Inv(s) && AllHeldOk(s) && Adds(env, s, a)
    ensures
      var p, t, t' := s.procs[a.pid], s.table, Step(env, s, a).table;
      var x := ReceiptOf(p.a);
      && x !in t.turns && (Live(t', s.clock, x) <==> p.now + WORKER_BUDGET > s.clock)
      && forall y :: y != x ==> (Live(t', s.clock, y) <==> Live(t, s.clock, y))
  {
    hide Inv, Step, SubmitTx, TxApply, TxMatches;
    var p, t, t' := s.procs[a.pid], s.table, Step(env, s, a).table;
    InvProcAt(s, a.pid);
    assert HeldOk(s.clock, p);
    PassedWrites(env, s, a.pid, p, a.ch);
    SubmitAddsTurn(t, p, Unix(p.now) + RECOVERY_WINDOW);
  }

  lemma OthersAddNone(env: Env, s: Sys, a: Action)
    requires NoticesFit(env) && Inv(s) && AllHeldOk(s) && !Adds(env, s, a)
    ensures Step(env, s, a).table.turns.Keys == s.table.turns.Keys
  {
    hide Inv, Step, SubmitTx, ResetTx, FinishTx, TxApply, TxMatches, FinishedTurn, PrevOk, MayFinish, SnapOk;
    if a.Advance? && a.pid in s.procs && Commits(s.procs[a.pid]) {
      var p := s.procs[a.pid];
      InvProcAt(s, a.pid);
      if p.SubmitCommit? || p.ResetCommit? || p.FinishCommit? {
        PassedWrites(env, s, a.pid, p, a.ch);
        if Passes(env, s, p, a.ch) && p.ResetCommit? { ResetGivesUp(s.table, p, s.nextSession); }
        if Passes(env, s, p, a.ch) && p.FinishCommit? {
          FinishDecides(env, s, p);
          FinishGivesUp(env, s.table, p, Window(s, a.ch));
        }
      } else {
        SmallCommitKeepsLock(env, s, a.pid, p, a.ch);
      }
    } else {
      ReadKeepsTable(env, s, a);
    }
  }

  // From any reachable state with at most one live turn, whoever holds the lock, a step
  // leaves at most one if and only if it is not a Submit that crowds another.
  lemma OneLiveStep(env: Env, s: Sys, a: Action)
    requires NoticesFit(env) && Inv(s) && AllHeldOk(s) && AtMostOneLive(s.table, s.clock)
    ensures AtMostOneLive(Step(env, s, a).table, Step(env, s, a).clock) <==> !Crowds(env, s, a)
  {
    hide Inv, Step, Passes, Evolves;
    var s' := Step(env, s, a);
    if Adds(env, s, a) {
      HeldAdvances(env, s, a.pid, s.procs[a.pid], a.ch);
      SubmitAlone(env, s, a);
    } else {
      OthersAddNone(env, s, a);
      StepKeeps(env, s, a);
      ClockGoesOn(env, s, a);
      forall y | Live(s'.table, s'.clock, y)
        ensures Live(s.table, s.clock, y)
      {
        LiveWasLive(s.table, s'.table, s'.clock, y);
      }
    }
  }

  lemma ClockGoesOn(env: Env, s: Sys, a: Action)
    requires AllHeldOk(s)
    ensures Step(env, s, a).clock >= s.clock
  {
    if a.Advance? && a.pid in s.procs { HeldAdvances(env, s, a.pid, s.procs[a.pid], a.ch); }
  }

  // ----- Over whole runs -----

  ghost predicate OneLiveAt(s: Sys) { AtMostOneLive(s.table, s.clock) }

  ghost predicate NoneCrowded(env: Env, actions: seq<Action>) {
    forall i :: 0 <= i < |actions| ==> !Crowds(env, Run(env, INIT, actions[..i]), actions[i])
  }

  lemma OneLiveAfter(env: Env, actions: seq<Action>, i: nat)
    requires NoticesFit(env) && i < |actions| && OneLiveAt(Run(env, INIT, actions[..i]))
    ensures OneLiveAt(Run(env, INIT, actions[..i + 1])) <==> !Crowds(env, Run(env, INIT, actions[..i]), actions[i])
  {
    hide Inv, AllHeldOk, Crowds, AtMostOneLive, Step;
    Reachable(env, actions[..i]);
    HeldThroughout(env, actions[..i]);
    assert actions[..i + 1][..i] == actions[..i];
    OneLiveStep(env, Run(env, INIT, actions[..i]), actions[i]);
  }

  lemma {:induction false} UncrowdedUpTo(env: Env, actions: seq<Action>, n: nat)
    requires NoticesFit(env) && n <= |actions| && NoneCrowded(env, actions)
    ensures OneLiveAt(Run(env, INIT, actions[..n]))
  {
    hide Crowds, Step;
    if n > 0 {
      UncrowdedUpTo(env, actions, n - 1);
      OneLiveAfter(env, actions, n - 1);
    }
  }

  // Over whole runs: there is at most one live turn at every moment if and only if no Submit
  // of the run committed in time while another turn was live.
  lemma OneLiveTurnExactly(env: Env, actions: seq<Action>)
    requires NoticesFit(env)
    ensures (forall n :: 0 <= n <= |actions| ==> OneLiveAt(Run(env, INIT, actions[..n]))) <==> NoneCrowded(env, actions)
  {
    hide Run, Crowds, OneLiveAt;
    if NoneCrowded(env, actions) {
      forall n | 0 <= n <= |actions|
        ensures OneLiveAt(Run(env, INIT, actions[..n]))
      {
        UncrowdedUpTo(env, actions, n);
      }
    } else {
      var i :| 0 <= i < |actions| && Crowds(env, Run(env, INIT, actions[..i]), actions[i]);
      if OneLiveAt(Run(env, INIT, actions[..i])) { OneLiveAfter(env, actions, i); }
    }
  }
}
