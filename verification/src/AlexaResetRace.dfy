// A second concrete run with two live turns of one owner: here no Submit overwrites a live
// turn's lock; a delayed Reset deletes it, by a version that has come round again.
module AlexaResetRace {
  import opened Prelude
  import opened Store
  import opened Conversation
  import opened AlexaProtocol
  import opened AlexaResults
  import opened AlexaLock
  import opened AlexaRace

  const MAIL := Ask(Identity("bedroom", "grant", "1"), "second", "evening", "read my news")

  const KITCHEN_WAITS: seq<Action> :=
    [Start(0, SubmitPrior(KITCHEN))] + Advances(0, 8) + [Tick(40000)] + [Start(1, SubmitPrior(AGAIN))] + Advances(1, 5)

  const BEDROOM_ASKS: seq<Action> :=
    ([Start(2, SubmitPrior(BEDROOM))] + Advances(2, 8)) + ([Start(3, SubmitPrior(MAIL))] + Advances(3, 10))

  // The kitchen's turn expires; its new conversation reads session, turn and lock (version
  // 1) and is delayed before its Reset commits. The bedroom takes the lock over, starts a
  // new conversation, which deletes the lock, and takes it afresh: version 1 again. The
  // kitchen's Reset then deletes that lock, and its Submit finds none.
  const RESET_RACE: seq<Action> := KITCHEN_WAITS + BEDROOM_ASKS + Advances(1, 5)

  // ----- Requests, by what they leave -----

  ghost predicate Elsewhere(s: Sys, r: Sys, pid: nat, d: string) {
    && r.clock == s.clock
    && (forall q :: q != pid ==> Get(r.procs, q) == Get(s.procs, q))
    && (forall e :: e != d ==> Get(r.table.sessions, e) == Get(s.table.sessions, e))
  }

  ghost predicate Asked(s: Sys, r: Sys, a: Ask, version: int) {
    && ReceiptOf(a) in r.table.turns && r.table.turns[ReceiptOf(a)].data.state == Pending
    && r.table.turns[ReceiptOf(a)].data.id == ReceiptOf(a) && r.table.turns[ReceiptOf(a)].data.deadline == s.clock + WORKER_BUDGET
    && a.id.device in r.table.sessions && r.table.sessions[a.id.device].data.lastTurn == Some(ReceiptOf(a))
    && r.table.sessions[a.id.device].data.ask == a.ask
    && r.table.lock == map[TheLock := Row(version, Unix(s.clock + LOCK_BUDGET), ReceiptOf(a))]
  }

  function LockVersion(t: Table): int { if TheLock in t.lock then t.lock[TheLock].version else 0 }

  lemma FirstTaken(t: Sys, pid: nat, a: Ask)
    requires pid in t.procs && a.id.device !in t.table.sessions && ReceiptOf(a) !in t.table.turns
    requires TheLock in t.table.lock ==> t.table.lock[TheLock].expires <= Unix(t.clock)
    ensures
      var r := Taken(Opened(t, pid, a), pid, Opened(t, pid, a).procs[pid]);
      && Elsewhere(t, r, pid, a.id.device) && Asked(t, r, a, LockVersion(t.table) + 1)
      && (forall y :: y in t.table.turns ==> y in r.table.turns && r.table.turns[y] == t.table.turns[y])
      && r.table.turns.Keys == t.table.turns.Keys + {ReceiptOf(a)}
  {
    hide Opened, FirstRow, Taken;
    var o := Opened(t, pid, a);
    OpenedAt(t, pid, a);
    TakenAt(o, pid, o.procs[pid]);
    TakenProcs(o, pid, o.procs[pid]);
    FirstSession(t, pid, a);
    OpenedElsewhere(t, pid, a);
  }

  lemma AskedFrom(s: Sys, t: Sys, r: Sys, a: Ask)
    requires t.clock == s.clock && Asked(t, r, a, LockVersion(s.table) + 1)
    ensures Asked(s, r, a, LockVersion(s.table) + 1)
  {
  }

  lemma FirstAsk(env: Env, s: Sys, pid: nat, a: Ask)
    requires pid !in s.procs && a.id.device !in s.table.sessions && ReceiptOf(a) !in s.table.turns
    requires a.text != "" && a.request != "" && a.ask != ""
    requires TheLock in s.table.lock ==> s.table.lock[TheLock].expires <= Unix(s.clock)
    ensures
      var r := Run(env, s, [Start(pid, SubmitPrior(a))] + Advances(pid, 8));
      && Elsewhere(s, r, pid, a.id.device) && Asked(s, r, a, LockVersion(s.table) + 1)
      && (forall y :: y in s.table.turns ==> y in r.table.turns && r.table.turns[y] == s.table.turns[y])
      && r.table.turns.Keys == s.table.turns.Keys + {ReceiptOf(a)}
  {
    hide Go, Opened, Run, Step, SubmitCommitStep, FirstRow, Taken, Asked, SubmittedTurn, BlankSession;
    var t := To(s, pid, SubmitPrior(a));
    StartGoes(env, s, pid, SubmitPrior(a), 8);
    Opens(env, t, pid, a);
    var o := Opened(t, pid, a);
    OpenedAt(t, pid, a);
    CommitGoes(env, t, pid, 7);
    Takes(o, pid, o.procs[pid]);
    FirstTaken(t, pid, a);
    AskedFrom(s, t, Taken(o, pid, o.procs[pid]), a);
  }

  lemma TakenProcs(s: Sys, pid: nat, p: Proc)
    requires p.SubmitCommit?
    ensures Taken(s, pid, p).procs == s.procs[pid := SubmitPublish(ReceiptOf(p.a))]
  {
  }

  lemma FirstSession(t: Sys, pid: nat, a: Ask)
    ensures
      var o := Opened(t, pid, a);
      var r := Taken(o, pid, o.procs[pid]);
      && a.id.device in r.table.sessions && r.table.sessions[a.id.device].data.lastTurn == Some(ReceiptOf(a))
      && r.table.sessions[a.id.device].data.ask == a.ask
  {
  }

  lemma OpenedElsewhere(t: Sys, pid: nat, a: Ask)
    ensures forall e :: e != a.id.device ==> Get(Opened(t, pid, a).table.sessions, e) == Get(t.table.sessions, e)
  {
  }

  lemma StillHolds(s: Sys, pid: nat, a: Ask, x: Receipt)
    requires HoldsLock(s, a.id.device, x)
    ensures HoldsLock(To(s, pid, SubmitPrior(a)), a.id.device, x) && a.id.device in s.table.sessions && x in s.table.turns
  {
  }

  // What r shows of u it shows of s, which differs from u in Echo a's session and turn x only.
  lemma AskedOver(s: Sys, u: Sys, r: Sys, pid: nat, a: Ask, x: Receipt)
    requires Elsewhere(s, u, pid, a.id.device) && Elsewhere(u, r, pid, a.id.device) && Asked(u, r, a, 1)
    requires u.table.turns.Keys == s.table.turns.Keys && r.table.turns.Keys == u.table.turns.Keys + {ReceiptOf(a)}
    requires forall y :: y in s.table.turns && y != x ==> y in u.table.turns && u.table.turns[y] == s.table.turns[y]
    requires forall y :: y in u.table.turns ==> y in r.table.turns && r.table.turns[y] == u.table.turns[y]
    ensures Elsewhere(s, r, pid, a.id.device) && Asked(s, r, a, 1)
    ensures forall y :: y in s.table.turns && y != x ==> y in r.table.turns && r.table.turns[y] == s.table.turns[y]
    ensures r.table.turns.Keys == s.table.turns.Keys + {ReceiptOf(a)}
  {
  }

  lemma AskAnew(env: Env, s: Sys, pid: nat, a: Ask, x: Receipt)
    requires pid !in s.procs && HoldsLock(s, a.id.device, x) && s.table.sessions[a.id.device].data.ask != a.ask
    requires ReceiptOf(a) !in s.table.turns && a.text != "" && a.request != "" && a.ask != ""
    ensures
      var r := Run(env, s, [Start(pid, SubmitPrior(a))] + Advances(pid, 10));
      && Elsewhere(s, r, pid, a.id.device) && Asked(s, r, a, 1)
      && (forall y :: y in s.table.turns && y != x ==> y in r.table.turns && r.table.turns[y] == s.table.turns[y])
      && r.table.turns.Keys == s.table.turns.Keys + {ReceiptOf(a)}
  {
    hide Go, Renewed, Run, Step, SubmitCommitStep, Taken, SubmittedTurn, ReceiptOf, AtRenewal, BlankSession, Asked, HoldsLock;
    var t := To(s, pid, SubmitPrior(a));
    StartGoes(env, s, pid, SubmitPrior(a), 10);
    StillHolds(s, pid, a, x);
    Renews(env, t, pid, a, x);
    RenewedAt(t, pid, a, x);
    RenewedSession(t, pid, a, x);
    CommitGoes(env, t, pid, 9);
    var u := To(Renewed(t, pid, a, x), pid, SubmitCommit(a, 0, Renewed(t, pid, a, x).table.sessions[a.id.device], None, s.clock, None));
    AsksFreely(u, pid, a);
    AskedOver(s, u, SubmitCommitStep(u, pid, u.procs[pid], GO), pid, a, x);
  }

  lemma RenewedSession(s: Sys, pid: nat, a: Ask, x: Receipt)
    requires HoldsLock(s, a.id.device, x)
    ensures
      var r := Renewed(s, pid, a, x);
      && a.id.device in r.table.sessions && r.table.sessions[a.id.device].data.ask == a.ask
      && (forall y :: y in s.table.turns && y != x ==> y in r.table.turns && r.table.turns[y] == s.table.turns[y])
  {
  }

  // The commit of a request that read no lock and finds none.
  lemma AsksFreely(s: Sys, pid: nat, a: Ask)
    requires a.id.device in s.table.sessions && s.table.sessions[a.id.device].data.ask == a.ask
    requires pid in s.procs && s.procs[pid] == SubmitCommit(a, 0, s.table.sessions[a.id.device], None, s.clock, None)
    requires ReceiptOf(a) !in s.table.turns && TheLock !in s.table.lock
    ensures
      var r := SubmitCommitStep(s, pid, s.procs[pid], GO);
      && Elsewhere(s, r, pid, a.id.device) && Asked(s, r, a, 1)
      && (forall y :: y in s.table.turns ==> y in r.table.turns && r.table.turns[y] == s.table.turns[y])
      && r.table.turns.Keys == s.table.turns.Keys + {ReceiptOf(a)}
  {
    hide SubmitCommitStep, SubmitLog;
    Takes(s, pid, s.procs[pid]);
    TakenAt(s, pid, s.procs[pid]);
  }

  // ----- A Reset that commits late -----

  // Process pid is about to reset a's Echo; everything it read still stands, except that
  // the lock may be another row of the same version.
  ghost predicate ResetDue(s: Sys, pid: nat, a: Ask, x: Receipt) {
    && pid in s.procs && s.procs[pid].ResetCommit?
    && var p := s.procs[pid];
       && p.id == a.id && p.next == Some((a, 0)) && p.blank.ask == a.ask && p.blank.replies == [] && p.blank.lastTurn.None?
       && p.old_.Some? && Get(s.table.sessions, a.id.device) == p.old_
       && p.active.Some? && p.active.value.data.id == x && Get(s.table.turns, x) == p.active
       && p.held.Some? && TheLock in s.table.lock && s.table.lock[TheLock].version == p.held.value.version
  }

  lemma LateReset(env: Env, s: Sys, pid: nat, a: Ask, x: Receipt)
    requires ResetDue(s, pid, a, x)
    ensures
      var r := Go(env, s, pid, 1);
      && Elsewhere(s, r, pid, a.id.device) && r.table.lock == map[]
      && pid in r.procs && r.procs[pid] == SubmitSession(a, 0, true)
      && a.id.device in r.table.sessions
      && (var v := r.table.sessions[a.id.device].data; v.ask == a.ask && v.replies == [] && v.lastTurn.None?)
      && (forall y :: y in s.table.turns && y != x ==> y in r.table.turns && r.table.turns[y] == s.table.turns[y])
      && r.table.turns.Keys == s.table.turns.Keys
      && Passes(env, s, s.procs[pid], GO)
  {
    hide Apply, Matches, ResetLog, CancelledTurn, StepSubmit, StepSpeech, StepExecute, StepFinish;
    var p := s.procs[pid];
    var tx := ResetTx(p, s.nextSession);
    CommitGoes(env, s, pid, 0);
    Puts1(s.table.sessions, a.id.device, tx.sessions[a.id.device]);
    Puts1(s.table.turns, x, tx.turns[x]);
    DropsByVersion(s.table.lock, tx.lock, p.held.value);
  }

  lemma DropsByVersion(rows: map<LockKey, Row<Receipt>>, tx: map<LockKey, Change<Receipt>>, held: Row<Receipt>)
    requires TheLock in rows && rows[TheLock].version == held.version && tx == map[TheLock := Change(Some(held), None)]
    ensures Matches(rows, tx) && Apply(rows, tx) == map[]
  {
    forall k | k in Apply(rows, tx) ensures k == TheLock {}
  }

  // After its Reset, the request takes the lock that is no longer there.
  lemma ResetThenAsks(env: Env, s: Sys, pid: nat, a: Ask, x: Receipt)
    requires ResetDue(s, pid, a, x) && ReceiptOf(a) !in s.table.turns
    ensures
      var r := Go(env, s, pid, 5);
      && r.clock == s.clock && Asked(s, r, a, 1)
      && (forall y :: y in s.table.turns && y != x ==> y in r.table.turns && r.table.turns[y] == s.table.turns[y])
  {
    hide Go, Step, SubmitCommitStep, ResetDue, Passes;
    LateReset(env, s, pid, a, x);
    var t := Go(env, s, pid, 1);
    FirstRequest(env, t, pid, a);
    GoFurther(env, s, pid, 1, 3);
    CommitGoes(env, s, pid, 4);
    AsksFreely(Go(env, s, pid, 4), pid, a);
  }

  // ----- The run -----

  lemma KitchenIsDelayed(env: Env)
    ensures
      var s := Run(env, INIT, KITCHEN_WAITS);
      && s.clock == 40000 && ResetDue(s, 1, AGAIN, ReceiptOf(KITCHEN)) && s.table.turns.Keys == {ReceiptOf(KITCHEN)}
      && s.table.lock == map[TheLock := Row(1, 35, ReceiptOf(KITCHEN))] && s.procs[1].held == Some(Row(1, 35, ReceiptOf(KITCHEN)))
      && s.table.sessions.Keys == {"kitchen"} && 2 !in s.procs && 3 !in s.procs
  {
    hide Go, KitchenAsked, Run, Step, FirstRow;
    var first, third := [Start(0, SubmitPrior(KITCHEN))] + Advances(0, 8), [Start(1, SubmitPrior(AGAIN))] + Advances(1, 5);
    assert KITCHEN_WAITS == first + [Tick(40000)] + third;
    RunSplits(env, INIT, first + [Tick(40000)], third);
    RunSplits(env, INIT, first, [Tick(40000)]);
    KitchenAsks(env);
    RunOne(env, KitchenAsked(), Tick(40000));
    Ticks(env, KitchenAsked());
    KitchenFacts();
    OnlyKitchen();
    var s := LockExpired();
    StartGoes(env, s, 1, SubmitPrior(AGAIN), 5);
    RenewalReads(env, To(s, 1, SubmitPrior(AGAIN)), 1, AGAIN, ReceiptOf(KITCHEN));
  }

  lemma Ticks(env: Env, s: Sys)
    ensures Step(env, s, Tick(40000)) == s.(clock := s.clock + 40000)
  {
  }

  lemma OnlyKitchen()
    ensures KitchenAsked().clock == 0 && 3 !in KitchenAsked().procs
  {
  }

  lemma BedroomRetakes(env: Env, s: Sys)
    requires s.clock == 40000 && ResetDue(s, 1, AGAIN, ReceiptOf(KITCHEN)) && s.table.turns.Keys == {ReceiptOf(KITCHEN)}
    requires s.table.lock == map[TheLock := Row(1, 35, ReceiptOf(KITCHEN))] && s.procs[1].held == Some(Row(1, 35, ReceiptOf(KITCHEN)))
    requires s.table.sessions.Keys == {"kitchen"} && 2 !in s.procs && 3 !in s.procs
    ensures
      var r := Run(env, s, BEDROOM_ASKS);
      && r.clock == 40000 && ResetDue(r, 1, AGAIN, ReceiptOf(KITCHEN)) && ReceiptOf(AGAIN) !in r.table.turns
      && Asked(s, r, MAIL, 1)
  {
    hide Run, Step;
    var first, second := [Start(2, SubmitPrior(BEDROOM))] + Advances(2, 8), [Start(3, SubmitPrior(MAIL))] + Advances(3, 10);
    RunSplits(env, s, first, second);
    FirstAsk(env, s, 2, BEDROOM);
    var t := Run(env, s, first);
    assert Get(t.procs, 3) == Get(s.procs, 3);
    AskAnew(env, t, 3, MAIL, ReceiptOf(BEDROOM));
    var r := Run(env, t, second);
    assert Get(r.procs, 1) == Get(t.procs, 1) == Get(s.procs, 1);
    assert Get(r.table.sessions, "kitchen") == Get(t.table.sessions, "kitchen") == Get(s.table.sessions, "kitchen");
  }

  // A Reset deletes the lock of the bedroom's live turn, and this run of forty-one actions
  // ends with two live turns of one owner.
  lemma ResetRobsALiveTurn(env: Env)
    ensures
      var i := |KITCHEN_WAITS + BEDROOM_ASKS|;
      var s := Run(env, INIT, KITCHEN_WAITS + BEDROOM_ASKS);
      && RESET_RACE[..i] == KITCHEN_WAITS + BEDROOM_ASKS && RESET_RACE[i] == Advance(1, GO)
      && 1 in s.procs && s.procs[1].ResetCommit? && Robs(env, s, RESET_RACE[i])
    ensures
      var s := Run(env, INIT, RESET_RACE);
      && Live(s.table, s.clock, ReceiptOf(MAIL)) && Live(s.table, s.clock, ReceiptOf(AGAIN))
      && !AtMostOneLive(s.table, s.clock)
  {
    hide Go, Run, Step, Passes, ResetDue;
    KitchenIsDelayed(env);
    var s := Run(env, INIT, KITCHEN_WAITS);
    BedroomRetakes(env, s);
    var r := Run(env, s, BEDROOM_ASKS);
    RunSplits(env, INIT, KITCHEN_WAITS, BEDROOM_ASKS);
    RunSplits(env, INIT, KITCHEN_WAITS + BEDROOM_ASKS, Advances(1, 5));
    RunGoes(env, r, 1, 5);
    LateReset(env, r, 1, AGAIN, ReceiptOf(KITCHEN));
    DueIsReset(r);
    ResetThenAsks(env, r, 1, AGAIN, ReceiptOf(KITCHEN));
    assert RESET_RACE[..|KITCHEN_WAITS + BEDROOM_ASKS|] == KITCHEN_WAITS + BEDROOM_ASKS;
    assert RESET_RACE[|KITCHEN_WAITS + BEDROOM_ASKS|] == Advances(1, 5)[0];
  }

  lemma DueIsReset(s: Sys)
    requires ResetDue(s, 1, AGAIN, ReceiptOf(KITCHEN))
    ensures 1 in s.procs && s.procs[1].ResetCommit? && WritesLock(s.procs[1]) && DecidedBy(s.procs[1]) == Some(ReceiptOf(KITCHEN))
  {
  }
}
