// A concrete run in which the LOCK version alone lets two Echos of one owner be live.
module AlexaRace {
  import opened Prelude
  import opened Store
  import opened Conversation
  import opened AlexaProtocol
  import opened AlexaSteps
  import opened AlexaResults
  import opened AlexaLock

  const KITCHEN := Ask(Identity("kitchen", "grant", "1"), "first", "morning", "plan my day")
  const AGAIN := Ask(Identity("kitchen", "grant", "1"), "second", "evening", "plan my evening")
  const BEDROOM := Ask(Identity("bedroom", "grant", "1"), "first", "morning", "read my mail")

  // Everything the process asks of the world succeeds.
  const GO := Choice(true, 0, 0, true, NO_RESULT, None, true)

  function Advances(pid: nat, n: nat): seq<Action> { seq(n, _ => Advance(pid, GO)) }

  // The kitchen asks and its worker dies; once the lock has expired the bedroom reads it;
  // the kitchen starts a new conversation, which deletes the lock and takes it afresh; the
  // bedroom's commit still matches version 1.
  const RACE: seq<Action> :=
    [Start(0, SubmitPrior(KITCHEN))] + Advances(0, 8) + [Tick(40000)]
    + [Start(1, SubmitPrior(BEDROOM))] + Advances(1, 7)
    + [Start(2, SubmitPrior(AGAIN))] + Advances(2, 10)
    + Advances(1, 1)

  function Go(env: Env, s: Sys, pid: nat, n: nat): Sys {
    if n == 0 then s else Step(env, Go(env, s, pid, n - 1), Advance(pid, GO))
  }

  lemma {:induction false} RunGoes(env: Env, s: Sys, pid: nat, n: nat)
    ensures Run(env, s, Advances(pid, n)) == Go(env, s, pid, n)
  {
    if n > 0 {
      RunGoes(env, s, pid, n - 1);
      assert Advances(pid, n)[..n - 1] == Advances(pid, n - 1);
    }
  }

  lemma StartGoes(env: Env, s: Sys, pid: nat, entry: Proc, n: nat)
    requires pid !in s.procs && Begins(entry)
    ensures Run(env, s, [Start(pid, entry)] + Advances(pid, n)) == Go(env, To(s, pid, entry), pid, n)
  {
    hide Go, Run;
    RunSplits(env, s, [Start(pid, entry)], Advances(pid, n));
    RunOne(env, s, Start(pid, entry));
    RunGoes(env, To(s, pid, entry), pid, n);
  }

  lemma RunOne(env: Env, s: Sys, a: Action)
    ensures Run(env, s, [a]) == Step(env, s, a)
  {
    assert Run(env, s, [a][..0]) == s;
  }

  // ----- An Echo's first request, up to its commit -----

  function FirstRow(s: Sys, a: Ask): Row<Session> {
    Row(1, Unix(s.clock) + RECOVERY_WINDOW, BlankSession(a.id, a.ask, s.clock).(id := s.nextSession))
  }

  function Opened(s: Sys, pid: nat, a: Ask): Sys {
    var d := a.id.device;
    s.(table := s.table.(sessions := s.table.sessions[d := FirstRow(s, a)]),
       nextSession := s.nextSession + 1, log := ResetLog(s.log, d, s.nextSession),
       procs := s.procs[pid := SubmitCommit(a, 0, FirstRow(s, a), Get(s.table.lock, TheLock), s.clock, None)])
  }

  function AtReset(s: Sys, pid: nat, a: Ask): Sys {
    To(s, pid, ResetCommit(a.id, None, BlankSession(a.id, a.ask, s.clock), Unix(s.clock) + RECOVERY_WINDOW, Some((a, 0)), None, None))
  }

  function AfterReset(s: Sys, pid: nat, a: Ask): Sys {
    Opened(s, pid, a).(procs := s.procs[pid := SubmitSession(a, 0, true)])
  }

  lemma FirstStarts(env: Env, s: Sys, pid: nat, a: Ask)
    requires pid in s.procs && s.procs[pid] == SubmitPrior(a)
    requires a.id.device !in s.table.sessions && ReceiptOf(a) !in s.table.turns
    ensures Go(env, s, pid, 2) == To(s, pid, ResetSession(a.id, a.ask, true, Some((a, 0))))
  {
    hide TxApply, TxMatches, StepReset, StepSpeech, StepExecute, StepFinish, SubmitCommitStep;
    assert Go(env, s, pid, 1) == To(s, pid, SubmitSession(a, 0, false));
  }

  lemma FirstReset(env: Env, s: Sys, pid: nat, a: Ask)
    requires pid in s.procs && s.procs[pid] == SubmitPrior(a)
    requires a.id.device !in s.table.sessions && ReceiptOf(a) !in s.table.turns
    ensures Go(env, s, pid, 4) == AfterReset(s, pid, a)
  {
    hide TxApply, TxMatches, StepSubmit, StepSpeech, StepExecute, StepFinish, ResetCommitStep, ResumeCommitStep;
    FirstStarts(env, s, pid, a);
    assert Go(env, s, pid, 3) == AtReset(s, pid, a);
    CommitGoes(env, s, pid, 3);
    FirstResetCommits(s, AtReset(s, pid, a), pid, a);
  }

  lemma FirstResetCommits(s: Sys, s3: Sys, pid: nat, a: Ask)
    requires s3 == AtReset(s, pid, a) && a.id.device !in s.table.sessions
    ensures ResetCommitStep(s3, pid, s3.procs[pid], GO) == AfterReset(s, pid, a)
  {
    var tx := ResetTx(s3.procs[pid], s.nextSession);
    ApplyPut(s.table.sessions, a.id.device, tx.sessions[a.id.device]);
    ApplyNone(s.table.turns);
    ApplyNone(s.table.lock);
  }

  lemma FirstRequest(env: Env, s: Sys, pid: nat, a: Ask)
    requires pid in s.procs && s.procs[pid] == SubmitSession(a, 0, true)
    requires a.id.device in s.table.sessions
    requires var v := s.table.sessions[a.id.device].data; v.replies == [] && v.lastTurn.None?
    requires TheLock in s.table.lock ==> s.table.lock[TheLock].expires <= Unix(s.clock)
    ensures Go(env, s, pid, 3)
            == To(s, pid, SubmitCommit(a, 0, s.table.sessions[a.id.device], Get(s.table.lock, TheLock), s.clock, None))
  {
    hide TxApply, TxMatches, StepReset, StepSpeech, StepExecute, StepFinish, SubmitCommitStep;
    var row := s.table.sessions[a.id.device];
    assert Go(env, s, pid, 1) == To(s, pid, SubmitLock(a, 0, row));
    assert Go(env, s, pid, 2) == To(s, pid, SubmitNow(a, 0, row, Get(s.table.lock, TheLock)));
  }

  lemma {:induction false} GoFurther(env: Env, s: Sys, pid: nat, m: nat, n: nat)
    ensures Go(env, s, pid, m + n) == Go(env, Go(env, s, pid, m), pid, n)
  {
    if n > 0 { GoFurther(env, s, pid, m, n - 1); }
  }

  lemma Opens(env: Env, s: Sys, pid: nat, a: Ask)
    requires pid in s.procs && s.procs[pid] == SubmitPrior(a)
    requires a.id.device !in s.table.sessions && ReceiptOf(a) !in s.table.turns
    requires TheLock in s.table.lock ==> s.table.lock[TheLock].expires <= Unix(s.clock)
    ensures Go(env, s, pid, 7) == Opened(s, pid, a)
  {
    hide Go;
    FirstReset(env, s, pid, a);
    GoFurther(env, s, pid, 4, 3);
    FirstRequest(env, AfterReset(s, pid, a), pid, a);
  }

  // ----- The commit of a request -----

  function Taken(s: Sys, pid: nat, p: Proc): Sys
    requires p.SubmitCommit?
  {
    var x := ReceiptOf(p.a);
    var expires := Unix(p.now) + RECOVERY_WINDOW;
    s.(table := Table(s.table.sessions[p.a.id.device := Row(p.row.version + 1, expires, SubmittedSession(p.row.data, x))],
                      s.table.turns[x := Row(1, expires, SubmittedTurn(p.a, p.settings, p.row.data.id, p.now))],
                      map[TheLock := Row(if p.held.Some? then p.held.value.version + 1 else 1, Unix(p.now + LOCK_BUDGET), x)]),
       log := SubmitLog(s.log, p), procs := s.procs[pid := SubmitPublish(x)])
  }

  lemma Takes(s: Sys, pid: nat, p: Proc)
    requires pid in s.procs && s.procs[pid] == p && p.SubmitCommit? && p.prev.None?
    requires Get(s.table.sessions, p.a.id.device) == Some(p.row) && ReceiptOf(p.a) !in s.table.turns
    requires if p.held.None? then TheLock !in s.table.lock
             else TheLock in s.table.lock && s.table.lock[TheLock].version == p.held.value.version
    ensures SubmitCommitStep(s, pid, p, GO) == Taken(s, pid, p)
  {
    hide ReceiptOf, Unix, Apply, Matches, SubmittedSession, SubmittedTurn, SubmitLog;
    var tx, x := SubmitTx(p, Unix(p.now) + RECOVERY_WINDOW), ReceiptOf(p.a);
    var turn := Changed(None, SubmittedTurn(p.a, p.settings, p.row.data.id, p.now), Unix(p.now) + RECOVERY_WINDOW);
    assert tx.turns == map[x := turn];
    Puts1(s.table.sessions, p.a.id.device, tx.sessions[p.a.id.device]);
    Puts1(s.table.turns, x, turn);
    Puts1(s.table.lock, TheLock, tx.lock[TheLock]);
    LockAlone(s.table.lock, tx.lock[TheLock].after.value);
  }

  lemma Puts1<K, V>(rows: map<K, Row<V>>, k: K, c: Change<V>)
    requires c.after.Some? && Holds(Get(rows, k), c)
    ensures Matches(rows, map[k := c]) && Apply(rows, map[k := c]) == rows[k := c.after.value]
  {
    ApplyPut(rows, k, c);
  }

  lemma LockAlone(rows: map<LockKey, Row<Receipt>>, row: Row<Receipt>)
    ensures rows[TheLock := row] == map[TheLock := row]
  {
    forall k | k in rows ensures k == TheLock {}
  }

  // ----- A new conversation on an Echo whose last turn is undecided and holds the lock -----

  function Renewed(s: Sys, pid: nat, a: Ask, x: Receipt): Sys
    requires a.id.device in s.table.sessions && x in s.table.turns
  {
    var d, row, turn := a.id.device, s.table.sessions[a.id.device], s.table.turns[x];
    s.(table := Table(s.table.sessions[d := FirstRow(s, a).(version := row.version + 1)],
                      s.table.turns[x := Row(turn.version + 1, turn.expires, CancelledTurn(turn.data))], map[]),
       nextSession := s.nextSession + 1, log := ResetLog(s.log, d, s.nextSession),
       procs := s.procs[pid := SubmitSession(a, 0, true)])
  }

  function AtRenewal(s: Sys, pid: nat, a: Ask, x: Receipt): Sys {
    To(s, pid, ResetCommit(a.id, Get(s.table.sessions, a.id.device), BlankSession(a.id, a.ask, s.clock),
                           Unix(s.clock) + RECOVERY_WINDOW, Some((a, 0)), Get(s.table.turns, x), Get(s.table.lock, TheLock)))
  }

  ghost predicate HoldsLock(s: Sys, d: string, x: Receipt) {
    && d in s.table.sessions && s.table.sessions[d].data.lastTurn == Some(x)
    && x in s.table.turns && s.table.turns[x].data.id == x && Active(s.table.turns[x].data.state)
    && TheLock in s.table.lock && s.table.lock[TheLock].data == x
  }

  lemma RenewalStarts(env: Env, s: Sys, pid: nat, a: Ask)
    requires pid in s.procs && s.procs[pid] == SubmitPrior(a) && ReceiptOf(a) !in s.table.turns
    requires a.id.device in s.table.sessions && s.table.sessions[a.id.device].data.ask != a.ask
    ensures Go(env, s, pid, 2) == To(s, pid, ResetSession(a.id, a.ask, true, Some((a, 0))))
  {
    hide TxApply, TxMatches, StepReset, StepSpeech, StepExecute, StepFinish, SubmitCommitStep;
    assert Go(env, s, pid, 1) == To(s, pid, SubmitSession(a, 0, false));
  }

  lemma RenewalReads(env: Env, s: Sys, pid: nat, a: Ask, x: Receipt)
    requires pid in s.procs && s.procs[pid] == SubmitPrior(a) && ReceiptOf(a) !in s.table.turns
    requires HoldsLock(s, a.id.device, x) && s.table.sessions[a.id.device].data.ask != a.ask
    ensures Go(env, s, pid, 5) == AtRenewal(s, pid, a, x)
  {
    hide TxApply, TxMatches, StepSubmit, StepSpeech, StepExecute, StepFinish, ResetCommitStep, ResumeCommitStep;
    var row, blank, expires := s.table.sessions[a.id.device], BlankSession(a.id, a.ask, s.clock), Unix(s.clock) + RECOVERY_WINDOW;
    RenewalStarts(env, s, pid, a);
    assert Go(env, s, pid, 3) == To(s, pid, ResetTurn(a.id, row, blank, expires, Some((a, 0))));
    assert Go(env, s, pid, 4) == To(s, pid, ResetLock(a.id, row, blank, expires, Some((a, 0)), Get(s.table.turns, x)));
  }

  lemma RenewalCommits(s: Sys, t: Sys, pid: nat, a: Ask, x: Receipt)
    requires HoldsLock(s, a.id.device, x) && t == AtRenewal(s, pid, a, x)
    ensures ResetCommitStep(t, pid, t.procs[pid], GO) == Renewed(s, pid, a, x)
  {
    hide Apply, Matches, BlankSession, ResetLog, CancelledTurn;
    var tx := ResetTx(t.procs[pid], s.nextSession);
    Puts1(s.table.sessions, a.id.device, tx.sessions[a.id.device]);
    Puts1(s.table.turns, x, tx.turns[x]);
    DropsTheLock(s.table.lock, tx.lock);
  }

  lemma DropsTheLock(rows: map<LockKey, Row<Receipt>>, tx: map<LockKey, Change<Receipt>>)
    requires TheLock in rows && tx == map[TheLock := Change(Some(rows[TheLock]), None)]
    ensures Matches(rows, tx) && Apply(rows, tx) == map[]
  {
    forall k | k in Apply(rows, tx) ensures k == TheLock {}
  }

  lemma Renews(env: Env, s: Sys, pid: nat, a: Ask, x: Receipt)
    requires pid in s.procs && s.procs[pid] == SubmitPrior(a) && ReceiptOf(a) !in s.table.turns
    requires HoldsLock(s, a.id.device, x) && s.table.sessions[a.id.device].data.ask != a.ask
    ensures
      var r := Renewed(s, pid, a, x);
      Go(env, s, pid, 9) == To(r, pid, SubmitCommit(a, 0, r.table.sessions[a.id.device], None, s.clock, None))
  {
    hide Go;
    RenewalReads(env, s, pid, a, x);
    CommitGoes(env, s, pid, 5);
    RenewalCommits(s, AtRenewal(s, pid, a, x), pid, a, x);
    GoFurther(env, s, pid, 6, 3);
    FirstRequest(env, Renewed(s, pid, a, x), pid, a);
  }

  lemma CommitGoes(env: Env, s: Sys, pid: nat, n: nat)
    requires pid in Go(env, s, pid, n).procs
    ensures
      var t := Go(env, s, pid, n);
      && (t.procs[pid].ResetCommit? ==> Go(env, s, pid, n + 1) == ResetCommitStep(t, pid, t.procs[pid], GO))
      && (t.procs[pid].SubmitCommit? ==> Go(env, s, pid, n + 1) == SubmitCommitStep(t, pid, t.procs[pid], GO))
  {
  }

  // ----- The run -----

  function KitchenAsked(): Sys {
    var ready := Opened(To(INIT, 0, SubmitPrior(KITCHEN)), 0, KITCHEN);
    Taken(ready, 0, SubmitCommit(KITCHEN, 0, FirstRow(INIT, KITCHEN), None, 0, None))
  }

  function LockExpired(): Sys { KitchenAsked().(clock := 40000) }

  function BedroomReady(): Sys { Opened(To(LockExpired(), 1, SubmitPrior(BEDROOM)), 1, BEDROOM) }

  function KitchenAgain(): Sys { To(BedroomReady(), 2, SubmitPrior(AGAIN)) }

  lemma KitchenAsks(env: Env)
    ensures Run(env, INIT, [Start(0, SubmitPrior(KITCHEN))] + Advances(0, 8)) == KitchenAsked()
  {
    hide Go, Opened, Taken, Run, Step, SubmitCommitStep;
    var s := To(INIT, 0, SubmitPrior(KITCHEN));
    StartGoes(env, INIT, 0, SubmitPrior(KITCHEN), 8);
    Opens(env, s, 0, KITCHEN);
    OpenedAt(s, 0, KITCHEN);
    CommitGoes(env, s, 0, 7);
    Takes(Opened(s, 0, KITCHEN), 0, Opened(s, 0, KITCHEN).procs[0]);
  }

  lemma OpenedAt(s: Sys, pid: nat, a: Ask)
    ensures
      var o := Opened(s, pid, a);
      && pid in o.procs && o.procs[pid] == SubmitCommit(a, 0, FirstRow(s, a), Get(s.table.lock, TheLock), s.clock, None)
      && Get(o.table.sessions, a.id.device) == Some(FirstRow(s, a)) && o.table.turns == s.table.turns && o.table.lock == s.table.lock
      && o.clock == s.clock && o.procs == s.procs[pid := o.procs[pid]]
      && (forall d :: d in s.table.sessions && d != a.id.device ==> d in o.table.sessions && o.table.sessions[d] == s.table.sessions[d])
  {
  }

  // The kitchen's turn, its lock and its session after its first request.
  lemma KitchenFacts()
    ensures
      var s, x := KitchenAsked(), ReceiptOf(KITCHEN);
      && HoldsLock(s, "kitchen", x) && s.table.sessions["kitchen"].data.ask == "morning"
      && s.table.lock == map[TheLock := Row(1, 35, x)] && s.table.turns.Keys == {x}
      && s.table.sessions.Keys == {"kitchen"} && 1 !in s.procs && 2 !in s.procs
  {
  }

  lemma BedroomAsks(env: Env)
    ensures Run(env, LockExpired(), [Start(1, SubmitPrior(BEDROOM))] + Advances(1, 7)) == BedroomReady()
  {
    hide Go, Opened, Taken, KitchenAsked, Run, Step;
    KitchenFacts();
    var s := LockExpired();
    StartGoes(env, s, 1, SubmitPrior(BEDROOM), 7);
    Opens(env, To(s, 1, SubmitPrior(BEDROOM)), 1, BEDROOM);
  }

  // The bedroom is about to commit over the expired lock, version 1.
  lemma BedroomFacts()
    ensures
      var s, x := BedroomReady(), ReceiptOf(KITCHEN);
      && s.clock == 40000 && HoldsLock(s, "kitchen", x) && s.table.sessions["kitchen"].data.ask == "morning"
      && s.table.turns.Keys == {x} && 1 in s.procs && 2 !in s.procs && "bedroom" in s.table.sessions
      && s.procs[1] == SubmitCommit(BEDROOM, 0, s.table.sessions["bedroom"], Some(Row(1, 35, x)), 40000, None)
  {
    hide Opened, KitchenAsked;
    KitchenFacts();
    OpenedAt(To(LockExpired(), 1, SubmitPrior(BEDROOM)), 1, BEDROOM);
  }

  function KitchenCommit(): Proc
    requires HoldsLock(KitchenAgain(), "kitchen", ReceiptOf(KITCHEN))
  {
    SubmitCommit(AGAIN, 0, RenewedKitchen().table.sessions["kitchen"], None, 40000, None)
  }

  function RenewedKitchen(): Sys
    requires HoldsLock(KitchenAgain(), "kitchen", ReceiptOf(KITCHEN))
  {
    Renewed(KitchenAgain(), 2, AGAIN, ReceiptOf(KITCHEN))
  }

  lemma KitchenAsksAgain(env: Env)
    requires HoldsLock(KitchenAgain(), "kitchen", ReceiptOf(KITCHEN))
    ensures Run(env, BedroomReady(), [Start(2, SubmitPrior(AGAIN))] + Advances(2, 10))
            == Taken(To(RenewedKitchen(), 2, KitchenCommit()), 2, KitchenCommit())
  {
    hide Go, Renewed, Taken, BedroomReady, Step, Run, SubmitCommitStep;
    var s, a, x := BedroomReady(), Start(2, SubmitPrior(AGAIN)), ReceiptOf(KITCHEN);
    BedroomFacts();
    StartsAgain(env);
    RunGoes(env, KitchenAgain(), 2, 10);
    Renews(env, KitchenAgain(), 2, AGAIN, x);
    RenewedAt(KitchenAgain(), 2, AGAIN, x);
    CommitGoes(env, KitchenAgain(), 2, 9);
    Takes(To(RenewedKitchen(), 2, KitchenCommit()), 2, KitchenCommit());
  }

  lemma StartsAgain(env: Env)
    requires 2 !in BedroomReady().procs
    ensures Run(env, BedroomReady(), [Start(2, SubmitPrior(AGAIN))] + Advances(2, 10)) == Run(env, KitchenAgain(), Advances(2, 10))
  {
    hide BedroomReady, Run;
    RunSplits(env, BedroomReady(), [Start(2, SubmitPrior(AGAIN))], Advances(2, 10));
    RunOne(env, BedroomReady(), Start(2, SubmitPrior(AGAIN)));
  }

  // After the kitchen's second request the lock is a new row with an old version.
  lemma KitchenRetakes(env: Env)
    ensures
      var s, r := BedroomReady(), Run(env, BedroomReady(), [Start(2, SubmitPrior(AGAIN))] + Advances(2, 10));
      && r.clock == 40000 && 1 in r.procs && r.procs[1] == s.procs[1]
      && Get(r.table.sessions, "bedroom") == Get(s.table.sessions, "bedroom")
      && r.table.lock == map[TheLock := Row(1, 75, ReceiptOf(AGAIN))] && ReceiptOf(BEDROOM) !in r.table.turns
      && ReceiptOf(AGAIN) in r.table.turns && r.table.turns[ReceiptOf(AGAIN)].data == SubmittedTurn(AGAIN, 0, 2, 40000)
  {
    hide Go, Renewed, Taken, BedroomReady, Step, Run;
    BedroomFacts();
    KitchenAsksAgain(env);
    RenewedAt(KitchenAgain(), 2, AGAIN, ReceiptOf(KITCHEN));
    TakenAt(To(RenewedKitchen(), 2, KitchenCommit()), 2, KitchenCommit());
    SessionIds();
  }

  lemma SessionIds()
    ensures BedroomReady().nextSession == 2
  {
  }

  lemma RenewedAt(s: Sys, pid: nat, a: Ask, x: Receipt)
    requires HoldsLock(s, a.id.device, x)
    ensures
      var r, d := Renewed(s, pid, a, x), a.id.device;
      && r.table.lock == map[] && r.table.turns.Keys == s.table.turns.Keys && r.clock == s.clock
      && d in r.table.sessions && r.table.sessions[d].data.id == s.nextSession && r.procs.Keys == s.procs.Keys + {pid}
      && (forall q :: q in s.procs && q != pid ==> r.procs[q] == s.procs[q])
      && (forall e :: e != d ==> Get(r.table.sessions, e) == Get(s.table.sessions, e))
  {
  }

  lemma TakenAt(s: Sys, pid: nat, p: Proc)
    requires p.SubmitCommit?
    ensures
      var t, x := Taken(s, pid, p), ReceiptOf(p.a);
      && x in t.table.turns && t.table.turns[x].data == SubmittedTurn(p.a, p.settings, p.row.data.id, p.now)
      && t.table.turns.Keys == s.table.turns.Keys + {x} && t.clock == s.clock
      && (forall y :: y in s.table.turns && y != x ==> t.table.turns[y] == s.table.turns[y])
      && t.table.lock == map[TheLock := Row(if p.held.Some? then p.held.value.version + 1 else 1, Unix(p.now + LOCK_BUDGET), x)]
      && (forall q :: q in s.procs && q != pid ==> q in t.procs && t.procs[q] == s.procs[q])
      && (forall e :: e != p.a.id.device ==> Get(t.table.sessions, e) == Get(s.table.sessions, e))
  {
  }

  // Mutual exclusion over several Echos is false of the protocol as it stands: this run
  // of thirty actions ends with two live turns of one owner.
  lemma TwoEchosBothLive(env: Env)
    ensures
      var s := Run(env, INIT, RACE);
      && Live(s.table, s.clock, ReceiptOf(BEDROOM)) && Live(s.table, s.clock, ReceiptOf(AGAIN))
      && !AtMostOneLive(s.table, s.clock)
  {
    hide BedroomReady, Taken, Run, Step;
    var third := [Start(2, SubmitPrior(AGAIN))] + Advances(2, 10);
    RaceParts(env);
    BedroomFacts();
    KitchenRetakes(env);
    var r := Run(env, BedroomReady(), third);
    RunLast(env, r);
    Takes(r, 1, r.procs[1]);
    TakenAt(r, 1, r.procs[1]);
  }

  lemma RunLast(env: Env, r: Sys)
    requires 1 in r.procs && r.procs[1].SubmitCommit?
    ensures Run(env, r, Advances(1, 1)) == SubmitCommitStep(r, 1, r.procs[1], GO)
  {
    RunGoes(env, r, 1, 1);
    CommitGoes(env, r, 1, 0);
  }

  lemma RaceParts(env: Env)
    ensures
      Run(env, INIT, RACE)
      == Run(env, Run(env, BedroomReady(), [Start(2, SubmitPrior(AGAIN))] + Advances(2, 10)), Advances(1, 1))
  {
    hide BedroomReady, Run;
    var first := [Start(0, SubmitPrior(KITCHEN))] + Advances(0, 8);
    var second := [Start(1, SubmitPrior(BEDROOM))] + Advances(1, 7);
    var third := [Start(2, SubmitPrior(AGAIN))] + Advances(2, 10);
    assert RACE == first + [Tick(40000)] + second + third + Advances(1, 1);
    RunSplits(env, INIT, first + [Tick(40000)] + second + third, Advances(1, 1));
    RunSplits(env, INIT, first + [Tick(40000)] + second, third);
    RunSplits(env, INIT, first + [Tick(40000)], second);
    RunSplits(env, INIT, first, [Tick(40000)]);
    KitchenAsks(env);
    RunOne(env, KitchenAsked(), Tick(40000));
    BedroomAsks(env);
  }
}
