// What each operation does when nothing comes in between: an independent account of Submit,
// Reset, Resume, Speech, Execute and finish, from the table they find to the table they leave.
module AlexaUndisturbed {
  import opened Prelude
  import opened Store
  import opened Conversation
  import opened Trimming
  import opened AlexaProtocol
  import opened AlexaSafety
  import opened AlexaSteps
  import opened AlexaEndings
  import opened AlexaTheorems
  import opened AlexaLock
  import opened AlexaVerdicts
  import opened AlexaSpoken
  import opened AlexaContinues

  // Process pid takes n steps, the world answering ch each time.
  function Alone(env: Env, s: Sys, pid: nat, ch: Choice, n: nat): Sys
    decreases n
  {
    if n == 0 then s else Alone(env, Step(env, s, Advance(pid, ch)), pid, ch, n - 1)
  }

  lemma OneStep(env: Env, s: Sys, pid: nat, ch: Choice, n: nat)
    ensures Alone(env, s, pid, ch, n + 1) == Alone(env, Step(env, s, Advance(pid, ch)), pid, ch, n)
  {
  }

  lemma {:induction false} Further(env: Env, s: Sys, pid: nat, ch: Choice, m: nat, n: nat)
    ensures Alone(env, s, pid, ch, m + n) == Alone(env, Alone(env, s, pid, ch, m), pid, ch, n)
    decreases m
  {
    hide Step;
    if m > 0 { Further(env, Step(env, s, Advance(pid, ch)), pid, ch, m - 1, n); }
  }

  lemma TwoSteps(env: Env, s: Sys, pid: nat, ch: Choice)
    ensures Alone(env, s, pid, ch, 1) == Step(env, s, Advance(pid, ch))
    ensures Alone(env, s, pid, ch, 2) == Step(env, Step(env, s, Advance(pid, ch)), Advance(pid, ch))
  {
    hide Step;
    OneStep(env, s, pid, ch, 1);
    OneStep(env, s, pid, ch, 0);
    OneStep(env, Step(env, s, Advance(pid, ch)), pid, ch, 0);
    NoStep(env, Step(env, s, Advance(pid, ch)), pid, ch);
    NoStep(env, Step(env, Step(env, s, Advance(pid, ch)), Advance(pid, ch)), pid, ch);
  }

  lemma {:induction false} AloneKeepsInv(env: Env, s: Sys, pid: nat, ch: Choice, n: nat)
    requires NoticesFit(env) && Inv(s)
    ensures Inv(Alone(env, s, pid, ch, n))
    decreases n
  {
    hide Inv, Step;
    if n > 0 {
      StepKeeps(env, s, Advance(pid, ch));
      AloneKeepsInv(env, Step(env, s, Advance(pid, ch)), pid, ch, n - 1);
    }
  }

  lemma NoStep(env: Env, s: Sys, pid: nat, ch: Choice)
    ensures Alone(env, s, pid, ch, 0) == s
  {
  }

  // The step that each kind of read takes.
  lemma ReadSteps(env: Env, s: Sys, pid: nat, p: Proc, ch: Choice)
    requires pid in s.procs && p == s.procs[pid]
    ensures
      var s' := Step(env, s, Advance(pid, ch));
      && (p.SubmitPrior? ==> s' == SubmitPriorStep(s, pid, p, ch))
      && (p.SubmitSession? ==> s' == SubmitSessionStep(s, pid, p))
      && (p.SubmitLock? ==> s' == SubmitLockStep(s, pid, p))
      && (p.SubmitNow? ==> s' == SubmitNowStep(s, pid, p))
      && (p.SubmitPrevious? ==> s' == SubmitPreviousStep(s, pid, p))
      && (p.SubmitPublish? ==> s' == SubmitPublishStep(s, pid, p, ch))
      && (p.SubmitUnpublished? ==> s' == SubmitUnpublishedStep(s, pid, p))
  {
    hide SubmitPriorStep, SubmitSessionStep, SubmitLockStep, SubmitNowStep, SubmitPreviousStep, SubmitCommitStep, SubmitPublishStep,
         SubmitUnpublishedStep;
  }

  lemma OtherReadSteps(env: Env, s: Sys, pid: nat, p: Proc, ch: Choice)
    requires pid in s.procs && p == s.procs[pid]
    ensures
      var s' := Step(env, s, Advance(pid, ch));
      && (p.ResetSession? ==> s' == ResetSessionStep(s, pid, p))
      && (p.ResetTurn? ==> s' == ResetTurnStep(s, pid, p))
      && (p.ResetLock? ==> s' == ResetLockStep(s, pid, p))
      && (p.ResumeRead? ==> s' == ResumeReadStep(s, pid, p))
      && (p.SpeechRead? ==> s' == SpeechReadStep(s, pid, p))
      && (p.SpeechTurn? ==> s' == SpeechTurnStep(env, s, pid, p, ch))
      && (p.SpeechView? ==> s' == SpeechViewStep(env, s, pid, p))
      && (p.FinishRead? ==> s' == FinishReadStep(s, pid, p))
      && (p.FinishLock? ==> s' == FinishLockStep(s, pid, p))
  {
    hide ResetSessionStep, ResetTurnStep, ResetLockStep, ResetCommitStep, ResumeReadStep, ResumeCommitStep, SpeechReadStep, SpeechTurnStep,
         SpeechViewStep, SpeechRepeatStep, SpeechCommitStep, FinishReadStep, FinishLockStep, FinishCommitStep;
  }

  lemma ExecuteSteps(env: Env, s: Sys, pid: nat, p: Proc, ch: Choice)
    requires pid in s.procs && p == s.procs[pid]
    ensures
      var s' := Step(env, s, Advance(pid, ch));
      && (p.ExecRead? ==> s' == ExecReadStep(s, pid, p))
      && (p.ExecClaim? ==> s' == ExecClaimStep(s, pid, p, ch))
      && (p.CheckTurn? ==> s' == CheckTurnStep(s, pid, p, ch))
      && (p.CheckSession? ==> s' == CheckSessionStep(env, s, pid, p))
      && (p.ExecHistory? ==> s' == ExecHistoryStep(s, pid, p))
      && (p.ExecRun? ==> s' == ExecRunStep(s, pid, p, ch))
  {
    hide ExecReadStep, ExecClaimStep, CheckTurnStep, CheckSessionStep, ExecHistoryStep, ExecRunStep;
  }

  // One process moving on within its own steps.
  lemma ToTwice(s: Sys, pid: nat, p: Proc, q: Proc)
    ensures To(To(s, pid, p), pid, q) == To(s, pid, q)
  {
  }

  // A row that was read and is still there meets its condition.
  lemma StillMatches<K, V>(rows: map<K, Row<V>>, k: K, v: V, expires: int)
    ensures Matches(rows, map[k := Changed(Get(rows, k), v, expires)])
    ensures Apply(rows, map[k := Changed(Get(rows, k), v, expires)])
            == rows[k := Row(if k in rows then rows[k].version + 1 else 1, expires, v)]
  {
    ApplyPut(rows, k, Changed(Get(rows, k), v, expires));
  }

  lemma NoneMatches<K, V>(rows: map<K, Row<V>>)
    ensures Matches(rows, map[]) && Apply(rows, map[]) == rows
  {
  }

  lemma DropMatches(rows: map<LockKey, Row<Receipt>>)
    requires TheLock in rows
    ensures Matches(rows, map[TheLock := Change(Some(rows[TheLock]), None)])
    ensures Apply(rows, map[TheLock := Change(Some(rows[TheLock]), None)]) == map[]
  {
    forall k | k in Apply(rows, map[TheLock := Change(Some(rows[TheLock]), None)]) ensures k == TheLock {}
  }

  // ----- finish -----

  lemma FinishUndisturbed(env: Env, s: Sys, pid: nat, ch: Choice)
    requires NoticesFit(env) && Inv(s) && pid in s.procs && s.procs[pid].FinishRead? && ch.fence
    requires
      var mine := s.procs[pid].mine;
      var x, d := mine.data.id, mine.data.ident.device;
      && Get(s.table.turns, x) == Some(mine)
      && d in s.table.sessions && s.table.sessions[d].data.id == mine.data.sessionId && s.table.sessions[d].data.lastTurn == Some(x)
    ensures
      var x, d, e := s.procs[pid].mine.data.id, s.procs[pid].mine.data.ident.device, s.procs[pid].e;
      var t := Alone(env, s, pid, ch, 3);
      && pid !in t.procs
      && x in t.table.turns && EndsAs(env, s.table.sessions[d].data.replies, x, e, t.table.turns[x].data)
      && d in t.table.sessions && Finished(env, s.table.sessions[d].data, t.table.sessions[d].data, x, e)
      && t.table.lock == (if TheLock in s.table.lock && s.table.lock[TheLock].data == x then map[] else s.table.lock)
  {
    hide Inv, Step, EndsAs, Finished, Passes, Alone;
    var p, row := s.procs[pid], s.table.sessions[s.procs[pid].mine.data.ident.device];
    var held := if TheLock in s.table.lock && s.table.lock[TheLock].data == p.mine.data.id then Some(s.table.lock[TheLock]) else None;
    var q := FinishCommit(p.mine, p.e, p.attempt, row, held);
    FinishReads(env, s, pid, ch, row, held);
    FinishGoesThrough(env, To(s, pid, q), pid, q, ch);
    TwoSteps(env, s, pid, ch);
    Further(env, s, pid, ch, 2, 1);
    TwoSteps(env, To(s, pid, q), pid, ch);
    FinishWrites(env, To(s, pid, q), pid, q, ch);
  }

  lemma FinishReads(env: Env, s: Sys, pid: nat, ch: Choice, row: Row<Session>, held: Option<Row<Receipt>>)
    requires NoticesFit(env) && Inv(s) && pid in s.procs && s.procs[pid].FinishRead?
    requires
      var mine := s.procs[pid].mine;
      && Get(s.table.sessions, mine.data.ident.device) == Some(row)
      && row.data.id == mine.data.sessionId && row.data.lastTurn == Some(mine.data.id)
      && held == if TheLock in s.table.lock && s.table.lock[TheLock].data == mine.data.id then Some(s.table.lock[TheLock]) else None
    ensures
      var p := s.procs[pid];
      var q := FinishLock(p.mine, p.e, p.attempt, row);
      var r := FinishCommit(p.mine, p.e, p.attempt, row, held);
      && Step(env, s, Advance(pid, ch)) == To(s, pid, q) && Step(env, To(s, pid, q), Advance(pid, ch)) == To(s, pid, r)
      && Inv(To(s, pid, r))
  {
    hide Inv, Step;
    var p := s.procs[pid];
    var q := FinishLock(p.mine, p.e, p.attempt, row);
    OtherReadSteps(env, s, pid, p, ch);
    OtherReadSteps(env, To(s, pid, q), pid, q, ch);
    ToTwice(s, pid, q, FinishCommit(p.mine, p.e, p.attempt, row, held));
    StepKeeps(env, s, Advance(pid, ch));
    StepKeeps(env, To(s, pid, q), Advance(pid, ch));
  }

  lemma FinishMatches(env: Env, t: Table, p: Proc, expires: int)
    requires p.FinishCommit? && Get(t.turns, p.mine.data.id) == Some(p.mine) && Get(t.sessions, p.mine.data.ident.device) == Some(p.row)
    requires p.held == None || Get(t.lock, TheLock) == p.held
    ensures
      var tx := FinishTx(env, p, expires);
      TxMatches(t, tx) && TxApply(t, tx).lock == if p.held.None? then t.lock else map[]
  {
    hide Apply, Matches, FinishedSession, FinishedTurn;
    var d, x := p.mine.data.ident.device, p.mine.data.id;
    StillMatches(t.sessions, d, FinishedSession(env, p.row.data, x, p.e), expires);
    StillMatches(t.turns, x, FinishedTurn(env, p.mine.data, p.row.data, p.e), p.mine.expires);
    if p.held.Some? { DropMatches(t.lock); } else { NoneMatches(t.lock); }
  }

  lemma FinishGoesThrough(env: Env, s: Sys, pid: nat, p: Proc, ch: Choice)
    requires pid in s.procs && s.procs[pid] == p && p.FinishCommit? && ch.fence
    requires Get(s.table.turns, p.mine.data.id) == Some(p.mine) && Get(s.table.sessions, p.mine.data.ident.device) == Some(p.row)
    requires p.held == None || Get(s.table.lock, TheLock) == p.held
    ensures Passes(env, s, p, ch) && pid !in Step(env, s, Advance(pid, ch)).procs
    ensures Step(env, s, Advance(pid, ch)).table.lock == if p.held.None? then s.table.lock else map[]
  {
    hide Apply, Matches, FinishTx, Step;
    FinishMatches(env, s.table, p, Window(s, ch));
    CommitSteps(env, s, pid, p, ch);
  }

  // ----- Execute -----

  // What a model run that answered r, or failed with error, is worth.
  ghost predicate Worth(env: Env, r: RunResult, error: Option<Reason>, e: Ending) {
    && e.result == r
    && (error.Some? ==> e.status == Failed && e.reason == if Limit(error) then error.value else ExecutionFailed)
    && (error.None? && Usable(env, r) ==> e.status == Complete && e.reason == NoReason)
    && (error.None? && !Usable(env, r) ==> e.status == Failed && e.reason == ExecutionFailed)
  }

  // A turn whose worker may go ahead.
  ghost predicate Clear(s: Sys, x: Receipt, ch: Choice) {
    && x in s.table.turns && s.table.turns[x].expires > Unix(s.clock) && s.table.turns[x].data.deadline > s.clock
    && ch.authorized && ch.settings == s.table.turns[x].data.settings && ch.fence && !SessionDenied(s, s.table.turns[x].data)
  }

  lemma TurnsKnown(s: Sys, x: Receipt)
    requires Inv(s) && x in s.table.turns
    ensures s.table.turns[x].data.id == x && s.table.turns[x].data.ident.device == x.device
  {
    assert TurnOk(s.table, s.log, x);
  }

  function Claimed(s: Sys, pid: nat, x: Receipt): Sys
    requires x in s.table.turns
  {
    var row := s.table.turns[x];
    var mine := Row(row.version + 1, row.expires, row.data.(state := Running));
    To(s.(table := s.table.(turns := s.table.turns[x := mine]), log := s.log.(claimed := s.log.claimed[x := pid])), pid, CheckTurn(mine, None))
  }

  lemma ClaimGoesThrough(env: Env, s: Sys, pid: nat, ch: Choice, x: Receipt)
    requires x in s.table.turns && ch.fence
    ensures Step(env, To(s, pid, ExecClaim(x, s.table.turns[x])), Advance(pid, ch)) == Claimed(s, pid, x)
  {
    hide Step, Apply, Matches;
    var row := s.table.turns[x];
    var q := ExecClaim(x, row);
    ExecuteSteps(env, To(s, pid, q), pid, q, ch);
    StillMatches(s.table.turns, x, row.data.(state := Running), row.expires);
    NoneMatches(s.table.sessions);
    NoneMatches(s.table.lock);
  }

  lemma ClaimUndisturbed(env: Env, s: Sys, pid: nat, ch: Choice)
    requires NoticesFit(env) && Inv(s) && pid in s.procs && s.procs[pid].ExecRead? && Clear(s, s.procs[pid].x, ch)
    requires s.table.turns[s.procs[pid].x].data.state == Pending
    ensures
      var x := s.procs[pid].x;
      Alone(env, s, pid, ch, 2) == Claimed(s, pid, x) && Inv(Claimed(s, pid, x))
  {
    hide Inv, Step, Apply, Matches, Alone;
    var x := s.procs[pid].x;
    var row := s.table.turns[x];
    TurnsKnown(s, x);
    ExecuteSteps(env, s, pid, s.procs[pid], ch);
    ClaimGoesThrough(env, s, pid, ch, x);
    TwoSteps(env, s, pid, ch);
    AloneKeepsInv(env, s, pid, ch, 2);
  }

  // The worker that claimed turn mine passes its checks.
  lemma ChecksUndisturbed(env: Env, s: Sys, pid: nat, ch: Choice)
    requires pid in s.procs && s.procs[pid].CheckTurn? && ch.authorized && ch.settings == s.procs[pid].mine.data.settings
    requires
      var mine := s.procs[pid].mine;
      && mine.data.deadline > s.clock && Get(s.table.turns, mine.data.id) == Some(mine) && mine.data.state == Running
      && !SessionDenied(s, mine.data)
    ensures
      var p := s.procs[pid];
      var q := CheckSession(p.mine, p.done);
      && Step(env, s, Advance(pid, ch)) == To(s, pid, q)
      && (p.done.None? ==> Step(env, To(s, pid, q), Advance(pid, ch)) == To(s, pid, ExecHistory(p.mine)))
      && (p.done.Some? ==>
            exists e :: Worth(env, p.done.value, None, e) && Step(env, To(s, pid, q), Advance(pid, ch)) == To(s, pid, FinishRead(p.mine, e, 0)))
  {
    hide Step, Trim;
    var p := s.procs[pid];
    var q := CheckSession(p.mine, p.done);
    ExecuteSteps(env, s, pid, p, ch);
    ExecuteSteps(env, To(s, pid, q), pid, q, ch);
    if p.done.None? {
      ToTwice(s, pid, q, ExecHistory(p.mine));
    } else {
      var r := p.done.value;
      TrimmedIsBlankExactly(env.space, r.text);
      var e := if Trim(env.space, r.text) == "" || r.limited then Ending(r, Failed, ExecutionFailed) else Ending(r, Complete, NoReason);
      ToTwice(s, pid, q, FinishRead(p.mine, e, 0));
      assert Worth(env, r, None, e);
    }
  }

  // A worker at work on turn mine, which is still running.
  ghost predicate AtWork(s: Sys, pid: nat, mine: Row<Turn>, ch: Choice) {
    && pid in s.procs && Get(s.table.turns, mine.data.id) == Some(mine) && mine.data.state == Running
    && mine.data.deadline > s.clock && ch.authorized && ch.settings == mine.data.settings && ch.fence && !SessionDenied(s, mine.data)
  }

  // The worker that has claimed its turn checks, reads the history and invokes the model.
  lemma RunUndisturbed(env: Env, s: Sys, pid: nat, ch: Choice, mine: Row<Turn>)
    requires NoticesFit(env) && Inv(s) && AtWork(s, pid, mine, ch) && s.procs[pid] == CheckTurn(mine, None)
    ensures
      var context := Flatten(s.table.sessions[mine.data.ident.device].data.history);
      Alone(env, s, pid, ch, 4) == ExecRunStep(To(s, pid, ExecRun(mine, context)), pid, ExecRun(mine, context), ch)
  {
    hide Inv, Step, Flatten, ExecRunStep, Alone;
    var context := Flatten(s.table.sessions[mine.data.ident.device].data.history);
    var h, r := To(s, pid, ExecHistory(mine)), To(s, pid, ExecRun(mine, context));
    ChecksUndisturbed(env, s, pid, ch);
    TwoSteps(env, s, pid, ch);
    ExecuteSteps(env, h, pid, ExecHistory(mine), ch);
    ToTwice(s, pid, ExecHistory(mine), ExecRun(mine, context));
    ExecuteSteps(env, r, pid, ExecRun(mine, context), ch);
    TwoSteps(env, h, pid, ch);
    Further(env, s, pid, ch, 2, 2);
  }

  // What it then ends its turn with.
  lemma AnswerUndisturbed(env: Env, s: Sys, pid: nat, ch: Choice, mine: Row<Turn>, context: seq<Message>) returns (n: nat, e: Ending)
    requires NoticesFit(env) && AtWork(s, pid, mine, ch) && s.procs[pid] == ExecRun(mine, context)
    ensures Worth(env, NewMessages(ch.result, |context|), ch.runError, e)
    ensures
      var t := ExecRunStep(s, pid, s.procs[pid], ch);
      Alone(env, t, pid, ch, n) == To(t, pid, FinishRead(mine, e, 0))
  {
    hide Step, NewMessages, Usable, Alone, RunLog;
    var t, r := ExecRunStep(s, pid, s.procs[pid], ch), NewMessages(ch.result, |context|);
    if ch.runError.Some? {
      n, e := 0, Ending(r, Failed, if Limit(ch.runError) then ch.runError.value else ExecutionFailed);
      NoStep(env, t, pid, ch);
      assert t == To(t, pid, FinishRead(mine, e, 0));
    } else {
      ChecksUndisturbed(env, t, pid, ch);
      n := 2;
      e :| Worth(env, r, None, e)
           && Step(env, To(t, pid, CheckSession(mine, Some(r))), Advance(pid, ch)) == To(t, pid, FinishRead(mine, e, 0));
      TwoSteps(env, t, pid, ch);
    }
  }

  // A delivery of a waiting turn whose checks all pass, with nothing in between: the model is
  // given the session's history, and the turn ends with what its answer is worth; its queued
  // answer, its exchange and the lock are settled with it.
  lemma ExecuteUndisturbed(env: Env, s: Sys, pid: nat, ch: Choice) returns (n: nat, e: Ending)
    requires NoticesFit(env) && Inv(s) && pid in s.procs && s.procs[pid].ExecRead? && Clear(s, s.procs[pid].x, ch)
    requires s.table.turns[s.procs[pid].x].data.state == Pending
    ensures
      var x := s.procs[pid].x;
      var d, t := s.table.turns[x].data.ident.device, Alone(env, s, pid, ch, n);
      var a := s.table.sessions[d].data;
      && Worth(env, NewMessages(ch.result, |Flatten(a.history)|), ch.runError, e)
      && pid !in t.procs && x in t.table.turns && EndsAs(env, a.replies, x, e, t.table.turns[x].data)
      && d in t.table.sessions && Finished(env, a, t.table.sessions[d].data, x, e)
      && t.table.lock == (if TheLock in s.table.lock && s.table.lock[TheLock].data == x then map[] else s.table.lock)
  {
    hide Inv, Step, NewMessages, Usable, Alone, EndsAs, Finished, Flatten, RunLog;
    var x := s.procs[pid].x;
    var c := Claimed(s, pid, x);
    var mine := c.table.turns[x];
    var context := Flatten(s.table.sessions[mine.data.ident.device].data.history);
    TurnsKnown(s, x);
    ClaimUndisturbed(env, s, pid, ch);
    RunUndisturbed(env, c, pid, ch, mine);
    var r := To(c, pid, ExecRun(mine, context));
    var t := ExecRunStep(r, pid, ExecRun(mine, context), ch);
    var m;
    m, e := AnswerUndisturbed(env, r, pid, ch, mine, context);
    Further(env, s, pid, ch, 2, 4);
    Further(env, s, pid, ch, 6, m);
    Further(env, s, pid, ch, 6 + m, 3);
    AloneKeepsInv(env, s, pid, ch, 6 + m);
    FinishUndisturbed(env, To(t, pid, FinishRead(mine, e, 0)), pid, ch);
    n := 9 + m;
  }

  // A failed check cancels the turn.
  lemma DeniedIsCancelled(env: Env, s: Sys, pid: nat, ch: Choice)
    requires pid in s.procs && (s.procs[pid].CheckTurn? || s.procs[pid].CheckSession?) && Denied(s, s.procs[pid], ch)
    ensures Step(env, s, Advance(pid, ch)) == To(s, pid, FinishRead(s.procs[pid].mine, Ending(NO_RESULT, Cancelled, SettingsChanged), 0))
  {
    hide Step;
    ExecuteSteps(env, s, pid, s.procs[pid], ch);
  }

  // ----- Submit -----

  // A request that finds its session has to wait: its queue is full, the owner's lock is held,
  // or the session's last turn may still be worked on.
  ghost predicate Busy(s: Sys, row: Row<Session>) {
    || |row.data.replies| >= MAX_PENDING_REPLIES
    || (TheLock in s.table.lock && s.table.lock[TheLock].expires > Unix(s.clock))
    || (row.data.lastTurn.Some? && row.data.lastTurn.value in s.table.turns
        && Active(s.table.turns[row.data.lastTurn.value].data.state) && s.table.turns[row.data.lastTurn.value].data.deadline > s.clock)
  }

  // The table after request a was accepted for session row: its turn waits, its answer is
  // queued, the lock is its own, and an overdue last turn was failed.
  ghost predicate Accepted(s: Sys, t: Table, a: Ask, settings: int, row: Row<Session>) {
    var x, d := ReceiptOf(a), a.id.device;
    && d in t.sessions && OneMoreQueued(row.data, t.sessions[d].data, x)
    && x in t.turns && Waits(t.turns[x].data, a, settings, row.data.id, s.clock)
    && TheLock in t.lock && t.lock[TheLock].data == x && t.lock[TheLock].expires == Unix(s.clock + LOCK_BUDGET)
    && (forall y :: y in s.table.turns ==>
          && y in t.turns
          && (if row.data.lastTurn == Some(y) && Active(s.table.turns[y].data.state)
              then t.turns[y].data == s.table.turns[y].data.(input := "", state := Failed, failure := WorkerInterrupted)
              else t.turns[y] == s.table.turns[y]))
    && (forall e :: e in s.table.sessions && e != d ==> e in t.sessions && t.sessions[e] == s.table.sessions[e])
  }

  lemma AcceptCommits(env: Env, s: Sys, pid: nat, ch: Choice, q: Proc)
    requires NoticesFit(env) && Inv(To(s, pid, q)) && q.SubmitCommit? && ch.fence && q.now == s.clock && ReceiptOf(q.a) !in s.table.turns
    requires Get(s.table.sessions, q.a.id.device) == Some(q.row) && q.held == Get(s.table.lock, TheLock)
    requires
      var last := q.row.data.lastTurn;
      q.prev == if last.Some? && last.value in s.table.turns && Active(s.table.turns[last.value].data.state)
                then Some(s.table.turns[last.value]) else None
    ensures
      var t := Step(env, To(s, pid, q), Advance(pid, ch));
      && Accepted(s, t.table, q.a, q.settings, q.row) && pid in t.procs && t.procs[pid] == SubmitPublish(ReceiptOf(q.a))
      && Passes(env, To(s, pid, q), q, ch)
  {
    hide Inv, Step, OneMoreQueued, Waits, Passes, Asked, TxApply, TxMatches, SubmitTx, SubmitCommitStep, ProcOk;
    var u := To(s, pid, q);
    var t := Step(env, u, Advance(pid, ch)).table;
    AcceptPasses(env, s, pid, ch, q);
    SubmitWrites(env, u, pid, q, ch);
    PassedWrites(env, u, pid, q, ch);
    InvProcAt(u, pid);
    AcceptLocks(env, u, q, ch);
    AcceptTurns(env, u, pid, q, ch);
    CommitSteps(env, u, pid, q, ch);
    AcceptPublishes(env, u, pid, q, ch);
  }

  lemma AcceptPublishes(env: Env, s: Sys, pid: nat, q: Proc, ch: Choice)
    requires q.SubmitCommit? && Passes(env, s, q, ch)
    ensures var t := SubmitCommitStep(s, pid, q, ch); pid in t.procs && t.procs[pid] == SubmitPublish(ReceiptOf(q.a))
  {
    hide TxApply, TxMatches, SubmitTx, SubmitLog;
  }

  lemma AcceptMatches(t: Table, q: Proc)
    requires q.SubmitCommit? && ReceiptOf(q.a) !in t.turns
    requires Get(t.sessions, q.a.id.device) == Some(q.row) && q.held == Get(t.lock, TheLock)
    requires q.prev.Some? ==> Get(t.turns, q.prev.value.data.id) == q.prev
    ensures TxMatches(t, SubmitTx(q, Unix(q.now) + RECOVERY_WINDOW))
  {
    hide Matches, SubmittedSession, SubmittedTurn, Apply;
    var x, expires := ReceiptOf(q.a), Unix(q.now) + RECOVERY_WINDOW;
    StillMatches(t.sessions, q.a.id.device, SubmittedSession(q.row.data, x), expires);
    StillMatches(t.lock, TheLock, x, Unix(q.now + LOCK_BUDGET));
    BothMatch(t, q, SubmitTx(q, expires).turns, x, SubmittedTurn(q.a, q.settings, q.row.data.id, q.now), expires);
  }

  lemma BothMatch(t: Table, q: Proc, tx: map<Receipt, Change<Turn>>, x: Receipt, u: Turn, expires: int)
    requires q.SubmitCommit? && x !in t.turns && (q.prev.Some? ==> Get(t.turns, q.prev.value.data.id) == q.prev)
    requires tx == map[x := Changed(None, u, expires)]
                   + if q.prev.None? then map[]
                     else map[q.prev.value.data.id := Changed(q.prev, Interrupted(q.prev.value.data), q.prev.value.expires)]
    ensures Matches(t.turns, tx)
  {
  }

  lemma AcceptPasses(env: Env, s: Sys, pid: nat, ch: Choice, q: Proc)
    requires Inv(To(s, pid, q)) && q.SubmitCommit? && ch.fence && ReceiptOf(q.a) !in s.table.turns
    requires Get(s.table.sessions, q.a.id.device) == Some(q.row) && q.held == Get(s.table.lock, TheLock)
    requires q.prev.Some? ==> q.row.data.lastTurn.Some? && Get(s.table.turns, q.row.data.lastTurn.value) == q.prev
    ensures Passes(env, To(s, pid, q), q, ch)
  {
    hide Inv, Apply, Matches, SubmitTx;
    if q.prev.Some? { TurnsKnown(To(s, pid, q), q.row.data.lastTurn.value); }
    AcceptMatches(s.table, q);
  }

  lemma AcceptLocks(env: Env, s: Sys, q: Proc, ch: Choice)
    requires q.SubmitCommit? && Passes(env, s, q, ch)
    ensures
      var t' := TxApply(s.table, Asked(env, s, q, ch));
      TheLock in t'.lock && t'.lock[TheLock].data == ReceiptOf(q.a) && t'.lock[TheLock].expires == Unix(q.now + LOCK_BUDGET)
  {
    hide TxApply, SubmitTx, TxMatches;
    SubmitPutsLock(s.table, q, Unix(q.now) + RECOVERY_WINDOW);
  }

  lemma AcceptTurns(env: Env, s: Sys, pid: nat, q: Proc, ch: Choice)
    requires Inv(s) && pid in s.procs && s.procs[pid] == q && q.SubmitCommit? && Passes(env, s, q, ch)
    requires ProcOk(s.table, s.log, s.clock, pid, q)
    requires
      var last := q.row.data.lastTurn;
      q.prev == if last.Some? && last.value in s.table.turns && Active(s.table.turns[last.value].data.state)
                then Some(s.table.turns[last.value]) else None
    ensures
      var t' := TxApply(s.table, Asked(env, s, q, ch));
      forall y :: y in s.table.turns ==>
        && y in t'.turns
        && (if q.row.data.lastTurn == Some(y) && Active(s.table.turns[y].data.state)
            then t'.turns[y].data == s.table.turns[y].data.(input := "", state := Failed, failure := WorkerInterrupted)
            else t'.turns[y] == s.table.turns[y])
  {
    hide Inv, TxApply, TxMatches, SubmitTx, ResetOk, SpeechOk, ExecuteOk, FinishOk, TurnStep;
    SubmitAddsTurn(s.table, q, Unix(q.now) + RECOVERY_WINDOW);
    if q.prev.Some? { TurnsKnown(s, q.row.data.lastTurn.value); }
  }

  // A Submit with its session at hand, up to the end: accepted, or nothing changed.
  lemma AcceptUndisturbed(env: Env, s: Sys, pid: nat, ch: Choice) returns (n: nat)
    requires NoticesFit(env) && Inv(s) && pid in s.procs && s.procs[pid].SubmitSession? && ch.fence && ch.published
    requires
      var p := s.procs[pid];
      && p.a.id.device in s.table.sessions && (p.launched || CanContinue(s, p.a)) && ReceiptOf(p.a) !in s.table.turns
    ensures
      var p, t := s.procs[pid], Alone(env, s, pid, ch, n);
      var row := s.table.sessions[p.a.id.device];
      && pid !in t.procs
      && if Busy(s, row) then t.table == s.table && t.log == s.log else Accepted(s, t.table, p.a, p.settings, row)
  {
    hide Inv, Step, Alone, Accepted, Busy, Passes;
    var p := s.procs[pid];
    var row, held := s.table.sessions[p.a.id.device], Get(s.table.lock, TheLock);
    var m, q := ReadsUndisturbed(env, s, pid, ch);
    if Busy(s, row) {
      n := m;
    } else {
      AloneKeepsInv(env, s, pid, ch, m);
      AcceptCommits(env, s, pid, ch, q);
      var t := Step(env, To(s, pid, q), Advance(pid, ch));
      Further(env, s, pid, ch, m, 2);
      TwoSteps(env, To(s, pid, q), pid, ch);
      PublishEnds(env, t, pid, ch);
      n := m + 2;
    }
  }

  lemma PublishEnds(env: Env, t: Sys, pid: nat, ch: Choice)
    requires pid in t.procs && t.procs[pid].SubmitPublish? && ch.published
    ensures var u := Step(env, t, Advance(pid, ch)); u.table == t.table && pid !in u.procs
  {
    hide Step;
    ReadSteps(env, t, pid, t.procs[pid], ch);
  }

  // A request that was accepted but could not be queued fails at once as unavailable.
  lemma UnpublishedFails(env: Env, s: Sys, pid: nat, ch: Choice)
    requires NoticesFit(env) && Inv(s) && pid in s.procs && s.procs[pid].SubmitPublish? && !ch.published && ch.fence
    requires
      var x := s.procs[pid].x;
      && x in s.table.turns && s.table.turns[x].data.state == Pending
      && var u := s.table.turns[x].data;
         var d := u.ident.device;
         d in s.table.sessions && s.table.sessions[d].data.id == u.sessionId && s.table.sessions[d].data.lastTurn == Some(x)
    ensures
      var x, t, e := s.procs[pid].x, Alone(env, s, pid, ch, 5), Ending(NO_RESULT, Failed, QueueUnavailable);
      var d := s.table.turns[x].data.ident.device;
      && pid !in t.procs && x in t.table.turns && EndsAs(env, s.table.sessions[d].data.replies, x, e, t.table.turns[x].data)
      && d in t.table.sessions && Finished(env, s.table.sessions[d].data, t.table.sessions[d].data, x, e)
      && t.table.lock == (if TheLock in s.table.lock && s.table.lock[TheLock].data == x then map[] else s.table.lock)
  {
    hide Inv, Step, Alone, EndsAs, Finished;
    var x := s.procs[pid].x;
    var a, b := SubmitUnpublished(x), FinishRead(s.table.turns[x], Ending(NO_RESULT, Failed, QueueUnavailable), 0);
    TurnsKnown(s, x);
    ReadSteps(env, s, pid, s.procs[pid], ch);
    ReadSteps(env, To(s, pid, a), pid, a, ch);
    ToTwice(s, pid, a, b);
    TwoSteps(env, s, pid, ch);
    Further(env, s, pid, ch, 2, 3);
    AloneKeepsInv(env, s, pid, ch, 2);
    FinishUndisturbed(env, To(s, pid, b), pid, ch);
  }

  // What it reads on the way to its commit.
  lemma ReadsUndisturbed(env: Env, s: Sys, pid: nat, ch: Choice) returns (m: nat, q: Proc)
    requires Inv(s) && pid in s.procs && s.procs[pid].SubmitSession?
    requires var p := s.procs[pid]; p.a.id.device in s.table.sessions && (p.launched || CanContinue(s, p.a))
    ensures
      var p, t := s.procs[pid], Alone(env, s, pid, ch, m);
      var row := s.table.sessions[p.a.id.device];
      var last := row.data.lastTurn;
      && (Busy(s, row) ==> t == Stop(s, pid))
      && (!Busy(s, row) ==>
            && t == To(s, pid, q) && q.SubmitCommit? && q.a == p.a && q.settings == p.settings && q.row == row
            && q.held == Get(s.table.lock, TheLock) && q.now == s.clock
            && q.prev == if last.Some? && last.value in s.table.turns && Active(s.table.turns[last.value].data.state)
                         then Some(s.table.turns[last.value]) else None)
  {
    hide Inv, Step, Alone;
    var p := s.procs[pid];
    var row, held := s.table.sessions[p.a.id.device], Get(s.table.lock, TheLock);
    var a, b := SubmitLock(p.a, p.settings, row), SubmitNow(p.a, p.settings, row, held);
    q := p;
    ReadSteps(env, s, pid, p, ch);
    TwoSteps(env, s, pid, ch);
    if |row.data.replies| >= MAX_PENDING_REPLIES {
      m := 1;
    } else {
      ReadSteps(env, To(s, pid, a), pid, a, ch);
      if held.Some? && held.value.expires > Unix(s.clock) {
        StopTwice(s, pid, a);
        m := 2;
      } else {
        ToTwice(s, pid, a, b);
        Further(env, s, pid, ch, 2, 2);
        Further(env, s, pid, ch, 2, 1);
        m, q := LastReads(env, s, pid, ch, b);
        m := m + 2;
      }
    }
  }

  lemma StopTwice(s: Sys, pid: nat, p: Proc)
    ensures Stop(To(s, pid, p), pid) == Stop(s, pid)
  {
  }

  lemma LastReads(env: Env, s: Sys, pid: nat, ch: Choice, b: Proc) returns (m: nat, q: Proc)
    requires b.SubmitNow?
    ensures 1 <= m <= 2
    ensures
      var t, last := Alone(env, To(s, pid, b), pid, ch, m), b.row.data.lastTurn;
      if last.Some? && last.value in s.table.turns && Active(s.table.turns[last.value].data.state)
         && s.table.turns[last.value].data.deadline > s.clock then t == Stop(s, pid)
      else
        t == To(s, pid, q)
        && q == SubmitCommit(b.a, b.settings, b.row, b.held, s.clock,
                             if last.Some? && last.value in s.table.turns && Active(s.table.turns[last.value].data.state)
                             then Some(s.table.turns[last.value]) else None)
  {
    hide Step, Alone;
    var last, c := b.row.data.lastTurn, SubmitPrevious(b.a, b.settings, b.row, b.held, s.clock);
    var prev := if last.Some? && last.value in s.table.turns && Active(s.table.turns[last.value].data.state)
                then Some(s.table.turns[last.value]) else None;
    q := SubmitCommit(b.a, b.settings, b.row, b.held, s.clock, prev);
    ReadSteps(env, To(s, pid, b), pid, b, ch);
    TwoSteps(env, To(s, pid, b), pid, ch);
    ToTwice(s, pid, b, q);
    if last.None? {
      m := 1;
    } else {
      m := 2;
      ToTwice(s, pid, b, c);
      ReadSteps(env, To(s, pid, c), pid, c, ch);
      ToTwice(s, pid, c, q);
      StopTwice(s, pid, c);
    }
  }

  // ----- Reset -----

  // The table after a Reset of id's Echo for ask: a fresh session in place of any it had, whose
  // last turn, if undecided, is stopped and gives up the lock. Nothing else changes.
  ghost predicate Afresh(s: Sys, t: Table, id: Identity, ask: string, expires: int) {
    var d := id.device;
    var last := if d in s.table.sessions then s.table.sessions[d].data.lastTurn else None;
    && d in t.sessions && Fresh(t.sessions[d].data, id, ask, s.nextSession)
    && t.sessions[d].data.startedAt == s.clock && t.sessions[d].expires == expires
    && t.lock == (if TheLock in s.table.lock && Some(s.table.lock[TheLock].data) == last then map[] else s.table.lock)
    && t.turns.Keys == s.table.turns.Keys
    && (forall y :: y in s.table.turns ==>
          if last == Some(y) && Active(s.table.turns[y].data.state)
          then t.turns[y].data == s.table.turns[y].data.(input := "", state := Cancelled, failure := Stopped)
          else t.turns[y] == s.table.turns[y])
    && (forall e :: e in s.table.sessions && e != d ==> e in t.sessions && t.sessions[e] == s.table.sessions[e])
  }

  function ResetNext(next: Option<(Ask, int)>): Option<Proc> {
    if next.None? then None else Some(SubmitSession(next.value.0, next.value.1, true))
  }

  lemma ResetUndisturbed(env: Env, s: Sys, pid: nat, ch: Choice) returns (n: nat)
    requires NoticesFit(env) && Inv(s) && pid in s.procs && s.procs[pid].ResetSession? && ch.fence
    ensures
      var p, t := s.procs[pid], Alone(env, s, pid, ch, n);
      && Afresh(s, t.table, p.id, p.ask, Unix(s.clock) + if p.start then RECOVERY_WINDOW else 0)
      && t.clock == s.clock && Get(t.procs, pid) == ResetNext(p.next)
  {
    hide Inv, Step, Alone, Afresh, BlankSession;
    var p := s.procs[pid];
    var m, q := ResetReadsUndisturbed(env, s, pid, ch);
    AloneKeepsInv(env, s, pid, ch, m);
    Further(env, s, pid, ch, m, 1);
    TwoSteps(env, To(s, pid, q), pid, ch);
    ResetGoesThrough(env, s, pid, ch, q, p.ask, p.start);
    n := m + 1;
  }

  // What a Reset has read when it is about to commit.
  ghost predicate ReadyToReset(s: Sys, q: Proc, ask: string, start: bool) {
    && q.ResetCommit? && q.old_ == Get(s.table.sessions, q.id.device) && q.blank == BlankSession(q.id, ask, s.clock)
    && q.expires == Unix(s.clock) + (if start then RECOVERY_WINDOW else 0)
    && var last := if q.old_.Some? then q.old_.value.data.lastTurn else None;
       && q.active == (if last.Some? && last.value in s.table.turns && Active(s.table.turns[last.value].data.state)
                       then Some(s.table.turns[last.value]) else None)
       && q.held == if last.Some? && TheLock in s.table.lock && Some(s.table.lock[TheLock].data) == last
                    then Some(s.table.lock[TheLock]) else None
  }

  lemma LaterResetReads(env: Env, s: Sys, pid: nat, ch: Choice, a: Proc) returns (q: Proc)
    requires a.ResetTurn? && a.row.data.lastTurn.Some?
    ensures Alone(env, To(s, pid, a), pid, ch, 2) == To(s, pid, q)
    ensures
      var last := a.row.data.lastTurn.value;
      var active := if last in s.table.turns && Active(s.table.turns[last].data.state) then Some(s.table.turns[last]) else None;
      var held := if TheLock in s.table.lock && s.table.lock[TheLock].data == last then Some(s.table.lock[TheLock]) else None;
      q == ResetCommit(a.id, Some(a.row), a.blank, a.expires, a.next, active, held)
  {
    hide Step, Alone;
    var last := a.row.data.lastTurn.value;
    var active := if last in s.table.turns && Active(s.table.turns[last].data.state) then Some(s.table.turns[last]) else None;
    var held := if TheLock in s.table.lock && s.table.lock[TheLock].data == last then Some(s.table.lock[TheLock]) else None;
    var b := ResetLock(a.id, a.row, a.blank, a.expires, a.next, active);
    q := ResetCommit(a.id, Some(a.row), a.blank, a.expires, a.next, active, held);
    OtherReadSteps(env, To(s, pid, a), pid, a, ch);
    OtherReadSteps(env, To(s, pid, b), pid, b, ch);
    ToTwice(s, pid, a, b);
    ToTwice(s, pid, b, q);
    TwoSteps(env, To(s, pid, a), pid, ch);
  }

  lemma ResetReadsUndisturbed(env: Env, s: Sys, pid: nat, ch: Choice) returns (m: nat, q: Proc)
    requires pid in s.procs && s.procs[pid].ResetSession?
    ensures
      var p := s.procs[pid];
      && Alone(env, s, pid, ch, m) == To(s, pid, q) && q.ResetCommit? && q.id == p.id && q.next == p.next
      && ReadyToReset(s, q, p.ask, p.start)
  {
    hide Step, Alone, BlankSession;
    var p := s.procs[pid];
    OtherReadSteps(env, s, pid, p, ch);
    TwoSteps(env, s, pid, ch);
    var row, blank := Get(s.table.sessions, p.id.device), BlankSession(p.id, p.ask, s.clock);
    var expires := Unix(s.clock) + if p.start then RECOVERY_WINDOW else 0;
    if row.Some? && row.value.data.lastTurn.Some? {
      var a := ResetTurn(p.id, row.value, blank, expires, p.next);
      q := LaterResetReads(env, s, pid, ch, a);
      Further(env, s, pid, ch, 1, 2);
      m := 3;
    } else {
      q := ResetCommit(p.id, row, blank, expires, p.next, None, None);
      m := 1;
    }
  }

  lemma SameAfresh(s: Sys, u: Sys, t: Table, q: Proc, ask: string)
    requires q.ResetCommit? && u.table == s.table && u.clock == s.clock && u.nextSession == s.nextSession && Afresh(u, t, q.id, ask, q.expires)
    ensures Afresh(s, t, q.id, ask, q.expires)
  {
    hide Fresh;
  }

  lemma ResetLeaves(u: Sys, pid: nat, q: Proc, ch: Choice)
    requires q.ResetCommit? && TxMatches(u.table, ResetTx(q, u.nextSession)) && ch.fence
    ensures
      var t := ResetCommitStep(u, pid, q, ch);
      t.table == TxApply(u.table, ResetTx(q, u.nextSession)) && t.clock == u.clock && Get(t.procs, pid) == ResetNext(q.next)
  {
    hide TxApply, TxMatches, ResetTx, ResetLog;
  }

  lemma ResetApplies(u: Sys, q: Proc, ask: string, start: bool)
    requires Inv(u) && ReadyToReset(u, q, ask, start) && TxMatches(u.table, ResetTx(q, u.nextSession))
    requires if q.old_.Some? then SnapOk(u.table, q.id.device, q.old_.value) && PrevOk(u.table, q.old_.value.data.lastTurn, q.active) else q.active.None?
    ensures Afresh(u, TxApply(u.table, ResetTx(q, u.nextSession)), q.id, ask, q.expires)
  {
    hide Inv, Apply, Matches, SnapOk, PrevOk, GivesUp, DecidesOnly;
    var t' := TxApply(u.table, ResetTx(q, u.nextSession));
    ResetGivesUp(u.table, q, u.nextSession);
    ResetTurns(u, q, t');
    SameKeys(u.table, t', q);
    StillMatches(u.table.sessions, q.id.device, q.blank.(id := u.nextSession), q.expires);
  }

  lemma SameKeys(t: Table, t': Table, q: Proc)
    requires q.ResetCommit? && DecidesOnly(t, t', q.active, Cancels(q.active))
    ensures t'.turns.Keys == t.turns.Keys
  {
  }

  lemma ResetGoesThrough(env: Env, s: Sys, pid: nat, ch: Choice, q: Proc, ask: string, start: bool)
    requires NoticesFit(env) && Inv(To(s, pid, q)) && ReadyToReset(s, q, ask, start) && ch.fence
    ensures
      var t := Step(env, To(s, pid, q), Advance(pid, ch));
      && Afresh(s, t.table, q.id, ask, q.expires) && t.clock == s.clock && Get(t.procs, pid) == ResetNext(q.next)
  {
    hide Inv, Step, ProcOk, TxApply, TxMatches, ResetTx, Afresh, BlankSession;
    var u := To(s, pid, q);
    CommitSteps(env, u, pid, q, ch);
    InvProcAt(u, pid);
    ResetMatches(u, pid, q);
    ResetterKnows(u, pid, q);
    ResetApplies(u, q, ask, start);
    ResetLeaves(u, pid, q, ch);
    SameAfresh(s, u, Step(env, u, Advance(pid, ch)).table, q, ask);
  }

  lemma ResetterKnows(s: Sys, pid: nat, q: Proc)
    requires q.ResetCommit? && ProcOk(s.table, s.log, s.clock, pid, q)
    ensures if q.old_.Some? then SnapOk(s.table, q.id.device, q.old_.value) && PrevOk(s.table, q.old_.value.data.lastTurn, q.active) else q.active.None?
  {
    hide SubmitOk, SpeechOk, ExecuteOk, FinishOk, SnapOk, PrevOk;
  }

  lemma ResetMatches(s: Sys, pid: nat, q: Proc)
    requires Inv(s) && pid in s.procs && s.procs[pid] == q && q.ResetCommit?
    requires q.old_ == Get(s.table.sessions, q.id.device) && (q.held.Some? ==> Get(s.table.lock, TheLock) == q.held)
    requires q.active.Some? ==> exists y :: y in s.table.turns && s.table.turns[y] == q.active.value
    ensures TxMatches(s.table, ResetTx(q, s.nextSession))
  {
    hide Inv, Apply, Matches, BlankSession;
    StillMatches(s.table.sessions, q.id.device, q.blank.(id := s.nextSession), q.expires);
    NoneMatches(s.table.turns);
    NoneMatches(s.table.lock);
    if q.held.Some? { DropMatches(s.table.lock); }
    if q.active.Some? {
      var y :| y in s.table.turns && s.table.turns[y] == q.active.value;
      TurnsKnown(s, y);
      StillMatches(s.table.turns, y, CancelledTurn(q.active.value.data), q.active.value.expires);
    }
  }

  lemma ResetTurns(s: Sys, q: Proc, t': Table)
    requires Inv(s) && q.ResetCommit? && DecidesOnly(s.table, t', q.active, Cancels(q.active))
    requires
      var last := if q.old_.Some? then q.old_.value.data.lastTurn else None;
      q.active == (if last.Some? && last.value in s.table.turns && Active(s.table.turns[last.value].data.state)
                   then Some(s.table.turns[last.value]) else None)
    ensures
      var last := if q.old_.Some? then q.old_.value.data.lastTurn else None;
      forall y :: y in s.table.turns ==>
        if last == Some(y) && Active(s.table.turns[y].data.state)
        then t'.turns[y].data == s.table.turns[y].data.(input := "", state := Cancelled, failure := Stopped)
        else t'.turns[y] == s.table.turns[y]
  {
    hide Inv, TurnStep;
    if q.active.Some? { TurnsKnown(s, q.old_.value.data.lastTurn.value); }
  }

  // A request with nothing in between: a repeated one changes nothing; one that finds its
  // session goes on with it, or finds the owner busy and changes nothing; any other starts
  // afresh first, at moment m, and then goes on with the fresh session in the same way.
  lemma SubmitUndisturbed(env: Env, s: Sys, pid: nat, ch: Choice) returns (m: nat, n: nat)
    requires NoticesFit(env) && Inv(s) && pid in s.procs && s.procs[pid].SubmitPrior? && ch.fence && ch.published
    ensures
      var a, t, u := s.procs[pid].a, Alone(env, s, pid, ch, n), Alone(env, s, pid, ch, m);
      && pid !in t.procs
      && if ReceiptOf(a) in s.table.turns then t.table == s.table
         else
           && (if CanContinue(s, a) then u.table == s.table else Afresh(s, u.table, a.id, a.ask, Unix(s.clock) + RECOVERY_WINDOW))
           && u.clock == s.clock && a.id.device in u.table.sessions
           && var row := u.table.sessions[a.id.device];
              if Busy(u, row) then t.table == u.table else Accepted(u, t.table, a, ch.settings, row)
  {
    hide Inv, Step, Alone, Afresh, Accepted, Busy;
    var a := s.procs[pid].a;
    ReadSteps(env, s, pid, s.procs[pid], ch);
    TwoSteps(env, s, pid, ch);
    AloneKeepsInv(env, s, pid, ch, 1);
    var b := To(s, pid, SubmitSession(a, ch.settings, false));
    if ReceiptOf(a) in s.table.turns {
      m, n := 1, 1;
    } else if CanContinue(s, a) {
      m := 1;
      n := AcceptUndisturbed(env, b, pid, ch);
      Further(env, s, pid, ch, 1, n);
      n := n + 1;
    } else {
      m, n := LaunchUndisturbed(env, s, pid, ch, b);
    }
  }

  lemma LaunchUndisturbed(env: Env, s: Sys, pid: nat, ch: Choice, b: Sys) returns (m: nat, n: nat)
    requires NoticesFit(env) && Inv(b) && pid in s.procs && s.procs[pid].SubmitPrior? && ch.fence && ch.published
    requires
      var a := s.procs[pid].a;
      && b == To(s, pid, SubmitSession(a, ch.settings, false)) && ReceiptOf(a) !in s.table.turns && !CanContinue(s, a)
      && Alone(env, s, pid, ch, 1) == b && Alone(env, s, pid, ch, 2) == Step(env, b, Advance(pid, ch))
    ensures
      var a, t, u := s.procs[pid].a, Alone(env, s, pid, ch, n), Alone(env, s, pid, ch, m);
      && pid !in t.procs && Afresh(s, u.table, a.id, a.ask, Unix(s.clock) + RECOVERY_WINDOW) && u.clock == s.clock
      && a.id.device in u.table.sessions
      && var row := u.table.sessions[a.id.device];
         if Busy(u, row) then t.table == u.table else Accepted(u, t.table, a, ch.settings, row)
  {
    hide Inv, Step, Alone, Afresh, Accepted, Busy;
    var a := s.procs[pid].a;
    var q := ResetSession(a.id, a.ask, true, Some((a, ch.settings)));
    var c := To(s, pid, q);
    ReadSteps(env, b, pid, b.procs[pid], ch);
    ToTwice(s, pid, b.procs[pid], q);
    StepKeeps(env, b, Advance(pid, ch));
    m := ResetUndisturbed(env, c, pid, ch);
    Further(env, s, pid, ch, 2, m);
    AloneKeepsInv(env, c, pid, ch, m);
    var u := Alone(env, c, pid, ch, m);
    AfreshHas(c, u.table, a, Unix(s.clock) + RECOVERY_WINDOW);
    AfreshOf(s, c, u.table, a, Unix(s.clock) + RECOVERY_WINDOW);
    m := m + 2;
    n := AcceptUndisturbed(env, u, pid, ch);
    Further(env, s, pid, ch, m, n);
    n := m + n;
  }

  lemma AfreshHas(s: Sys, t: Table, a: Ask, expires: int)
    requires Afresh(s, t, a.id, a.ask, expires)
    ensures a.id.device in t.sessions && t.turns.Keys == s.table.turns.Keys
  {
  }

  lemma AfreshOf(s: Sys, c: Sys, t: Table, a: Ask, expires: int)
    requires c.table == s.table && c.clock == s.clock && c.nextSession == s.nextSession && Afresh(c, t, a.id, a.ask, expires)
    ensures Afresh(s, t, a.id, a.ask, expires)
  {
    hide Fresh;
  }

  // ----- Resume and Speech -----

  // The table with the session of device d put as v, and nothing else changed.
  ghost predicate OnlyThere(t: Table, t': Table, d: string) {
    && d in t'.sessions && t'.turns == t.turns && t'.lock == t.lock && t'.sessions == t.sessions[d := t'.sessions[d]]
  }

  lemma SessionPut(env: Env, t: Table, d: string, v: Session, expires: int)
    requires d in t.sessions
    ensures
      var tx := SessionTx(d, t.sessions[d], v, expires);
      TxMatches(t, tx) && OnlyThere(t, TxApply(t, tx), d) && TxApply(t, tx).sessions[d].data == v
  {
    hide Apply, Matches;
    StillMatches(t.sessions, d, v, expires);
    NoneMatches(t.turns);
    NoneMatches(t.lock);
  }

  // Resume takes the Echo's session over for another Alexa session, if it is still kept for
  // this grant and generation; all else stays.
  lemma ResumeUndisturbed(env: Env, s: Sys, pid: nat, ch: Choice)
    requires pid in s.procs && s.procs[pid].ResumeRead? && ch.fence
    ensures
      var p, t := s.procs[pid], Alone(env, s, pid, ch, 2);
      var d := p.id.device;
      && pid !in t.procs
      && if d in s.table.sessions && s.table.sessions[d].expires > Unix(s.clock)
            && s.table.sessions[d].data.grant == p.id.grant && s.table.sessions[d].data.generation == p.id.generation
         then OnlyThere(s.table, t.table, d) && t.table.sessions[d].data == s.table.sessions[d].data.(ask := p.ask)
         else t.table == s.table
  {
    hide Step, Alone, TxMatches, TxApply, SessionTx;
    var p := s.procs[pid];
    var d := p.id.device;
    OtherReadSteps(env, s, pid, p, ch);
    TwoSteps(env, s, pid, ch);
    if d in s.table.sessions && ValidSession(s, Some(s.table.sessions[d]), p.id) {
      var row := s.table.sessions[d];
      var q := ResumeCommit(p.id, p.ask, row);
      CommitSteps(env, To(s, pid, q), pid, q, ch);
      SessionPut(env, s.table, d, row.data.(ask := p.ask), Window(To(s, pid, q), ch));
    } else {
      NothingToDo(env, Stop(s, pid), pid, ch);
    }
  }

  lemma NothingToDo(env: Env, s: Sys, pid: nat, ch: Choice)
    requires pid !in s.procs
    ensures Step(env, s, Advance(pid, ch)) == s
  {
  }

  // What Speech finds to say: nothing yet, or an answer decided as a state and a text.
  ghost predicate ToSay(env: Env, s: Sys, id: Identity, row: Row<Session>, ch: Choice, say: Option<(Status, string)>) {
    if row.data.replies == [] then say.None?
    else
      var head := row.data.replies[0];
      var x := head.receipt;
      if !Active(head.state) then say == Some((head.state, head.text))
      else
        && x in s.table.turns
        && var turn := s.table.turns[x];
           if !ch.authorized || turn.data.ident != id then say.None?
           else if turn.expires <= Unix(s.clock) then say == Some((Failed, env.say(ExpiredAnswer)))
           else if !Active(turn.data.state) then say == Some((Failed, env.say(Failure(WorkerInterrupted))))
           else if turn.data.deadline <= s.clock then say == Some((Failed, env.say(TimedOut)))
           else say.None?
  }

  // Speech with nothing in between: from a session kept for this grant it repeats what it said
  // last, when asked to, or says the next part of the oldest answer, or leaves all as it is while
  // that answer is still being worked on.
  lemma SpeechUndisturbed(env: Env, s: Sys, pid: nat, ch: Choice) returns (n: nat, say: Option<(Status, string)>)
    requires NoticesFit(env) && Inv(s) && pid in s.procs && s.procs[pid].SpeechRead? && ch.fence
    ensures
      var p, t := s.procs[pid], Alone(env, s, pid, ch, n);
      var d := p.id.device;
      && pid !in t.procs
      && if !ValidSession(s, Get(s.table.sessions, d), p.id) then t.table == s.table
         else
           var row := s.table.sessions[d];
           if p.again && row.data.lastSpeech != "" then OnlyThere(s.table, t.table, d) && t.table.sessions[d].data == row.data
           else
             && ToSay(env, s, p.id, row, ch, say)
             && if say.None? then t.table == s.table
                else OnlyThere(s.table, t.table, d) && SpokenOn(env, row.data, t.table.sessions[d].data, say.value.0, say.value.1)
  {
    hide Inv, Step, Alone, TxMatches, TxApply, SessionTx, OnlyThere, SpokenOn, SpokenSession;
    var p := s.procs[pid];
    var d := p.id.device;
    n, say := 1, None;
    OtherReadSteps(env, s, pid, p, ch);
    TwoSteps(env, s, pid, ch);
    if ValidSession(s, Get(s.table.sessions, d), p.id) {
      var row := s.table.sessions[d];
      if p.again && row.data.lastSpeech != "" {
        RepeatUndisturbed(env, s, pid, ch, row);
        n := 2;
      } else if row.data.replies != [] {
        var head := row.data.replies[0];
        if !Active(head.state) {
          var q := SpeechCommit(p.id, p.again, row, head.state, head.text, p.attempt);
          say := Some((head.state, head.text));
          SayUndisturbed(env, s, pid, ch, q);
          n := 2;
        } else {
          var m;
          m, say := LookUndisturbed(env, s, pid, ch, SpeechTurn(p.id, p.again, row, p.attempt));
          Further(env, s, pid, ch, 1, m);
          n := m + 1;
        }
      }
    }
  }

  lemma RepeatUndisturbed(env: Env, s: Sys, pid: nat, ch: Choice, row: Row<Session>)
    requires pid in s.procs && s.procs[pid].SpeechRead? && Get(s.table.sessions, s.procs[pid].id.device) == Some(row) && ch.fence
    ensures
      var p := s.procs[pid];
      var q := SpeechRepeat(p.id, p.again, row, p.attempt);
      var t := Step(env, To(s, pid, q), Advance(pid, ch));
      pid !in t.procs && OnlyThere(s.table, t.table, p.id.device) && t.table.sessions[p.id.device].data == row.data
  {
    hide Step, TxMatches, TxApply, SessionTx, OnlyThere;
    var p := s.procs[pid];
    var q := SpeechRepeat(p.id, p.again, row, p.attempt);
    CommitSteps(env, To(s, pid, q), pid, q, ch);
    SessionPut(env, s.table, p.id.device, row.data, Window(To(s, pid, q), ch));
  }

  lemma SayUndisturbed(env: Env, s: Sys, pid: nat, ch: Choice, q: Proc)
    requires q.SpeechCommit? && Get(s.table.sessions, q.id.device) == Some(q.row) && q.row.data.replies != [] && ch.fence
    ensures
      var t := Step(env, To(s, pid, q), Advance(pid, ch));
      && pid !in t.procs && OnlyThere(s.table, t.table, q.id.device)
      && SpokenOn(env, q.row.data, t.table.sessions[q.id.device].data, q.state, q.text)
  {
    hide Step, TxMatches, TxApply, SessionTx, OnlyThere, SpokenOn, SpokenSession, SpokenLog;
    CommitSteps(env, To(s, pid, q), pid, q, ch);
    SpokenIsExact(env, q.row.data, q.state, q.text);
    SessionPut(env, s.table, q.id.device, SpokenSession(env, q.row.data, q.state, q.text), Window(To(s, pid, q), ch));
  }

  // From the undecided head on: its turn is looked up, and viewed.
  lemma LookUndisturbed(env: Env, s: Sys, pid: nat, ch: Choice, p: Proc) returns (m: nat, say: Option<(Status, string)>)
    requires NoticesFit(env) && Inv(s) && p.SpeechTurn? && ch.fence && Get(s.table.sessions, p.id.device) == Some(p.row)
    requires p.row.data.replies != [] && Active(p.row.data.replies[0].state) && ValidSession(s, Some(p.row), p.id)
    ensures
      var t := Alone(env, To(s, pid, p), pid, ch, m);
      && pid !in t.procs && ToSay(env, s, p.id, p.row, ch, say)
      && if say.None? then t.table == s.table
         else OnlyThere(s.table, t.table, p.id.device) && SpokenOn(env, p.row.data, t.table.sessions[p.id.device].data, say.value.0, say.value.1)
  {
    hide Inv, Step, Alone, OnlyThere, SpokenOn, ViewText;
    var u, x := To(s, pid, p), p.row.data.replies[0].receipt;
    HeadHasTurn(s, p.id.device, p.row);
    OtherReadSteps(env, u, pid, p, ch);
    TwoSteps(env, u, pid, ch);
    StopTwice(s, pid, p);
    var turn := s.table.turns[x];
    m, say := 1, None;
    if ch.authorized && turn.data.ident == p.id {
      if turn.expires <= Unix(s.clock) {
        say := Some((Failed, env.say(ExpiredAnswer)));
        SayAfter(env, s, pid, ch, p, say.value);
        m := 2;
      } else if Active(turn.data.state) && turn.data.deadline <= s.clock {
        say := Some((Failed, env.say(TimedOut)));
        SayAfter(env, s, pid, ch, p, say.value);
        m := 2;
      } else {
        m, say := ViewUndisturbed(env, s, pid, ch, p, turn);
      }
    }
  }

  lemma SayAfter(env: Env, s: Sys, pid: nat, ch: Choice, p: Proc, say: (Status, string))
    requires (p.SpeechTurn? || p.SpeechView?) && Get(s.table.sessions, p.id.device) == Some(p.row) && p.row.data.replies != [] && ch.fence
    ensures
      var q := SpeechCommit(p.id, p.again, p.row, say.0, say.1, p.attempt);
      var t := Step(env, To(To(s, pid, p), pid, q), Advance(pid, ch));
      && pid !in t.procs && OnlyThere(s.table, t.table, p.id.device)
      && SpokenOn(env, p.row.data, t.table.sessions[p.id.device].data, say.0, say.1)
  {
    hide Step, OnlyThere, SpokenOn;
    var q := SpeechCommit(p.id, p.again, p.row, say.0, say.1, p.attempt);
    ToTwice(s, pid, p, q);
    SayUndisturbed(env, s, pid, ch, q);
  }

  lemma ViewUndisturbed(env: Env, s: Sys, pid: nat, ch: Choice, p: Proc, turn: Row<Turn>) returns (m: nat, say: Option<(Status, string)>)
    requires NoticesFit(env) && Inv(s) && p.SpeechTurn? && ch.fence && Get(s.table.sessions, p.id.device) == Some(p.row)
    requires p.row.data.replies != [] && Active(p.row.data.replies[0].state) && ValidSession(s, Some(p.row), p.id)
    requires ch.authorized && Get(s.table.turns, p.row.data.replies[0].receipt) == Some(turn) && turn.data.ident == p.id
    requires turn.expires > Unix(s.clock) && !(Active(turn.data.state) && turn.data.deadline <= s.clock)
    requires Alone(env, To(s, pid, p), pid, ch, 2) == Step(env, Step(env, To(s, pid, p), Advance(pid, ch)), Advance(pid, ch))
    requires Step(env, To(s, pid, p), Advance(pid, ch)) == To(To(s, pid, p), pid, SpeechView(p.id, p.again, p.row, turn, p.attempt))
    ensures
      var t := Alone(env, To(s, pid, p), pid, ch, m);
      && pid !in t.procs && ToSay(env, s, p.id, p.row, ch, say)
      && if say.None? then t.table == s.table
         else OnlyThere(s.table, t.table, p.id.device) && SpokenOn(env, p.row.data, t.table.sessions[p.id.device].data, say.value.0, say.value.1)
  {
    hide Inv, Step, Alone, OnlyThere, SpokenOn, ViewText;
    var v := SpeechView(p.id, p.again, p.row, turn, p.attempt);
    ToTwice(s, pid, p, v);
    HeadHasTurn(s, p.id.device, p.row);
    OtherReadSteps(env, To(s, pid, v), pid, v, ch);
    StopTwice(s, pid, v);
    m, say := 2, None;
    if !Active(turn.data.state) {
      InterruptedView(env, s, p.id.device, turn.data);
      say := Some((Failed, env.say(Failure(WorkerInterrupted))));
      SayAfter(env, s, pid, ch, v, say.value);
      Further(env, To(s, pid, p), pid, ch, 2, 1);
      TwoSteps(env, Alone(env, To(s, pid, p), pid, ch, 2), pid, ch);
      m := 3;
    }
  }

  // ----- How long rows are kept -----

  function DeviceOf(p: Proc): string {
    if p.SubmitCommit? then p.a.id.device else if p.FinishCommit? then p.mine.data.ident.device
    else if p.ResumeCommit? || p.SpeechRepeat? || p.SpeechCommit? then p.id.device else ""
  }

  // Whatever interleaves, a commit that goes through keeps its session for fifteen minutes more,
  // and a new turn as long; finishing a turn leaves the time that turn is kept as it was.
  lemma CommittedRowsAreKept(env: Env, s: Sys, pid: nat, p: Proc, ch: Choice)
    requires pid in s.procs && p == s.procs[pid] && Passes(env, s, p, ch)
    requires p.SubmitCommit? || p.FinishCommit? || p.ResumeCommit? || p.SpeechRepeat? || (p.SpeechCommit? && p.row.data.replies != [])
    ensures
      var d, t' := DeviceOf(p), Step(env, s, Advance(pid, ch)).table;
      && d in t'.sessions && t'.sessions[d].expires == (if p.SubmitCommit? then Unix(p.now) else Unix(Stamp(s, ch))) + 900
      && (p.SubmitCommit? ==> ReceiptOf(p.a) in t'.turns && t'.turns[ReceiptOf(p.a)].expires == Unix(p.now) + 900)
      && (p.FinishCommit? ==> p.mine.data.id in t'.turns && t'.turns[p.mine.data.id].expires == p.mine.expires)
  {
    hide Step, TxApply, TxMatches, SubmitTx, FinishTx, SpokenSession;
    CommitSteps(env, s, pid, p, ch);
    if p.SubmitCommit? {
      PassedWrites(env, s, pid, p, ch);
      SubmitKeptFor(s.table, p, Unix(p.now) + RECOVERY_WINDOW);
    } else if p.FinishCommit? {
      PassedWrites(env, s, pid, p, ch);
      FinishKeptFor(env, s.table, p, Window(s, ch));
    } else {
      var v := if p.ResumeCommit? then p.row.data.(ask := p.ask) else if p.SpeechRepeat? then p.row.data
               else SpokenSession(env, p.row.data, p.state, p.text);
      SessionKeptFor(s.table, p.id.device, p.row, v, Window(s, ch));
    }
  }

  lemma SubmitKeptFor(t: Table, p: Proc, expires: int)
    requires p.SubmitCommit? && !(p.prev.Some? && p.prev.value.data.id == ReceiptOf(p.a))
    ensures
      var d, x, t' := p.a.id.device, ReceiptOf(p.a), TxApply(t, SubmitTx(p, expires));
      d in t'.sessions && t'.sessions[d].expires == expires && x in t'.turns && t'.turns[x].expires == Unix(p.now) + RECOVERY_WINDOW
  {
    hide SubmittedSession, SubmittedTurn;
  }

  lemma FinishKeptFor(env: Env, t: Table, p: Proc, expires: int)
    requires p.FinishCommit?
    ensures
      var d, x, t' := p.mine.data.ident.device, p.mine.data.id, TxApply(t, FinishTx(env, p, expires));
      d in t'.sessions && t'.sessions[d].expires == expires && x in t'.turns && t'.turns[x].expires == p.mine.expires
  {
    hide FinishedSession, FinishedTurn;
  }

  lemma SessionKeptFor(t: Table, d: string, row: Row<Session>, v: Session, expires: int)
    ensures var t' := TxApply(t, SessionTx(d, row, v, expires)); d in t'.sessions && t'.sessions[d].expires == expires
  {
  }
}
