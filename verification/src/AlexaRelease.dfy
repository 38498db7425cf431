// The lock is never left behind: whatever interleaves, the LOCK row names a turn that is
// still undecided, so a decided turn never keeps the owner's other requests out.
module AlexaRelease {
  import opened Prelude
  import opened Store
  import opened Conversation
  import opened AlexaProtocol
  import opened AlexaSafety
  import opened AlexaCommits
  import opened AlexaEndings
  import opened AlexaTheorems
  import opened AlexaResults
  import opened AlexaLock

  ghost predicate Undecided(t: Table, x: Receipt) { x in t.turns && Active(t.turns[x].data.state) }

  ghost predicate LockNamesUndecided(t: Table) { TheLock in t.lock ==> Undecided(t, t.lock[TheLock].data) }

  // Turn x exists and the lock is not, and so never again will be, its own.
  ghost predicate NotHolding(t: Table, x: Receipt) { x in t.turns && !(TheLock in t.lock && t.lock[TheLock].data == x) }

  // A process about to decide a turn without dropping the lock has seen that it is not that turn's.
  ghost predicate ReleaseOk(t: Table, p: Proc) {
    match p
    case ResetCommit(_, _, _, _, _, active, held) => active.Some? && held.None? ==> NotHolding(t, active.value.data.id)
    case FinishCommit(mine, _, _, _, held) => held.None? ==> NotHolding(t, mine.data.id)
    case _ => true
  }

  ghost predicate Released(s: Sys) {
    LockNamesUndecided(s.table) && forall pid :: pid in s.procs ==> ReleaseOk(s.table, s.procs[pid])
  }

  // How a commit may move the lock: not at all, away, or to a turn it creates.
  ghost predicate LockMoves(t: Table, t': Table) {
    t'.lock == t.lock || t'.lock == map[] || (TheLock in t'.lock && t'.lock[TheLock].data !in t.turns)
  }

  lemma ReleaseStays(t: Table, t': Table, p: Proc)
    requires ReleaseOk(t, p) && Evolves(t, t') && LockMoves(t, t')
    ensures ReleaseOk(t', p)
  {
  }

  // A commit that decides at most turn x, and keeps the lock only if it is not x's.
  ghost predicate Decides(t: Table, t': Table, x: Option<Receipt>) {
    && (forall y :: Undecided(t, y) && x != Some(y) ==> Undecided(t', y))
    && (t'.lock == map[] || (t'.lock == t.lock && (x.Some? ==> NotHolding(t, x.value))))
  }

  lemma DecidingReleases(t: Table, t': Table, x: Option<Receipt>)
    requires LockNamesUndecided(t) && Decides(t, t', x)
    ensures LockNamesUndecided(t') && LockMoves(t, t')
  {
  }

  lemma SubmitNames(t: Table, p: Proc, expires: int)
    requires p.SubmitCommit? && TxMatches(t, SubmitTx(p, expires)) && PrevOk(t, p.row.data.lastTurn, p.prev)
    requires p.prev.Some? ==> p.prev.value.data.id != ReceiptOf(p.a)
    ensures var t' := TxApply(t, SubmitTx(p, expires)); LockNamesUndecided(t') && LockMoves(t, t')
  {
    hide TxApply, SubmitTx, TxMatches;
    SubmitPutsLock(t, p, expires);
    SubmitAddsTurn(t, p, expires);
  }

  lemma ResetDecides(t: Table, p: Proc, sid: nat)
    requires p.ResetCommit? && TxMatches(t, ResetTx(p, sid)) && ReleaseOk(t, p)
    requires if p.old_.Some? then SnapOk(t, p.id.device, p.old_.value) && PrevOk(t, p.old_.value.data.lastTurn, p.active) else p.active.None?
    ensures Decides(t, TxApply(t, ResetTx(p, sid)), if p.active.Some? then Some(p.active.value.data.id) else None)
  {
    hide Apply, Matches, SnapOk, PrevOk, BlankSession;
    var tx := ResetTx(p, sid);
    DropsLock(t, tx, p.held);
    ResetActive(t, p.id.device, p.old_, p.active);
    DecideTurns(t, TxApply(t, tx), tx.turns, p.active, Cancels(p.active));
    OthersUndecided(t, TxApply(t, tx), p.active);
  }

  lemma OthersUndecided(t: Table, t': Table, active: Option<Row<Turn>>)
    requires DecidesOnly(t, t', active, Cancels(active))
    ensures forall y :: Undecided(t, y) && !(active.Some? && active.value.data.id == y) ==> Undecided(t', y)
  {
  }

  lemma FinishDecidesIt(env: Env, t: Table, p: Proc, expires: int)
    requires p.FinishCommit? && TxMatches(t, FinishTx(env, p, expires)) && ReleaseOk(t, p)
    requires MayFinish(t, p.mine, p.e) && !Active(FinishedTurn(env, p.mine.data, p.row.data, p.e).state)
    ensures Decides(t, TxApply(t, FinishTx(env, p, expires)), Some(p.mine.data.id))
  {
    hide FinishReplies, FinishedSession;
    var tx := FinishTx(env, p, expires);
    DropsLock(t, tx, p.held);
    PutTurn(t, p.mine.data.id, p.mine, FinishedTurn(env, p.mine.data, p.row.data, p.e));
  }

  lemma SmallReleases(env: Env, s: Sys, pid: nat, p: Proc, ch: Choice)
    requires pid in s.procs && p == s.procs[pid] && (p.ResumeCommit? || p.SpeechRepeat? || p.SpeechCommit? || p.ExecClaim?)
    requires LockNamesUndecided(s.table)
    ensures var t' := Step(env, s, Advance(pid, ch)).table; LockNamesUndecided(t') && LockMoves(s.table, t')
  {
    hide Step, LockNamesUndecided, LockMoves, Decides;
    var t' := Step(env, s, Advance(pid, ch)).table;
    SmallCommitKeepsLock(env, s, pid, p, ch);
    LeavesAll(s.table, t');
    DecidingReleases(s.table, t', None);
  }

  lemma CommitReleases(env: Env, s: Sys, pid: nat, p: Proc, ch: Choice)
    requires NoticesFit(env) && Inv(s) && pid in s.procs && p == s.procs[pid] && Commits(p)
    requires ProcOk(s.table, s.log, s.clock, pid, p) && ReleaseOk(s.table, p) && LockNamesUndecided(s.table)
    ensures var t' := Step(env, s, Advance(pid, ch)).table; LockNamesUndecided(t') && LockMoves(s.table, t')
  {
    hide Step, Inv, LockNamesUndecided, LockMoves, Decides, Evolves, SubmitTx, ResetTx, FinishTx, SessionTx, ClaimTx, SpokenSession, SpokenLog,
         TxApply, TxMatches, SubmitLog, ResetLog;
    var t, t' := s.table, Step(env, s, Advance(pid, ch)).table;
    CommitSteps(env, s, pid, p, ch);
    if t' == t {
      Unmoved(t);
    } else if p.SubmitCommit? {
      SubmitNames(t, p, Unix(p.now) + RECOVERY_WINDOW);
    } else if p.ResetCommit? {
      ResetDecides(t, p, s.nextSession);
      DecidingReleases(t, t', if p.active.Some? then Some(p.active.value.data.id) else None);
    } else if p.FinishCommit? {
      FinishDecides(env, s, p);
      FinishDecidesIt(env, t, p, Window(s, ch));
      DecidingReleases(t, t', Some(p.mine.data.id));
    } else {
      SmallReleases(env, s, pid, p, ch);
    }
  }

  lemma LeavesAll(t: Table, t': Table)
    requires t'.turns.Keys == t.turns.Keys && t'.lock == t.lock
    requires forall y :: y in t.turns && Active(t.turns[y].data.state) ==> Active(t'.turns[y].data.state)
    ensures Decides(t, t', None)
  {
  }

  lemma Unmoved(t: Table)
    ensures LockMoves(t, t)
  {
  }

  // ----- Reading the lock -----

  // Where a process arrives ready to decide a turn, it has seen whose the lock is.
  ghost predicate Arrives(s: Sys, s': Sys, pid: nat) {
    pid in s'.procs && (s'.procs[pid].ResetCommit? || s'.procs[pid].FinishCommit?) ==> ReleaseOk(s.table, s'.procs[pid])
  }

  lemma ReadsRelease(env: Env, s: Sys, pid: nat, p: Proc, ch: Choice)
    requires pid in s.procs && p == s.procs[pid] && ProcOk(s.table, s.log, s.clock, pid, p)
    ensures Arrives(s, Step(env, s, Advance(pid, ch)), pid)
  {
    hide Arrives, StepSubmit, StepReset, StepSpeech, StepExecute, StepFinish;
    if IsSubmit(p) { SubmitReadsNoLock(s, pid, p, ch); }
    else if IsReset(p) { ResetReadsLock(s, pid, p, ch); }
    else if IsSpeech(p) { SpeechReadsNoLock(env, s, pid, p, ch); }
    else if IsExecute(p) { ExecuteReadsNoLock(env, s, pid, p, ch); }
    else { FinishReadsTheLock(env, s, pid, p, ch); }
  }

  lemma SubmitReadsNoLock(s: Sys, pid: nat, p: Proc, ch: Choice)
    requires IsSubmit(p)
    ensures Arrives(s, StepSubmit(s, pid, p, ch), pid)
  {
    hide TxApply, TxMatches, SubmitTx;
  }

  lemma ResetReadsLock(s: Sys, pid: nat, p: Proc, ch: Choice)
    requires IsReset(p) && ProcOk(s.table, s.log, s.clock, pid, p)
    ensures Arrives(s, StepReset(s, pid, p, ch), pid)
  {
    hide TxApply, TxMatches, ResetTx, SessionTx, BlankSession;
  }

  lemma SpeechReadsNoLock(env: Env, s: Sys, pid: nat, p: Proc, ch: Choice)
    requires IsSpeech(p)
    ensures Arrives(s, StepSpeech(env, s, pid, p, ch), pid)
  {
    hide TxApply, TxMatches, SessionTx, SpokenSession, SpokenLog, ViewText;
  }

  lemma ExecuteReadsNoLock(env: Env, s: Sys, pid: nat, p: Proc, ch: Choice)
    requires IsExecute(p)
    ensures Arrives(s, StepExecute(env, s, pid, p, ch), pid)
  {
    hide TxApply, TxMatches, ClaimTx;
  }

  lemma FinishReadsTheLock(env: Env, s: Sys, pid: nat, p: Proc, ch: Choice)
    requires IsFinish(p) && ProcOk(s.table, s.log, s.clock, pid, p)
    ensures Arrives(s, StepFinish(env, s, pid, p, ch), pid)
  {
    hide TxApply, TxMatches, FinishTx;
  }

  // ----- Every run -----

  lemma ReleasedStep(env: Env, s: Sys, a: Action)
    requires NoticesFit(env) && Inv(s) && Released(s)
    ensures Released(Step(env, s, a))
  {
    hide Inv, Evolves, LockMoves, LockNamesUndecided, ReleaseOk;
    var s' := Step(env, s, a);
    StepKeeps(env, s, a);
    if a.Advance? && a.pid in s.procs {
      InvProcAt(s, a.pid);
      AdvancesAlone(env, s, a.pid, s.procs[a.pid], a.ch);
      if Commits(s.procs[a.pid]) { CommitReleases(env, s, a.pid, s.procs[a.pid], a.ch); }
      else {
        ReadKeepsTable(env, s, a);
        Unmoved(s.table);
      }
      forall q | q in s'.procs
        ensures ReleaseOk(s'.table, s'.procs[q])
      {
        if q != a.pid { ReleaseStays(s.table, s'.table, s.procs[q]); }
        else {
          ReadsRelease(env, s, q, s.procs[q], a.ch);
          Arrived(env, s, s', q, a.ch);
        }
      }
    } else {
      OutsideReleases(env, s, a);
    }
  }

  lemma OutsideReleases(env: Env, s: Sys, a: Action)
    requires Released(s) && !(a.Advance? && a.pid in s.procs)
    ensures Released(Step(env, s, a))
  {
  }

  // After a commit, no process is itself about to commit; after a read, the table is as it was.
  lemma Arrived(env: Env, s: Sys, s': Sys, q: nat, ch: Choice)
    requires NoticesFit(env) && Inv(s) && q in s.procs && s' == Step(env, s, Advance(q, ch)) && Arrives(s, s', q) && q in s'.procs
    ensures ReleaseOk(s'.table, s'.procs[q])
  {
    hide Inv, Evolves;
    if Commits(s.procs[q]) { CommitsGoElsewhere(env, s, q, s.procs[q], ch); }
    else { ReadKeepsTable(env, s, Advance(q, ch)); }
  }

  lemma CommitsGoElsewhere(env: Env, s: Sys, q: nat, p: Proc, ch: Choice)
    requires q in s.procs && p == s.procs[q] && Commits(p)
    ensures
      var s' := Step(env, s, Advance(q, ch));
      q in s'.procs ==> !s'.procs[q].ResetCommit? && !s'.procs[q].FinishCommit?
  {
    hide TxApply, TxMatches, SubmitTx, ResetTx, FinishTx, SpokenSession, SpokenLog, ClaimTx, SessionTx;
  }

  lemma {:induction false} ReleasedThroughout(env: Env, actions: seq<Action>)
    requires NoticesFit(env)
    ensures Released(Run(env, INIT, actions))
  {
    hide Inv, Released, Step;
    if actions == [] {
      InitReleased();
    } else {
      ReleasedThroughout(env, actions[..|actions| - 1]);
      Reachable(env, actions[..|actions| - 1]);
      ReleasedStep(env, Run(env, INIT, actions[..|actions| - 1]), actions[|actions| - 1]);
    }
  }

  lemma InitReleased()
    ensures Released(INIT)
  {
  }

  // In every run, over any number of Echos: a LOCK row names an undecided turn, which is
  // its own Echo's last. So a decided turn never holds the lock, and once no turn is
  // undecided the owner is free to ask again.
  lemma DecidedTurnsReleaseTheLock(env: Env, actions: seq<Action>)
    requires NoticesFit(env) && TheLock in Run(env, INIT, actions).table.lock
    ensures
      var t := Run(env, INIT, actions).table;
      var x := t.lock[TheLock].data;
      && x in t.turns && Active(t.turns[x].data.state)
      && x.device in t.sessions && t.sessions[x.device].data.lastTurn == Some(x)
  {
    hide Step, Run;
    ReleasedThroughout(env, actions);
    Reachable(env, actions);
    var s := Run(env, INIT, actions);
    assert TurnOk(s.table, s.log, s.table.lock[TheLock].data);
  }
}
