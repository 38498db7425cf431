// One live turn per owner: what the LOCK row gives, and where a version is not enough.
module AlexaLock {
  import opened Prelude
  import opened Store
  import opened Conversation
  import opened AlexaProtocol
  import opened AlexaSafety
  import opened AlexaSteps
  import opened AlexaCommits
  import opened AlexaWrites
  import opened AlexaEndings
  import opened AlexaTheorems

  // A turn whose worker may still act.
  ghost predicate Live(t: Table, clock: nat, x: Receipt) {
    x in t.turns && Active(t.turns[x].data.state) && t.turns[x].data.deadline > clock
  }

  ghost predicate AtMostOneLive(t: Table, clock: nat) {
    forall x, y :: Live(t, clock, x) && Live(t, clock, y) ==> x == y
  }

  // Every live turn holds the lock, and the lock outlasts it.
  ghost predicate LiveTurnsHoldLock(t: Table, clock: nat) {
    forall x :: Live(t, clock, x) ==> Holder(t, x)
  }

  ghost predicate Holder(t: Table, x: Receipt) {
    x in t.turns && TheLock in t.lock && t.lock[TheLock].data == x && t.lock[TheLock].expires * 1000 > t.turns[x].data.deadline
  }

  // What each program counter knows about the lock row and the previous turn it has read.
  ghost predicate HeldOk(clock: nat, p: Proc) {
    match p
    case SubmitNow(_, _, _, held) => held.Some? ==> held.value.expires <= Unix(clock)
    case SubmitPrevious(_, _, _, held, now) => (held.Some? ==> held.value.expires <= Unix(clock)) && now <= clock
    case SubmitCommit(_, _, _, held, _, prev) =>
      (held.Some? ==> held.value.expires <= Unix(clock)) && (prev.Some? ==> prev.value.data.deadline <= clock)
    case ResetCommit(_, old_, _, _, _, _, held) => held.Some? ==> old_.Some? && Some(held.value.data) == old_.value.data.lastTurn
    case FinishCommit(mine, _, _, _, held) => held.Some? ==> held.value.data == mine.data.id
    case _ => true
  }

  ghost predicate AllHeldOk(s: Sys) { forall pid :: pid in s.procs ==> HeldOk(s.clock, s.procs[pid]) }

  ghost predicate LockInv(s: Sys) { AllHeldOk(s) && LiveTurnsHoldLock(s.table, s.clock) }

  function HeldBy(p: Proc): Option<Row<Receipt>> {
    match p
    case SubmitCommit(_, _, _, held, _, _) => held
    case ResetCommit(_, _, _, _, _, _, held) => held
    case FinishCommit(_, _, _, _, held) => held
    case _ => None
  }

  // The transaction that process p is about to send.
  function Asked(env: Env, s: Sys, p: Proc, ch: Choice): Tx {
    match p
    case SubmitCommit(_, _, _, _, now, _) => SubmitTx(p, Unix(now) + RECOVERY_WINDOW)
    case ResetCommit(_, _, _, _, _, _, _) => ResetTx(p, s.nextSession)
    case ResumeCommit(id, ask, row) => SessionTx(id.device, row, row.data.(ask := ask), Window(s, ch))
    case SpeechRepeat(id, _, row, _) => SessionTx(id.device, row, row.data, Window(s, ch))
    case SpeechCommit(id, _, row, state, text, _) =>
      if row.data.replies == [] then Tx(map[], map[], map[])
      else SessionTx(id.device, row, SpokenSession(env, row.data, state, text), Window(s, ch))
    case ExecClaim(x, row) => ClaimTx(x, row)
    case FinishCommit(_, _, _, _, _) => FinishTx(env, p, Window(s, ch))
    case _ => Tx(map[], map[], map[])
  }

  // A commit step writes all of its transaction, all conditions holding, or nothing.
  lemma WritesAsked(env: Env, s: Sys, pid: nat, p: Proc, ch: Choice)
    requires pid in s.procs && p == s.procs[pid] && Commits(p)
    ensures
      var t, t', tx := s.table, Step(env, s, Advance(pid, ch)).table, Asked(env, s, p, ch);
      t' == t || (TxMatches(t, tx) && t' == TxApply(t, tx))
  {
    hide Window, TxApply, TxMatches, SubmitTx, ResetTx, FinishTx, SpokenSession, SpokenLog, ClaimTx, SessionTx;
  }

  // The turn that the commit of process p decides.
  function DecidedBy(p: Proc): Option<Receipt> {
    match p
    case ResetCommit(_, _, _, _, _, active, _) => if active.Some? then Some(active.value.data.id) else None
    case FinishCommit(mine, _, _, _, _) => Some(mine.data.id)
    case _ => None
  }

  // Process p overwrites the LOCK row, or deletes it.
  predicate WritesLock(p: Proc) { p.SubmitCommit? || ((p.ResetCommit? || p.FinishCommit?) && HeldBy(p).Some?) }

  // The commit that process p sends goes through.
  predicate Passes(env: Env, s: Sys, p: Proc, ch: Choice) {
    && TxMatches(s.table, Asked(env, s, p, ch)) && ch.fence
    && !(p.SubmitCommit? && p.prev.Some? && p.prev.value.data.id == ReceiptOf(p.a))
  }

  // The stored LOCK row names a live turn other than except.
  ghost predicate NamesLive(t: Table, clock: nat, except: Option<Receipt>) {
    TheLock in t.lock && Live(t, clock, t.lock[TheLock].data) && except != Some(t.lock[TheLock].data)
  }

  // A commit is about to overwrite or delete a LOCK row that names another live turn.
  ghost predicate Robs(env: Env, s: Sys, a: Action) {
    && a.Advance? && a.pid in s.procs && WritesLock(s.procs[a.pid]) && Passes(env, s, s.procs[a.pid], a.ch)
    && NamesLive(s.table, s.clock, DecidedBy(s.procs[a.pid]))
  }

  // The assumption of row identity: when every version condition of a commit holds, the
  // LOCK row it matched is the very row the committing process read.
  ghost predicate LockIsTheRowRead(env: Env, s: Sys, a: Action) {
    a.Advance? && a.pid in s.procs && HeldBy(s.procs[a.pid]).Some? && TxMatches(s.table, Asked(env, s, s.procs[a.pid], a.ch))
    ==> Get(s.table.lock, TheLock) == HeldBy(s.procs[a.pid])
  }

  // ----- Keeping HeldOk -----

  lemma HeldKeeps(env: Env, s: Sys, a: Action)
    requires NoticesFit(env) && Inv(s) && AllHeldOk(s)
    ensures AllHeldOk(Step(env, s, a))
  {
    hide Inv, StepSubmit, StepReset, StepSpeech, StepExecute, StepFinish;
    var s' := Step(env, s, a);
    if a.Advance? && a.pid in s.procs {
      AdvancesAlone(env, s, a.pid, s.procs[a.pid], a.ch);
      HeldAdvances(env, s, a.pid, s.procs[a.pid], a.ch);
    }
  }

  lemma HeldAdvances(env: Env, s: Sys, pid: nat, p: Proc, ch: Choice)
    requires pid in s.procs && p == s.procs[pid] && HeldOk(s.clock, p)
    ensures var s' := Step(env, s, Advance(pid, ch)); s'.clock == s.clock && (pid in s'.procs ==> HeldOk(s.clock, s'.procs[pid]))
  {
    hide StepSubmit, StepReset, StepSpeech, StepExecute, StepFinish;
    if IsSubmit(p) { HeldSubmits(s, pid, p, ch); }
    else if IsReset(p) { HeldResets(s, pid, p, ch); }
    else if IsSpeech(p) { HeldSpeaks(env, s, pid, p, ch); }
    else if IsExecute(p) { HeldExecutes(env, s, pid, p, ch); }
    else { HeldFinishes(env, s, pid, p, ch); }
  }

  ghost predicate HeldAfter(s: Sys, s': Sys, pid: nat) { s'.clock == s.clock && (pid in s'.procs ==> HeldOk(s.clock, s'.procs[pid])) }

  lemma HeldSubmits(s: Sys, pid: nat, p: Proc, ch: Choice)
    requires IsSubmit(p) && HeldOk(s.clock, p)
    ensures HeldAfter(s, StepSubmit(s, pid, p, ch), pid)
  {
    hide TxApply, TxMatches, SubmitTx, BlankSession;
  }

  lemma HeldResets(s: Sys, pid: nat, p: Proc, ch: Choice)
    requires IsReset(p) && HeldOk(s.clock, p)
    ensures HeldAfter(s, StepReset(s, pid, p, ch), pid)
  {
    hide TxApply, TxMatches, ResetTx, SessionTx, BlankSession;
  }

  lemma HeldSpeaks(env: Env, s: Sys, pid: nat, p: Proc, ch: Choice)
    requires IsSpeech(p)
    ensures HeldAfter(s, StepSpeech(env, s, pid, p, ch), pid)
  {
    hide TxApply, TxMatches, SessionTx, SpokenSession, SpokenLog, ViewText;
  }

  lemma HeldExecutes(env: Env, s: Sys, pid: nat, p: Proc, ch: Choice)
    requires IsExecute(p)
    ensures HeldAfter(s, StepExecute(env, s, pid, p, ch), pid)
  {
    hide TxApply, TxMatches, ClaimTx;
  }

  lemma HeldFinishes(env: Env, s: Sys, pid: nat, p: Proc, ch: Choice)
    requires IsFinish(p) && HeldOk(s.clock, p)
    ensures HeldAfter(s, StepFinish(env, s, pid, p, ch), pid)
  {
    hide TxApply, TxMatches, FinishTx;
  }

  // ----- What a commit does to the lock and to the set of live turns -----

  lemma LiveWasLive(t: Table, t': Table, clock: nat, x: Receipt)
    requires Evolves(t, t') && x in t.turns && Live(t', clock, x)
    ensures Live(t, clock, x) && t'.turns[x].data.deadline == t.turns[x].data.deadline
  {
    assert TurnStep(t.turns[x], t'.turns[x]);
  }

  // The lock row as put by a Submit, and the row it replaced.
  lemma SubmitPutsLock(t: Table, p: Proc, expires: int)
    requires p.SubmitCommit? && TxMatches(t, SubmitTx(p, expires))
    ensures
      var t' := TxApply(t, SubmitTx(p, expires));
      && TheLock in t'.lock && t'.lock[TheLock].data == ReceiptOf(p.a) && t'.lock[TheLock].expires == Unix(p.now + LOCK_BUDGET)
      && (p.held.None? ==> TheLock !in t.lock)
      && (p.held.Some? ==> TheLock in t.lock && t.lock[TheLock].version == p.held.value.version)
  {
    var tx := SubmitTx(p, expires);
    assert TheLock in tx.lock && Holds(Get(t.lock, TheLock), tx.lock[TheLock]);
    ApplyPut(t.lock, TheLock, tx.lock[TheLock]);
  }

  lemma SubmitAddsTurn(t: Table, p: Proc, expires: int)
    requires p.SubmitCommit? && TxMatches(t, SubmitTx(p, expires)) && PrevOk(t, p.row.data.lastTurn, p.prev)
    requires p.prev.Some? ==> p.prev.value.data.id != ReceiptOf(p.a)
    ensures
      var t' := TxApply(t, SubmitTx(p, expires));
      SubmitMoves(t, t', ReceiptOf(p.a), SubmittedTurn(p.a, p.settings, p.row.data.id, p.now), p.prev)
  {
    hide Moved, Landed, TableInv;
    SubmitTurns(t, TxApply(t, SubmitTx(p, expires)), SubmitTx(p, expires).turns, ReceiptOf(p.a),
                SubmittedTurn(p.a, p.settings, p.row.data.id, p.now), p.prev, Unix(p.now) + RECOVERY_WINDOW);
  }

  // No live turn can exist while the lock names none.
  lemma UnnamedMeansNoneLive(t: Table, clock: nat, except: Option<Receipt>)
    requires LiveTurnsHoldLock(t, clock) && !NamesLive(t, clock, except)
    ensures forall x :: Live(t, clock, x) ==> except == Some(x)
  {
    forall x
      ensures Live(t, clock, x) ==> except == Some(x)
    {
      assert Live(t, clock, x) ==> Holder(t, x);
    }
  }

  lemma SubmitTakesLock(t: Table, clock: nat, p: Proc, expires: int)
    requires p.SubmitCommit? && TxMatches(t, SubmitTx(p, expires)) && PrevOk(t, p.row.data.lastTurn, p.prev)
    requires p.prev.Some? ==> p.prev.value.data.id != ReceiptOf(p.a)
    requires LiveTurnsHoldLock(t, clock) && !NamesLive(t, clock, None)
    ensures LiveTurnsHoldLock(TxApply(t, SubmitTx(p, expires)), clock)
  {
    hide TxApply, SubmitTx, TxMatches, NamesLive;
    var t', x := TxApply(t, SubmitTx(p, expires)), ReceiptOf(p.a);
    SubmitPutsLock(t, p, expires);
    SubmitAddsTurn(t, p, expires);
    UnnamedMeansNoneLive(t, clock, None);
    forall y | Live(t', clock, y)
      ensures Holder(t', y)
    {
      assert y != x ==> TurnStep(t.turns[y], t'.turns[y]) && Live(t, clock, y);
    }
  }

  // A commit that decides turn x, if any, and either leaves the lock or deletes it.
  ghost predicate GivesUp(t: Table, t': Table, x: Option<Receipt>) {
    && t'.turns.Keys == t.turns.Keys
    && (x.Some? && x.value in t'.turns ==> !Active(t'.turns[x.value].data.state))
    && (t'.lock == t.lock || t'.lock == map[])
  }

  lemma GivingUpKeepsLock(t: Table, t': Table, clock: nat, x: Option<Receipt>)
    requires Evolves(t, t') && GivesUp(t, t', x) && LiveTurnsHoldLock(t, clock)
    requires t'.lock == t.lock || !NamesLive(t, clock, x)
    ensures LiveTurnsHoldLock(t', clock)
  {
    if !NamesLive(t, clock, x) { UnnamedMeansNoneLive(t, clock, x); }
    forall y | Live(t', clock, y)
      ensures Holder(t', y)
    {
      LiveWasLive(t, t', clock, y);
      assert Holder(t, y);
    }
  }

  // The lock part of a Reset or finish transaction: nothing, or the deletion of the row read.
  lemma DropsLock(t: Table, tx: Tx, held: Option<Row<Receipt>>)
    requires tx.lock == (if held.None? then map[] else map[TheLock := Change(held, None)]) && Matches(t.lock, tx.lock)
    ensures held.None? ==> Apply(t.lock, tx.lock) == t.lock
    ensures held.Some? ==> TheLock in t.lock && t.lock[TheLock].version == held.value.version && Apply(t.lock, tx.lock) == map[]
  {
    if held.Some? {
      assert TheLock in tx.lock && Holds(Get(t.lock, TheLock), tx.lock[TheLock]);
      forall k | k in Apply(t.lock, tx.lock) ensures k == TheLock {}
    } else {
      ApplyNone(t.lock);
    }
  }

  lemma ResetGivesUp(t: Table, p: Proc, sid: nat)
    requires p.ResetCommit? && TxMatches(t, ResetTx(p, sid))
    requires if p.old_.Some? then SnapOk(t, p.id.device, p.old_.value) && PrevOk(t, p.old_.value.data.lastTurn, p.active) else p.active.None?
    ensures
      var t' := TxApply(t, ResetTx(p, sid));
      && GivesUp(t, t', DecidedBy(p)) && t'.lock == (if p.held.Some? then map[] else t.lock)
      && DecidesOnly(t, t', p.active, Cancels(p.active))
  {
    hide Apply, Matches, BlankSession, SnapOk, PrevOk;
    var tx := ResetTx(p, sid);
    DropsLock(t, tx, p.held);
    ResetActive(t, p.id.device, p.old_, p.active);
    DecideTurns(t, TxApply(t, tx), tx.turns, p.active, Cancels(p.active));
  }

  lemma FinishGivesUp(env: Env, t: Table, p: Proc, expires: int)
    requires p.FinishCommit? && TxMatches(t, FinishTx(env, p, expires))
    requires MayFinish(t, p.mine, p.e) && !Active(FinishedTurn(env, p.mine.data, p.row.data, p.e).state)
    ensures
      var t' := TxApply(t, FinishTx(env, p, expires));
      && GivesUp(t, t', DecidedBy(p)) && t'.lock == (if p.held.Some? then map[] else t.lock)
      && forall y :: y in t.turns && y != p.mine.data.id ==> t'.turns[y] == t.turns[y]
  {
    hide FinishReplies, FinishedSession;
    var tx := FinishTx(env, p, expires);
    DropsLock(t, tx, p.held);
    PutTurn(t, p.mine.data.id, p.mine, FinishedTurn(env, p.mine.data, p.row.data, p.e));
  }

  // ----- Every step, exactly -----

  // What a commit that goes through leaves, by kind.
  lemma PassedWrites(env: Env, s: Sys, pid: nat, p: Proc, ch: Choice)
    requires pid in s.procs && p == s.procs[pid] && (p.SubmitCommit? || p.ResetCommit? || p.FinishCommit?)
    ensures
      var t' := Step(env, s, Advance(pid, ch)).table;
      t' == if Passes(env, s, p, ch) then TxApply(s.table, Asked(env, s, p, ch)) else s.table
  {
    hide TxApply, TxMatches, SubmitTx, ResetTx, FinishTx, SubmitLog, ResetLog;
  }

  lemma CommitKeepsLock(env: Env, s: Sys, pid: nat, p: Proc, ch: Choice)
    requires NoticesFit(env) && Inv(s) && LockInv(s) && pid in s.procs && p == s.procs[pid] && Commits(p)
    requires ProcOk(s.table, s.log, s.clock, pid, p) && !Robs(env, s, Advance(pid, ch))
    requires Evolves(s.table, Step(env, s, Advance(pid, ch)).table)
    ensures LiveTurnsHoldLock(Step(env, s, Advance(pid, ch)).table, s.clock)
  {
    hide Inv, LiveTurnsHoldLock, NamesLive, GivesUp, Evolves, Step, SubmitTx, ResetTx, FinishTx, TxApply, TxMatches;
    var s' := Step(env, s, Advance(pid, ch));
    if s'.table != s.table {
      if p.SubmitCommit? || p.ResetCommit? || p.FinishCommit? {
        PassedWrites(env, s, pid, p, ch);
        if p.SubmitCommit? { SubmitTakesLock(s.table, s.clock, p, Unix(p.now) + RECOVERY_WINDOW); }
        else if p.ResetCommit? { ResetGivesUp(s.table, p, s.nextSession); }
        else {
          FinishDecides(env, s, p);
          FinishGivesUp(env, s.table, p, Window(s, ch));
        }
        if !p.SubmitCommit? { GivingUpKeepsLock(s.table, s'.table, s.clock, DecidedBy(p)); }
      } else {
        SmallCommitKeepsLock(env, s, pid, p, ch);
        GivingUpKeepsLock(s.table, s'.table, s.clock, None);
      }
    }
  }

  // Turn y stays live after the commit of p, unless p decides it.
  lemma RobbedStaysLive(env: Env, s: Sys, pid: nat, p: Proc, ch: Choice, y: Receipt)
    requires NoticesFit(env) && Inv(s) && AllHeldOk(s) && pid in s.procs && p == s.procs[pid] && WritesLock(p) && Passes(env, s, p, ch)
    requires ProcOk(s.table, s.log, s.clock, pid, p) && Live(s.table, s.clock, y) && DecidedBy(p) != Some(y)
    ensures
      var t' := Step(env, s, Advance(pid, ch)).table;
      Live(t', s.clock, y) && !(TheLock in t'.lock && t'.lock[TheLock].data == y)
  {
    hide Inv, Step, SubmitTx, ResetTx, FinishTx, TxApply, TxMatches, FinishedTurn;
    PassedWrites(env, s, pid, p, ch);
    assert HeldOk(s.clock, p);
    if p.SubmitCommit? {
      SubmitPutsLock(s.table, p, Unix(p.now) + RECOVERY_WINDOW);
      SubmitAddsTurn(s.table, p, Unix(p.now) + RECOVERY_WINDOW);
    } else if p.ResetCommit? {
      ResetGivesUp(s.table, p, s.nextSession);
    } else {
      FinishDecides(env, s, p);
      FinishGivesUp(env, s.table, p, Window(s, ch));
    }
  }

  lemma FinishDecides(env: Env, s: Sys, p: Proc)
    requires Inv(s) && p.FinishCommit? && MayFinish(s.table, p.mine, p.e)
    ensures !Active(FinishedTurn(env, p.mine.data, p.row.data, p.e).state)
  {
  }

  lemma SessionTouchesNoLock(t: Table, d: string, row: Row<Session>, v: Session, expires: int)
    ensures var t' := TxApply(t, SessionTx(d, row, v, expires)); t'.lock == t.lock && t'.turns == t.turns
  {
    ApplyNone(t.lock);
    ApplyNone(t.turns);
  }

  lemma ClaimTouchesNoLock(t: Table, x: Receipt, row: Row<Turn>)
    requires TxMatches(t, ClaimTx(x, row))
    ensures
      var t' := TxApply(t, ClaimTx(x, row));
      && t'.lock == t.lock && t'.turns.Keys == t.turns.Keys
      && forall y :: y in t.turns && Active(t.turns[y].data.state) ==> Active(t'.turns[y].data.state)
  {
    hide Apply, Matches;
    var tx := ClaimTx(x, row);
    ApplyNone(t.lock);
    ApplyPut(t.turns, x, tx.turns[x]);
  }

  // Resume, Speech and claim commits touch no lock, add no turn and decide none.
  lemma SmallCommitKeepsLock(env: Env, s: Sys, pid: nat, p: Proc, ch: Choice)
    requires pid in s.procs && p == s.procs[pid] && (p.ResumeCommit? || p.SpeechRepeat? || p.SpeechCommit? || p.ExecClaim?)
    ensures GivesUp(s.table, Step(env, s, Advance(pid, ch)).table, None)
    ensures Step(env, s, Advance(pid, ch)).table.lock == s.table.lock
    ensures forall y :: y in s.table.turns && Active(s.table.turns[y].data.state) ==>
              Active(Step(env, s, Advance(pid, ch)).table.turns[y].data.state)
  {
    hide SpokenSession, SpokenLog, Step, TxApply, TxMatches, ClaimTx, SessionTx;
    CommitSteps(env, s, pid, p, ch);
    if p.ExecClaim? && TxMatches(s.table, ClaimTx(p.x, p.pending)) { ClaimTouchesNoLock(s.table, p.x, p.pending); }
    if p.ResumeCommit? { SessionTouchesNoLock(s.table, p.id.device, p.row, p.row.data.(ask := p.ask), Window(s, ch)); }
    if p.SpeechRepeat? { SessionTouchesNoLock(s.table, p.id.device, p.row, p.row.data, Window(s, ch)); }
    if p.SpeechCommit? && p.row.data.replies != [] {
      SessionTouchesNoLock(s.table, p.id.device, p.row, SpokenSession(env, p.row.data, p.state, p.text), Window(s, ch));
    }
  }

  lemma UnrobbedStep(env: Env, s: Sys, a: Action)
    requires NoticesFit(env) && Inv(s) && LockInv(s) && !Robs(env, s, a)
    ensures LockInv(Step(env, s, a))
  {
    hide Inv, Evolves, Robs;
    HeldKeeps(env, s, a);
    StepKeeps(env, s, a);
    var s' := Step(env, s, a);
    if a.Advance? && a.pid in s.procs && Commits(s.procs[a.pid]) {
      InvProcAt(s, a.pid);
      CommitKeepsLock(env, s, a.pid, s.procs[a.pid], a.ch);
      HeldAdvances(env, s, a.pid, s.procs[a.pid], a.ch);
    } else {
      ReadKeepsTable(env, s, a);
      forall x | Live(s'.table, s'.clock, x)
        ensures Holder(s'.table, x)
      {
        assert Live(s.table, s.clock, x);
        assert Holder(s.table, x);
      }
    }
  }

  // From any good state, a step keeps every live turn holding the lock if and only if it
  // does not overwrite or delete a LOCK row naming a live turn that it does not decide:
  // Submit, Reset and finish alike.
  lemma LockStepExactly(env: Env, s: Sys, a: Action)
    requires NoticesFit(env) && Inv(s) && LockInv(s)
    ensures LockInv(Step(env, s, a)) <==> !Robs(env, s, a)
  {
    hide Inv, Step, Passes, Evolves;
    if Robs(env, s, a) {
      InvProcAt(s, a.pid);
      var y := s.table.lock[TheLock].data;
      RobbedStaysLive(env, s, a.pid, s.procs[a.pid], a.ch, y);
      HeldAdvances(env, s, a.pid, s.procs[a.pid], a.ch);
      assert !Holder(Step(env, s, a).table, y);
    } else {
      UnrobbedStep(env, s, a);
    }
  }

  // A commit that matched the very LOCK row its process read robs no one.
  lemma RowReadNeverRobs(env: Env, s: Sys, a: Action)
    requires Inv(s) && LockInv(s) && LockIsTheRowRead(env, s, a)
    ensures !Robs(env, s, a)
  {
    hide Inv, TxMatches, SubmitTx, ResetTx, FinishTx;
    if Robs(env, s, a) {
      var p, y := s.procs[a.pid], s.table.lock[TheLock].data;
      InvProcAt(s, a.pid);
      assert Holder(s.table, y) && HeldOk(s.clock, p);
      if p.SubmitCommit? { SubmitPutsLock(s.table, p, Unix(p.now) + RECOVERY_WINDOW); }
    }
  }

  lemma LockStep(env: Env, s: Sys, a: Action)
    requires NoticesFit(env) && Inv(s) && LockInv(s) && LockIsTheRowRead(env, s, a)
    ensures LockInv(Step(env, s, a))
  {
    hide Inv, LockInv, LockIsTheRowRead, Robs, Step;
    RowReadNeverRobs(env, s, a);
    UnrobbedStep(env, s, a);
  }

  lemma RunOnlyLogs(env: Env, s: Sys, pid: nat, p: Proc, ch: Choice)
    requires pid in s.procs && p == s.procs[pid] && p.ExecRun?
    ensures var s' := Step(env, s, Advance(pid, ch)); s'.table == s.table && s'.clock == s.clock
  {
    hide Step, NewMessages;
    CommitSteps(env, s, pid, p, ch);
  }

  lemma ReadKeepsTable(env: Env, s: Sys, a: Action)
    requires NoticesFit(env) && Inv(s)
    requires !(a.Advance? && a.pid in s.procs && Commits(s.procs[a.pid]))
    ensures Step(env, s, a).table == s.table && Step(env, s, a).clock >= s.clock
  {
    hide Inv, StepSubmit, StepReset, StepSpeech, StepExecute, StepFinish, ExecRunStep, ProcOk;
    if a.Advance? && a.pid in s.procs {
      var p := s.procs[a.pid];
      if p.ExecRun? { RunOnlyLogs(env, s, a.pid, p, a.ch); } else { ReadMoves(env, s, a.pid, p, a.ch); }
    }
  }
}
