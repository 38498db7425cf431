// Main results about the Alexa protocol: every state of every run from the empty table.
module AlexaTheorems {
  import opened Prelude
  import opened Store
  import opened Conversation
  import opened AlexaProtocol
  import opened AlexaSafety
  import opened AlexaSteps
  import opened AlexaCommits
  import opened AlexaSpeaks
  import opened AlexaWrites
  import opened AlexaEndings

  // ----- Each commit step, in the whole system -----

  // Nobody but pid sees a change in what it has claimed and run.
  ghost predicate KeepsClaims(a: Log, b: Log, pid: nat) {
    forall x :: x in a.claimed && a.claimed[x] != pid ==>
      x in b.claimed && b.claimed[x] == a.claimed[x] && (x in b.runs ==> x in a.runs)
  }

  // Process pid committed: the table moved on, and pid is where it may be.
  ghost predicate Landed(s: Sys, s': Sys, pid: nat) {
    match s' case Sys(clock, table, procs, nextSession, log) =>
      && TableInv(table, log, nextSession) && Evolves(s.table, table)
      && KeepsClaims(s.log, log, pid) && clock == s.clock
      && (procs == s.procs - {pid}
          || (pid in procs && procs == s.procs[pid := procs[pid]] && ProcOk(table, log, clock, pid, procs[pid])))
  }

  lemma OthersKeep(s: Sys, s': Sys, pid: nat)
    requires Landed(s, s', pid)
    ensures OthersStay(s, s', pid)
  {
    hide TableInv, Evolves, ProcOk;
  }

  lemma LandedKeeps(s: Sys, s': Sys, pid: nat)
    requires Inv(s) && (Moved(s, s', pid) || Landed(s, s', pid))
    ensures Inv(s') && Evolves(s.table, s'.table)
  {
    hide TableInv, Evolves, ProcOk, ProcsOk;
    if Landed(s, s', pid) {
      OthersKeep(s, s', pid);
      Assemble(s, s', pid);
    } else {
      MovedKeeps(s, s', pid);
      Refl(s.table);
    }
  }

  // The system after process pid committed and went on to next, or ended.
  function After(s: Sys, pid: nat, t: Table, log: Log, ids: nat, next: Option<Proc>): Sys {
    Sys(s.clock, t, if next.None? then s.procs - {pid} else s.procs[pid := next.value], ids, log)
  }

  lemma Land(s: Sys, pid: nat, t: Table, log: Log, ids: nat, next: Option<Proc>)
    requires TableInv(t, log, ids) && Evolves(s.table, t) && KeepsClaims(s.log, log, pid)
    requires next.Some? ==> ProcOk(t, log, s.clock, pid, next.value)
    ensures Landed(s, After(s, pid, t, log, ids, next), pid)
  {
  }

  lemma SameClaims(a: Log, b: Log, pid: nat)
    requires b.claimed == a.claimed && b.runs == a.runs
    ensures KeepsClaims(a, b, pid)
  {
  }

  lemma SubmitLands(s: Sys, pid: nat, p: Proc, ch: Choice)
    requires TableInv(s.table, s.log, s.nextSession) && p.SubmitCommit? && ProcOk(s.table, s.log, s.clock, pid, p)
    requires SubmitCommitStep(s, pid, p, ch) != Stop(s, pid)
    ensures Landed(s, SubmitCommitStep(s, pid, p, ch), pid)
  {
    hide ResetOk, SpeechOk, ExecuteOk, FinishOk, TableInv, Evolves, KeepsClaims, TxMatches, SubmitTx, TxApply;
    var t' := TxApply(s.table, SubmitTx(p, Unix(p.now) + RECOVERY_WINDOW));
    SubmitKeeps(s.table, s.log, s.nextSession, p, Unix(p.now) + RECOVERY_WINDOW);
    SameClaims(s.log, SubmitLog(s.log, p), pid);
    Land(s, pid, t', SubmitLog(s.log, p), s.nextSession, Some(SubmitPublish(ReceiptOf(p.a))));
  }

  lemma ResetLands(s: Sys, pid: nat, p: Proc, ch: Choice)
    requires TableInv(s.table, s.log, s.nextSession) && p.ResetCommit? && ProcOk(s.table, s.log, s.clock, pid, p)
    requires TxMatches(s.table, ResetTx(p, s.nextSession)) && ch.fence
    ensures Landed(s, ResetCommitStep(s, pid, p, ch), pid)
  {
    hide TableInv, Evolves, ResetTx;
    var t', log' := TxApply(s.table, ResetTx(p, s.nextSession)), ResetLog(s.log, p.id.device, s.nextSession);
    ResetKeeps(s.table, s.log, s.nextSession, p);
    SameClaims(s.log, log', pid);
    var next := if p.next.None? then None else Some(SubmitSession(p.next.value.0, p.next.value.1, true));
    Land(s, pid, t', log', s.nextSession + 1, next);
  }

  lemma TouchLands(s: Sys, pid: nat, d: string, row: Row<Session>, v: Session, expires: int)
    requires TableInv(s.table, s.log, s.nextSession) && SnapOk(s.table, d, row) && SameContent(row.data, v)
    requires TxMatches(s.table, SessionTx(d, row, v, expires))
    ensures Landed(s, Stop(s.(table := TxApply(s.table, SessionTx(d, row, v, expires))), pid), pid)
  {
    TouchKeeps(s.table, s.log, s.nextSession, d, row, v, expires);
    SameClaims(s.log, s.log, pid);
    Land(s, pid, TxApply(s.table, SessionTx(d, row, v, expires)), s.log, s.nextSession, None);
  }

  // A matched Speech commit decides the head the way it may.
  lemma SpeechDecision(t: Table, log: Log, next: nat, p: Proc, v: Session, expires: int)
    requires TableInv(t, log, next) && p.SpeechCommit?
    requires SnapOk(t, p.id.device, p.row) && DecidedOk(t, p.id.device, p.row, p.state, p.text)
    requires TxMatches(t, SessionTx(p.id.device, p.row, v, expires))
    ensures Decision(p.row.data, p.state, p.text)
  {
    PutSession(t, p.id.device, p.row, v, expires);
    assert SessionOk(t, log, next, p.id.device);
    assert ReplyOk(t, log, p.id.device, p.row.data.id, p.row.data.replies[0]);
  }

  lemma SpeechLands(env: Env, s: Sys, pid: nat, d: string, row: Row<Session>, state: Status, text: string, expires: int)
    requires NoticesFit(env) && TableInv(s.table, s.log, s.nextSession) && SnapOk(s.table, d, row) && Decision(row.data, state, text)
    requires TxMatches(s.table, SessionTx(d, row, SpokenSession(env, row.data, state, text), expires))
    ensures
      var t' := TxApply(s.table, SessionTx(d, row, SpokenSession(env, row.data, state, text), expires));
      Landed(s, Stop(s.(table := t', log := SpokenLog(env, s.log, row.data, text)), pid), pid)
  {
    hide TableInv, Evolves, SpokenSession;
    var t' := TxApply(s.table, SessionTx(d, row, SpokenSession(env, row.data, state, text), expires));
    SpeechKeeps(s.table, s.log, s.nextSession, env, d, row, state, text, expires);
    SameClaims(s.log, SpokenLog(env, s.log, row.data, text), pid);
    Land(s, pid, t', SpokenLog(env, s.log, row.data, text), s.nextSession, None);
  }

  lemma InvLog(t: Table, log: Log, next: nat)
    requires TableInv(t, log, next)
    ensures LogOk(t, log, next)
  {
  }

  lemma ClaimLands(s: Sys, pid: nat, p: Proc, ch: Choice)
    requires TableInv(s.table, s.log, s.nextSession) && p.ExecClaim? && ProcOk(s.table, s.log, s.clock, pid, p)
    requires TxMatches(s.table, ClaimTx(p.x, p.pending)) && ch.fence
    ensures Landed(s, ExecClaimStep(s, pid, p, ch), pid)
  {
    hide SubmitOk, ResetOk, SpeechOk, FinishOk, TableInv, Evolves, KeepsClaims, Mine;
    var tx := ClaimTx(p.x, p.pending);
    var t', log', mine := TxApply(s.table, tx), s.log.(claimed := s.log.claimed[p.x := pid]), tx.turns[p.x].after.value;
    ClaimKeeps(s.table, s.log, s.nextSession, pid, p.x, p.pending);
    InvLog(s.table, s.log, s.nextSession);
    assert p.x in t'.turns;
    ClaimIsMine(s.table, s.log, s.nextSession, t', pid, p.x, mine);
    Land(s, pid, t', log', s.nextSession, Some(CheckTurn(mine, None)));
  }

  lemma ClaimIsMine(t: Table, log: Log, next: nat, t': Table, pid: nat, x: Receipt, mine: Row<Turn>)
    requires LogOk(t, log, next) && x !in log.claimed && x in t'.turns && t'.turns[x] == mine
    requires mine.data.id == x && mine.data.state == Running && mine.data.ident.device == x.device
    ensures Mine(t', log.(claimed := log.claimed[x := pid]), pid, mine) && x !in log.runs
    ensures KeepsClaims(log, log.(claimed := log.claimed[x := pid]), pid)
  {
    hide TableInv, TurnsOk, SubmittedOk, ToldOk;
  }

  lemma RunIsMine(t: Table, log: Log, pid: nat, mine: Row<Turn>, result: RunResult, error: Option<Reason>)
    requires Mine(t, log, pid, mine)
    ensures Mine(t, RunLog(log, mine.data.id, result, error), pid, mine)
    ensures KeepsClaims(log, RunLog(log, mine.data.id, result, error), pid)
  {
  }

  lemma RunGoesOn(s: Sys, pid: nat, p: Proc, ch: Choice)
    requires p.ExecRun? && Mine(s.table, RunLog(s.log, p.mine.data.id, NewMessages(ch.result, |p.context|), ch.runError), pid, p.mine)
    ensures
      var s' := ExecRunStep(s, pid, p, ch);
      pid in s'.procs && s'.procs == s.procs[pid := s'.procs[pid]] && ProcOk(s'.table, s'.log, s'.clock, pid, s'.procs[pid])
  {
    hide SubmitOk, ResetOk, SpeechOk, NewMessages, Faithful;
  }

  lemma RunLands(s: Sys, pid: nat, p: Proc, ch: Choice)
    requires TableInv(s.table, s.log, s.nextSession) && p.ExecRun? && Mine(s.table, s.log, pid, p.mine)
    requires p.mine.data.id !in s.log.runs
    ensures Landed(s, ExecRunStep(s, pid, p, ch), pid)
  {
    hide ProcOk, LogOk, TableInv, Evolves, KeepsClaims;
    var result := NewMessages(ch.result, |p.context|);
    var s', log' := ExecRunStep(s, pid, p, ch), RunLog(s.log, p.mine.data.id, result, ch.runError);
    RunKeeps(s.table, s.log, s.nextSession, p.mine.data.id, result, ch.runError);
    RunIsMine(s.table, s.log, pid, p.mine, result, ch.runError);
    RunGoesOn(s, pid, p, ch);
    Refl(s.table);
    Land(s, pid, s.table, log', s.nextSession, Some(s'.procs[pid]));
  }

  lemma FinishLands(env: Env, s: Sys, pid: nat, p: Proc, expires: int)
    requires TableInv(s.table, s.log, s.nextSession) && p.FinishCommit? && MayFinish(s.table, p.mine, p.e) && Targets(s.table, p.mine, p.row)
    requires TxMatches(s.table, FinishTx(env, p, expires))
    ensures Landed(s, Stop(s.(table := TxApply(s.table, FinishTx(env, p, expires))), pid), pid)
  {
    FinishKeeps(s.table, s.log, s.nextSession, env, p, expires);
    SameClaims(s.log, s.log, pid);
    Land(s, pid, TxApply(s.table, FinishTx(env, p, expires)), s.log, s.nextSession, None);
  }

  // ----- Every action -----

  predicate Commits(p: Proc) {
    p.SubmitCommit? || p.ResetCommit? || p.ResumeCommit? || p.SpeechRepeat? || p.SpeechCommit? || p.ExecClaim? || p.FinishCommit?
  }

  ghost predicate Lands(s: Sys, s': Sys, pid: nat) { Moved(s, s', pid) || Landed(s, s', pid) }

  lemma SubmitLandsOrStops(s: Sys, pid: nat, p: Proc, ch: Choice)
    requires TableInv(s.table, s.log, s.nextSession) && p.SubmitCommit? && ProcOk(s.table, s.log, s.clock, pid, p)
    ensures Lands(s, SubmitCommitStep(s, pid, p, ch), pid)
  {
    if SubmitCommitStep(s, pid, p, ch) != Stop(s, pid) { SubmitLands(s, pid, p, ch); }
  }

  lemma ResetLandsOrStops(s: Sys, pid: nat, p: Proc, ch: Choice)
    requires TableInv(s.table, s.log, s.nextSession) && p.ResetCommit? && ProcOk(s.table, s.log, s.clock, pid, p)
    ensures Lands(s, ResetCommitStep(s, pid, p, ch), pid)
  {
    if TxMatches(s.table, ResetTx(p, s.nextSession)) && ch.fence { ResetLands(s, pid, p, ch); }
  }

  lemma ResumeLands(s: Sys, pid: nat, p: Proc, ch: Choice)
    requires TableInv(s.table, s.log, s.nextSession) && p.ResumeCommit? && ProcOk(s.table, s.log, s.clock, pid, p)
    ensures Lands(s, ResumeCommitStep(s, pid, p, ch), pid)
  {
    hide TableInv, TxApply, TxMatches;
    var v := p.row.data.(ask := p.ask);
    if TxMatches(s.table, SessionTx(p.id.device, p.row, v, Window(s, ch))) && ch.fence {
      TouchLands(s, pid, p.id.device, p.row, v, Window(s, ch));
    }
  }

  lemma RepeatLands(s: Sys, pid: nat, p: Proc, ch: Choice)
    requires TableInv(s.table, s.log, s.nextSession) && p.SpeechRepeat? && ProcOk(s.table, s.log, s.clock, pid, p)
    ensures Lands(s, SpeechRepeatStep(s, pid, p, ch), pid)
  {
    hide TableInv, TxApply, TxMatches;
    if TxMatches(s.table, SessionTx(p.id.device, p.row, p.row.data, Window(s, ch))) && ch.fence {
      TouchLands(s, pid, p.id.device, p.row, p.row.data, Window(s, ch));
    }
  }

  lemma SpeechLandsOrStops(env: Env, s: Sys, pid: nat, p: Proc, ch: Choice)
    requires NoticesFit(env) && TableInv(s.table, s.log, s.nextSession)
    requires p.SpeechCommit? && ProcOk(s.table, s.log, s.clock, pid, p)
    ensures Lands(s, SpeechCommitStep(env, s, pid, p, ch), pid)
  {
    hide TableInv, SpokenSession;
    var v := SpokenSession(env, p.row.data, p.state, p.text);
    if TxMatches(s.table, SessionTx(p.id.device, p.row, v, Window(s, ch))) && ch.fence {
      SpeechDecision(s.table, s.log, s.nextSession, p, v, Window(s, ch));
      SpeechLands(env, s, pid, p.id.device, p.row, p.state, p.text, Window(s, ch));
    }
  }

  lemma ClaimLandsOrStops(s: Sys, pid: nat, p: Proc, ch: Choice)
    requires TableInv(s.table, s.log, s.nextSession) && p.ExecClaim? && ProcOk(s.table, s.log, s.clock, pid, p)
    ensures Lands(s, ExecClaimStep(s, pid, p, ch), pid)
  {
    if TxMatches(s.table, ClaimTx(p.x, p.pending)) && ch.fence { ClaimLands(s, pid, p, ch); }
  }

  lemma FinishLandsOrStops(env: Env, s: Sys, pid: nat, p: Proc, ch: Choice)
    requires TableInv(s.table, s.log, s.nextSession) && p.FinishCommit? && ProcOk(s.table, s.log, s.clock, pid, p)
    ensures Lands(s, FinishCommitStep(env, s, pid, p, ch), pid)
  {
    hide SubmitOk, ResetOk, SpeechOk, ExecuteOk, Landed, MayFinish, Targets, Faithful, TxApply, TxMatches, TableInv, FinishTx;
    if TxMatches(s.table, FinishTx(env, p, Window(s, ch))) && ch.fence { FinishLands(env, s, pid, p, Window(s, ch)); }
  }

  // The step that each kind of commit takes.
  lemma CommitSteps(env: Env, s: Sys, pid: nat, p: Proc, ch: Choice)
    requires pid in s.procs && p == s.procs[pid]
    ensures
      var s' := Step(env, s, Advance(pid, ch));
      && (p.SubmitCommit? ==> s' == SubmitCommitStep(s, pid, p, ch))
      && (p.ResetCommit? ==> s' == ResetCommitStep(s, pid, p, ch))
      && (p.ResumeCommit? ==> s' == ResumeCommitStep(s, pid, p, ch))
      && (p.SpeechRepeat? ==> s' == SpeechRepeatStep(s, pid, p, ch))
      && (p.SpeechCommit? ==> s' == SpeechCommitStep(env, s, pid, p, ch))
      && (p.ExecClaim? ==> s' == ExecClaimStep(s, pid, p, ch))
      && (p.FinishCommit? ==> s' == FinishCommitStep(env, s, pid, p, ch))
      && (p.ExecRun? ==> s' == ExecRunStep(s, pid, p, ch))
  {
    hide SubmitCommitStep, ResetCommitStep, ResumeCommitStep, SpeechRepeatStep, SpeechCommitStep, ExecClaimStep,
         FinishCommitStep, ExecRunStep;
  }

  lemma CommitLands(env: Env, s: Sys, pid: nat, p: Proc, ch: Choice)
    requires NoticesFit(env) && TableInv(s.table, s.log, s.nextSession)
    requires pid in s.procs && p == s.procs[pid] && Commits(p) && ProcOk(s.table, s.log, s.clock, pid, p)
    ensures Lands(s, Step(env, s, Advance(pid, ch)), pid)
  {
    hide TableInv, Lands, ProcOk, Step, SubmitCommitStep, ResetCommitStep, ResumeCommitStep, SpeechRepeatStep, SpeechCommitStep,
         ExecClaimStep, FinishCommitStep;
    CommitSteps(env, s, pid, p, ch);
    if p.SubmitCommit? { SubmitLandsOrStops(s, pid, p, ch); }
    if p.ResetCommit? { ResetLandsOrStops(s, pid, p, ch); }
    if p.ResumeCommit? { ResumeLands(s, pid, p, ch); }
    if p.SpeechRepeat? { RepeatLands(s, pid, p, ch); }
    if p.SpeechCommit? { SpeechLandsOrStops(env, s, pid, p, ch); }
    if p.ExecClaim? { ClaimLandsOrStops(s, pid, p, ch); }
    if p.FinishCommit? { FinishLandsOrStops(env, s, pid, p, ch); }
  }

  lemma ReadMoves(env: Env, s: Sys, pid: nat, p: Proc, ch: Choice)
    requires NoticesFit(env) && Inv(s) && pid in s.procs && p == s.procs[pid] && !Commits(p) && !p.ExecRun?
    ensures Moved(s, Step(env, s, Advance(pid, ch)), pid)
  {
    hide TableInv;
    InvReadFacts(s);
    assert ProcOk(s.table, s.log, s.clock, pid, p);
    if IsSubmit(p) { SubmitReads(s, pid, p, ch); }
    else if IsReset(p) { ResetReads(s, pid, p, ch); }
    else if IsSpeech(p) { SpeechReads(env, s, pid, p, ch); }
    else if IsExecute(p) { ExecuteReads(env, s, pid, p, ch); }
    else { FinishReads(env, s, pid, p, ch); }
  }

  lemma AdvanceLands(env: Env, s: Sys, pid: nat, ch: Choice)
    requires NoticesFit(env) && Inv(s) && pid in s.procs
    ensures Lands(s, Step(env, s, Advance(pid, ch)), pid)
  {
    hide Inv, TableInv, ProcOk, Step, ExecRunStep, Landed, Moved;
    var p := s.procs[pid];
    InvTable(s);
    InvProcAt(s, pid);
    if Commits(p) {
      CommitLands(env, s, pid, p, ch);
    } else if p.ExecRun? {
      RunnerClaimed(s, pid, p);
      CommitSteps(env, s, pid, p, ch);
      RunLands(s, pid, p, ch);
    } else {
      ReadMoves(env, s, pid, p, ch);
    }
  }

  lemma RunnerClaimed(s: Sys, pid: nat, p: Proc)
    requires p.ExecRun? && ProcOk(s.table, s.log, s.clock, pid, p)
    ensures Mine(s.table, s.log, pid, p.mine) && p.mine.data.id !in s.log.runs
  {
    hide SubmitOk, ResetOk, SpeechOk, FinishOk, Mine;
  }

  lemma StepKeeps(env: Env, s: Sys, a: Action)
    requires NoticesFit(env) && Inv(s)
    ensures Inv(Step(env, s, a)) && Evolves(s.table, Step(env, s, a).table)
  {
    hide Inv, Evolves, StepSubmit, StepReset, StepSpeech, StepExecute, StepFinish;
    Refl(s.table);
    match a
    case Tick(ms) => TickKeeps(s, ms);
    case Start(pid, entry) => if pid !in s.procs && Begins(entry) { StartKeeps(s, pid, entry); }
    case Crash(pid) => Stops(s, pid); MovedKeeps(s, Stop(s, pid), pid);
    case Advance(pid, ch) =>
      if pid in s.procs {
        AdvanceLands(env, s, pid, ch);
        LandedKeeps(s, Step(env, s, a), pid);
      }
  }

  lemma TickKeeps(s: Sys, ms: nat)
    requires Inv(s)
    ensures Inv(s.(clock := s.clock + ms))
  {
    hide ProcOk, TableInv, Evolves;
    Refl(s.table);
    if 0 in s.procs { ProcStays(s.table, s.log, s.clock, s.table, s.log, s.clock + ms, 0, s.procs[0]); }
    Assemble(s, s.(clock := s.clock + ms), 0);
  }

  lemma StartKeeps(s: Sys, pid: nat, entry: Proc)
    requires Inv(s) && Begins(entry)
    ensures Inv(To(s, pid, entry))
  {
    hide Inv;
    Goes(s, pid, entry);
    MovedKeeps(s, To(s, pid, entry), pid);
  }

  // ----- Parts of the invariant -----

  lemma InvProcAt(s: Sys, pid: nat)
    requires Inv(s) && pid in s.procs
    ensures ProcOk(s.table, s.log, s.clock, pid, s.procs[pid])
  {
  }

  lemma InvTable(s: Sys)
    requires Inv(s)
    ensures TableInv(s.table, s.log, s.nextSession)
  {
  }

  // A step of process pid moves no other process.
  lemma AdvancesAlone(env: Env, s: Sys, pid: nat, p: Proc, ch: Choice)
    requires NoticesFit(env) && Inv(s) && pid in s.procs && p == s.procs[pid]
    ensures
      var s' := Step(env, s, Advance(pid, ch));
      forall q :: q in s'.procs && q != pid ==> q in s.procs && s'.procs[q] == s.procs[q]
  {
    hide Inv, TableInv, ProcOk, Step, Evolves, KeepsClaims;
    AdvanceLands(env, s, pid, ch);
  }
}
