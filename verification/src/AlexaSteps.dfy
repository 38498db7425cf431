// Every step of every process keeps the invariant of AlexaSafety.
module AlexaSteps {
  import opened Prelude
  import opened Store
  import opened Conversation
  import opened Trimming
  import opened AlexaProtocol
  import opened AlexaSafety

  // ----- Transactions as map updates -----

  lemma ApplyPut<K, V>(rows: map<K, Row<V>>, k: K, c: Change<V>)
    requires c.after.Some?
    ensures Apply(rows, map[k := c]) == rows[k := c.after.value]
    ensures Matches(rows, map[k := c]) ==> Holds(Get(rows, k), c)
  {
    var tx := map[k := c];
    assert k in tx && tx[k] == c;
  }

  lemma ApplyPair<K, V>(rows: map<K, Row<V>>, k: K, c: Change<V>, m: K, e: Change<V>)
    requires c.after.Some? && e.after.Some? && k != m
    ensures Apply(rows, map[k := c] + map[m := e]) == rows[k := c.after.value][m := e.after.value]
    ensures Matches(rows, map[k := c] + map[m := e]) ==> Holds(Get(rows, k), c) && Holds(Get(rows, m), e)
  {
    var tx := map[k := c] + map[m := e];
    assert k in tx && tx[k] == c && m in tx && tx[m] == e;
  }

  lemma ApplyNone<K, V>(rows: map<K, Row<V>>)
    ensures Apply(rows, map[]) == rows
  {
  }

  // ----- Frame: a session and its turns that a commit did not touch -----

  ghost predicate SameTurns(a: Table, b: Table, d: string) {
    forall x :: x in a.turns && x.device == d ==> x in b.turns && b.turns[x] == a.turns[x]
  }

  ghost predicate SameLog(a: Table, la: Log, lb: Log, d: string, sid: nat) {
    && (sid in la.submitted && sid in la.spoken ==>
          sid in lb.submitted && sid in lb.spoken
          && lb.submitted[sid] == la.submitted[sid] && lb.spoken[sid] == la.spoken[sid])
    && (forall x :: x in a.turns && x.device == d ==> Heard(lb, x) == Heard(la, x))
    && (d in lb.cleared ==> d in la.cleared)
  }

  lemma OtherSession(a: Table, la: Log, na: nat, b: Table, lb: Log, nb: nat, d: string)
    requires d in a.sessions && d in b.sessions && b.sessions[d] == a.sessions[d] && na <= nb
    requires SessionOk(a, la, na, d)
    requires SameTurns(a, b, d) && SameLog(a, la, lb, d, a.sessions[d].data.id)
    ensures SessionOk(b, lb, nb, d)
  {
    var s := a.sessions[d].data;
    forall i | 0 <= i < |s.replies|
      ensures ReplyOk(b, lb, d, s.id, s.replies[i])
    {
      assert ReplyOk(a, la, d, s.id, s.replies[i]);
    }
    forall i | 0 <= i < |s.history|
      ensures HistoryOk(b, d, s.id, s.history[i].receipt)
    {
      assert HistoryOk(a, d, s.id, s.history[i].receipt);
    }
  }

  // The log's facts survive when only session sid's entries and device d's turns change.
  lemma OtherSubmitted(a: Table, la: Log, b: Table, lb: Log, sid: nat)
    requires sid in la.submitted && sid in la.spoken && SubmittedOk(a, la, sid)
    requires sid in lb.submitted && sid in lb.spoken
    requires lb.submitted[sid] == la.submitted[sid] && lb.spoken[sid] == la.spoken[sid]
    requires Evolves(a, b)
    ensures SubmittedOk(b, lb, sid)
  {
    forall i | 0 <= i < |lb.submitted[sid]|
      ensures lb.submitted[sid][i] in b.turns && b.turns[lb.submitted[sid][i]].data.sessionId == sid
    {
      var x := la.submitted[sid][i];
      assert x in a.turns && TurnStep(a.turns[x], b.turns[x]);
    }
  }

  // An answer told stays told while no more of it is heard.
  lemma ToldStays(a: Table, la: Log, b: Table, lb: Log, x: Receipt)
    requires ToldOk(a, la, x) && Evolves(a, b)
    requires x in lb.told && lb.told[x] == la.told[x] && Heard(lb, x) == Heard(la, x)
    requires forall sid :: sid in la.spoken ==> sid in lb.spoken && la.spoken[sid] <= lb.spoken[sid]
    ensures ToldOk(b, lb, x)
  {
    assert TurnStep(a.turns[x], b.turns[x]);
    var sid := a.turns[x].data.sessionId;
    assert la.spoken[sid] <= lb.spoken[sid];
    var i :| 0 <= i < |la.spoken[sid]| && la.spoken[sid][i] == x;
    assert lb.spoken[sid][i] == x;
  }

  // ----- Steps that only read -----

  // What a read is sure of, whichever row it returns.
  ghost predicate ReadFacts(t: Table) {
    && (forall d :: d in t.sessions ==> SnapOk(t, d, t.sessions[d]))
    && (forall x :: x in t.turns ==> t.turns[x].data.id == x && t.turns[x].data.ident.device == x.device)
  }

  lemma InvReadFacts(s: Sys)
    requires Inv(s)
    ensures ReadFacts(s.table)
  {
    forall d | d in s.table.sessions
      ensures SnapOk(s.table, d, s.table.sessions[d])
    {
      assert SessionOk(s.table, s.log, s.nextSession, d);
    }
    forall x | x in s.table.turns
      ensures s.table.turns[x].data.id == x && s.table.turns[x].data.ident.device == x.device
    {
      assert TurnOk(s.table, s.log, x);
    }
  }

  // Only process pid changed, to a point it is entitled to.
  ghost predicate Moved(s: Sys, s': Sys, pid: nat) {
    s' == Stop(s, pid)
    || (pid in s'.procs && s' == To(s, pid, s'.procs[pid]) && ProcOk(s.table, s.log, s.clock, pid, s'.procs[pid]))
  }

  lemma MovedKeeps(s: Sys, s': Sys, pid: nat)
    requires Inv(s) && Moved(s, s', pid)
    ensures Inv(s')
  {
    Assemble(s, s', pid);
  }

  lemma Stops(s: Sys, pid: nat)
    ensures Moved(s, Stop(s, pid), pid)
  {
  }

  lemma Goes(s: Sys, pid: nat, q: Proc)
    requires ProcOk(s.table, s.log, s.clock, pid, q)
    ensures Moved(s, To(s, pid, q), pid)
  {
    hide ProcOk;
  }

  lemma SubmitReads(s: Sys, pid: nat, p: Proc, ch: Choice)
    requires ReadFacts(s.table) && ProcOk(s.table, s.log, s.clock, pid, p) && IsSubmit(p) && !p.SubmitCommit?
    ensures Moved(s, StepSubmit(s, pid, p, ch), pid)
  {
    hide SubmitPriorStep, SubmitSessionStep, SubmitLockStep, SubmitNowStep, SubmitPreviousStep, SubmitPublishStep,
         SubmitUnpublishedStep, SubmitCommitStep, ProcOk, ReadFacts, Moved;
    if p.SubmitPrior? || p.SubmitSession? || p.SubmitLock? || p.SubmitNow? { SubmitReadsOn(s, pid, p, ch); }
    if p.SubmitPrevious? { SubmitReadsPrevious(s, pid, p); }
    if p.SubmitPublish? || p.SubmitUnpublished? { SubmitPublishes(s, pid, p, ch); }
  }

  lemma SubmitReadsOn(s: Sys, pid: nat, p: Proc, ch: Choice)
    requires ReadFacts(s.table) && ProcOk(s.table, s.log, s.clock, pid, p)
    ensures p.SubmitPrior? ==> Moved(s, SubmitPriorStep(s, pid, p, ch), pid)
    ensures p.SubmitSession? ==> Moved(s, SubmitSessionStep(s, pid, p), pid)
    ensures p.SubmitLock? ==> Moved(s, SubmitLockStep(s, pid, p), pid)
    ensures p.SubmitNow? ==> Moved(s, SubmitNowStep(s, pid, p), pid)
  {
    hide SpeechOk, ExecuteOk, FinishOk, Faithful, BlankSession;
  }

  lemma SubmitPublishes(s: Sys, pid: nat, p: Proc, ch: Choice)
    requires ReadFacts(s.table)
    ensures p.SubmitPublish? ==> Moved(s, SubmitPublishStep(s, pid, p, ch), pid)
    ensures p.SubmitUnpublished? ==> Moved(s, SubmitUnpublishedStep(s, pid, p), pid)
  {
    hide ResetOk, SpeechOk, ExecuteOk;
    if p.SubmitUnpublished? && p.x in s.table.turns { assert s.table.turns[p.x].data.id == p.x; }
  }

  lemma SubmitReadsPrevious(s: Sys, pid: nat, p: Proc)
    requires ReadFacts(s.table) && p.SubmitPrevious? && ProcOk(s.table, s.log, s.clock, pid, p)
    ensures Moved(s, SubmitPreviousStep(s, pid, p), pid)
  {
    hide ResetOk, SpeechOk, ExecuteOk, FinishOk, Moved, To;
    var x := p.row.data.lastTurn.value;
    assert x in s.table.turns && s.table.turns[x].data.id == x;
    Stops(s, pid);
    if Active(s.table.turns[x].data.state) {
      Goes(s, pid, SubmitCommit(p.a, p.settings, p.row, p.held, p.now, Some(s.table.turns[x])));
    } else {
      Goes(s, pid, SubmitCommit(p.a, p.settings, p.row, p.held, p.now, None));
    }
  }

  lemma ResetReads(s: Sys, pid: nat, p: Proc, ch: Choice)
    requires ReadFacts(s.table) && ProcOk(s.table, s.log, s.clock, pid, p)
    requires p.ResetSession? || p.ResetTurn? || p.ResetLock? || p.ResumeRead?
    ensures Moved(s, StepReset(s, pid, p, ch), pid)
  {
    hide ResetSessionStep, ResetTurnStep, ResetLockStep, ResumeReadStep, ResetCommitStep, ResumeCommitStep, ProcOk, ReadFacts, Moved;
    if p.ResetSession? { ResetStarts(s, pid, p); }
    else if p.ResetTurn? { ResetReadsTurn(s, pid, p); }
    else { ResetReadsOn(s, pid, p); }
  }

  lemma ResetStarts(s: Sys, pid: nat, p: Proc)
    requires ReadFacts(s.table) && p.ResetSession?
    ensures Moved(s, ResetSessionStep(s, pid, p), pid)
  {
    hide SubmitOk, SpeechOk, ExecuteOk, FinishOk, Faithful, Owned, Moved, To;
    var row, blank := Get(s.table.sessions, p.id.device), BlankSession(p.id, p.ask, s.clock);
    var expires := Unix(s.clock) + if p.start then RECOVERY_WINDOW else 0;
    if row.Some? && row.value.data.lastTurn.Some? { Goes(s, pid, ResetTurn(p.id, row.value, blank, expires, p.next)); }
    else { Goes(s, pid, ResetCommit(p.id, row, blank, expires, p.next, None, None)); }
  }

  lemma ResetReadsOn(s: Sys, pid: nat, p: Proc)
    requires ReadFacts(s.table) && ProcOk(s.table, s.log, s.clock, pid, p)
    ensures p.ResetLock? ==> Moved(s, ResetLockStep(s, pid, p), pid)
    ensures p.ResumeRead? ==> Moved(s, ResumeReadStep(s, pid, p), pid)
  {
    hide SubmitOk, SpeechOk, ExecuteOk, FinishOk, SnapOk, PrevOk;
  }

  lemma ResetReadsTurn(s: Sys, pid: nat, p: Proc)
    requires ReadFacts(s.table) && p.ResetTurn? && ProcOk(s.table, s.log, s.clock, pid, p)
    ensures Moved(s, ResetTurnStep(s, pid, p), pid)
  {
    hide SubmitOk, SpeechOk, ExecuteOk, FinishOk, Moved, To;
    if p.row.data.lastTurn.Some? {
      var x := p.row.data.lastTurn.value;
      assert x in s.table.turns && s.table.turns[x].data.id == x;
      var active := if Active(s.table.turns[x].data.state) then Some(s.table.turns[x]) else None;
      Goes(s, pid, ResetLock(p.id, p.row, p.blank, p.expires, p.next, active));
    } else {
      Goes(s, pid, ResetLock(p.id, p.row, p.blank, p.expires, p.next, None));
    }
  }

  // ----- Speech: how a head answer is decided -----

  // A stored answer is waiting to be decided, or decided.
  ghost predicate HeadsDecided(t: Table) {
    forall d :: d in t.sessions && t.sessions[d].data.replies != [] ==>
      var head := t.sessions[d].data.replies[0]; head.state == Pending || !Active(head.state)
  }

  lemma InvHeadsDecided(s: Sys)
    requires Inv(s)
    ensures HeadsDecided(s.table)
  {
    forall d | d in s.table.sessions && s.table.sessions[d].data.replies != []
      ensures var head := s.table.sessions[d].data.replies[0]; head.state == Pending || !Active(head.state)
    {
      assert SessionOk(s.table, s.log, s.nextSession, d);
      assert ReplyOk(s.table, s.log, d, s.table.sessions[d].data.id, s.table.sessions[d].data.replies[0]);
    }
  }

  lemma SpeechStarts(s: Sys, pid: nat, p: Proc)
    requires ReadFacts(s.table) && HeadsDecided(s.table) && p.SpeechRead?
    ensures Moved(s, SpeechReadStep(s, pid, p), pid)
  {
    hide SubmitOk, ResetOk, ExecuteOk, FinishOk, Faithful, Owned, Moved, To, Stop;
    Stops(s, pid);
    if p.id.device in s.table.sessions {
      var row := s.table.sessions[p.id.device];
      Goes(s, pid, SpeechRepeat(p.id, p.again, row, p.attempt));
      if row.data.replies != [] && Active(row.data.replies[0].state) { Goes(s, pid, SpeechTurn(p.id, p.again, row, p.attempt)); }
      if row.data.replies != [] && !Active(row.data.replies[0].state) {
        Goes(s, pid, SpeechCommit(p.id, p.again, row, row.data.replies[0].state, row.data.replies[0].text, p.attempt));
      }
    }
  }

  // A decided turn whose queued answer is still undecided was interrupted.
  lemma UndecidedHead(s: Sys, d: string, row: Row<Session>, x: Receipt)
    requires Inv(s) && SnapOk(s.table, d, row) && row.data.replies != [] && Active(row.data.replies[0].state)
    requires x == row.data.replies[0].receipt && x in s.table.turns
    requires Current(s.table.sessions, d, row) && !Active(s.table.turns[x].data.state)
    ensures s.table.turns[x].data.state == Failed && s.table.turns[x].data.failure == WorkerInterrupted
  {
    assert SessionOk(s.table, s.log, s.nextSession, d);
    assert s.table.sessions[d] == row;
    assert ReplyOk(s.table, s.log, d, row.data.id, row.data.replies[0]);
  }

  // A head whose turn has no answer is spoken as failed.
  lemma GoesToSpeak(env: Env, s: Sys, pid: nat, p: Proc, text: string)
    requires p.SpeechTurn? && ProcOk(s.table, s.log, s.clock, pid, p) && |text| <= CHUNK
    ensures Moved(s, To(s, pid, SpeechCommit(p.id, p.again, p.row, Failed, text, p.attempt)), pid)
  {
    hide Moved, SubmitOk, ResetOk, ExecuteOk, FinishOk, SnapOk, To, Current;
    Goes(s, pid, SpeechCommit(p.id, p.again, p.row, Failed, text, p.attempt));
  }

  lemma SpeechReadsTurn(env: Env, s: Sys, pid: nat, p: Proc, ch: Choice)
    requires NoticesFit(env) && ReadFacts(s.table) && p.SpeechTurn? && ProcOk(s.table, s.log, s.clock, pid, p)
    requires
      var x := p.row.data.replies[0].receipt;
      x in s.table.turns && Current(s.table.sessions, p.id.device, p.row) && !Active(s.table.turns[x].data.state) ==>
        s.table.turns[x].data.state == Failed && s.table.turns[x].data.failure == WorkerInterrupted
    ensures Moved(s, SpeechTurnStep(env, s, pid, p, ch), pid)
  {
    hide Moved, SubmitOk, ResetOk, ExecuteOk, FinishOk, SnapOk, To, Stop;
    var x := p.row.data.replies[0].receipt;
    Stops(s, pid);
    GoesToSpeak(env, s, pid, p, env.say(ExpiredAnswer));
    GoesToSpeak(env, s, pid, p, env.safe(env.say(TimedOut)));
    if x in s.table.turns { Goes(s, pid, SpeechView(p.id, p.again, p.row, s.table.turns[x], p.attempt)); }
  }

  // An interrupted turn has no stored answer anywhere, so its view is the interruption notice.
  lemma InterruptedView(env: Env, s: Sys, d: string, t: Turn)
    requires Inv(s) && d in s.table.sessions
    requires t.state == Failed && t.failure == WorkerInterrupted
    requires t.id in s.table.turns && s.table.turns[t.id].data == t
    ensures ViewText(env, t, s.table.sessions[d].data) == env.say(Failure(WorkerInterrupted))
  {
    hide LogOk, TurnsOk, ProcsOk, HistoryAnswer, StoredAnswer, Blank, HistoryOk, Heard;
    var session := s.table.sessions[d].data;
    assert SessionOk(s.table, s.log, s.nextSession, d);
    forall i | 0 <= i < |session.replies| && session.replies[i].receipt == t.id
      ensures session.replies[i].state != Complete
    {
      assert ReplyOk(s.table, s.log, d, session.id, session.replies[i]);
    }
    NoStoredAnswer(session.replies, t.id);
  }

  lemma SpeechViews(env: Env, s: Sys, pid: nat, p: Proc)
    requires NoticesFit(env) && p.SpeechView? && ProcOk(s.table, s.log, s.clock, pid, p)
    requires
      p.id.device in s.table.sessions && Current(s.table.sessions, p.id.device, p.row) && !Active(p.turn.data.state) ==>
        ViewText(env, p.turn.data, s.table.sessions[p.id.device].data) == env.say(Failure(WorkerInterrupted))
    ensures Moved(s, SpeechViewStep(env, s, pid, p), pid)
  {
    hide SubmitOk, ResetOk, ExecuteOk, FinishOk, SnapOk, Faithful, ViewText;
  }

  lemma SpeechReads(env: Env, s: Sys, pid: nat, p: Proc, ch: Choice)
    requires NoticesFit(env) && Inv(s) && pid in s.procs && p == s.procs[pid]
    requires p.SpeechRead? || p.SpeechTurn? || p.SpeechView?
    ensures Moved(s, StepSpeech(env, s, pid, p, ch), pid)
  {
    hide TableInv, SpeechReadStep, SpeechTurnStep, SpeechViewStep, SpeechRepeatStep, SpeechCommitStep, ReadFacts, HeadsDecided, Moved,
         SnapOk, ViewText;
    InvReadFacts(s);
    InvHeadsDecided(s);
    if p.SpeechRead? {
      SpeechStarts(s, pid, p);
    } else if p.SpeechTurn? {
      var x := p.row.data.replies[0].receipt;
      if x in s.table.turns && Current(s.table.sessions, p.id.device, p.row) && !Active(s.table.turns[x].data.state) {
        UndecidedHead(s, p.id.device, p.row, x);
      }
      SpeechReadsTurn(env, s, pid, p, ch);
    } else {
      if p.id.device in s.table.sessions && Current(s.table.sessions, p.id.device, p.row) && !Active(p.turn.data.state) {
        InterruptedView(env, s, p.id.device, p.turn.data);
      }
      SpeechViews(env, s, pid, p);
    }
  }

  // ----- Workers -----

  lemma ExecuteStarts(s: Sys, pid: nat, p: Proc)
    requires ReadFacts(s.table) && p.ExecRead?
    ensures Moved(s, ExecReadStep(s, pid, p), pid)
  {
    hide SubmitOk, ResetOk, SpeechOk, SnapOk;
    if p.x in s.table.turns { assert s.table.turns[p.x].data.id == p.x; }
  }

  // The worker that claimed a turn may end it.
  lemma GoesToFinish(s: Sys, pid: nat, mine: Row<Turn>, e: Ending)
    requires Mine(s.table, s.log, pid, mine) && !Active(e.status)
    ensures Moved(s, To(s, pid, FinishRead(mine, e, 0)), pid)
  {
    hide SubmitOk, ResetOk, SpeechOk, ExecuteOk, Moved, To, Faithful;
    Goes(s, pid, FinishRead(mine, e, 0));
  }

  lemma ChecksTurn(s: Sys, pid: nat, p: Proc, ch: Choice)
    requires p.CheckTurn? && ProcOk(s.table, s.log, s.clock, pid, p)
    ensures Moved(s, CheckTurnStep(s, pid, p, ch), pid)
  {
    hide Moved, SubmitOk, ResetOk, SpeechOk, Faithful, To;
    GoesToFinish(s, pid, p.mine, Ending(NO_RESULT, Cancelled, SettingsChanged));
    Goes(s, pid, CheckSession(p.mine, p.done));
  }

  lemma ChecksSession(env: Env, s: Sys, pid: nat, p: Proc)
    requires p.CheckSession? && ProcOk(s.table, s.log, s.clock, pid, p)
    ensures Moved(s, CheckSessionStep(env, s, pid, p), pid)
  {
    hide Moved, SubmitOk, ResetOk, SpeechOk, Faithful, To, Flatten, Trim;
    GoesToFinish(s, pid, p.mine, Ending(NO_RESULT, Cancelled, SettingsChanged));
    if p.done.None? {
      Goes(s, pid, ExecHistory(p.mine));
    } else {
      GoesToFinish(s, pid, p.mine, Ending(p.done.value, Failed, ExecutionFailed));
      GoesToFinish(s, pid, p.mine, Ending(p.done.value, Complete, NoReason));
    }
  }

  lemma LoadsHistory(s: Sys, pid: nat, p: Proc)
    requires p.ExecHistory? && ProcOk(s.table, s.log, s.clock, pid, p)
    ensures Moved(s, ExecHistoryStep(s, pid, p), pid)
  {
    hide SubmitOk, ResetOk, SpeechOk, FinishOk, Mine, Flatten;
  }

  lemma ExecuteReads(env: Env, s: Sys, pid: nat, p: Proc, ch: Choice)
    requires ReadFacts(s.table) && ProcOk(s.table, s.log, s.clock, pid, p)
    requires IsExecute(p) && !p.ExecClaim? && !p.ExecRun?
    ensures Moved(s, StepExecute(env, s, pid, p, ch), pid)
  {
    hide ExecReadStep, ExecClaimStep, CheckTurnStep, CheckSessionStep, ExecHistoryStep, ExecRunStep, ProcOk, ReadFacts, Moved;
    match p
    case ExecRead(_) => ExecuteStarts(s, pid, p);
    case CheckTurn(_, _) => ChecksTurn(s, pid, p, ch);
    case CheckSession(_, _) => ChecksSession(env, s, pid, p);
    case ExecHistory(_) => LoadsHistory(s, pid, p);
  }

  lemma FinishReads(env: Env, s: Sys, pid: nat, p: Proc, ch: Choice)
    requires ReadFacts(s.table) && ProcOk(s.table, s.log, s.clock, pid, p)
    requires p.FinishRead? || p.FinishLock?
    ensures Moved(s, StepFinish(env, s, pid, p, ch), pid)
  {
    hide FinishReadStep, FinishLockStep, FinishCommitStep, ProcOk, ReadFacts, Moved;
    match p
    case FinishRead(_, _, _) => FinishReadsSession(s, pid, p);
    case FinishLock(_, _, _, _) => FinishReadsLock(s, pid, p);
  }

  lemma FinishReadsSession(s: Sys, pid: nat, p: Proc)
    requires ReadFacts(s.table) && p.FinishRead? && ProcOk(s.table, s.log, s.clock, pid, p)
    ensures Moved(s, FinishReadStep(s, pid, p), pid)
  {
    hide SubmitOk, ResetOk, SpeechOk, ExecuteOk, Faithful, Owned, Moved, To;
    var row := Get(s.table.sessions, p.mine.data.ident.device);
    Stops(s, pid);
    if row.Some? && row.value.data.id == p.mine.data.sessionId && row.value.data.lastTurn == Some(p.mine.data.id) {
      Goes(s, pid, FinishLock(p.mine, p.e, p.attempt, row.value));
    }
  }

  lemma FinishReadsLock(s: Sys, pid: nat, p: Proc)
    requires p.FinishLock? && ProcOk(s.table, s.log, s.clock, pid, p)
    ensures Moved(s, FinishLockStep(s, pid, p), pid)
  {
    hide SubmitOk, ResetOk, SpeechOk, ExecuteOk, MayFinish, Targets;
  }
}
