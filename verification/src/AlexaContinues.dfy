// Which session a request goes on with: its own unexpired one, kept as it is, and no other;
// only when there is none is the Echo's session reset first.
module AlexaContinues {
  import opened Prelude
  import opened Store
  import opened Conversation
  import opened AlexaProtocol
  import opened AlexaSafety
  import opened AlexaCommits
  import opened AlexaWrites
  import opened AlexaTheorems
  import opened AlexaAnswers
  import opened AlexaLock
  import opened AlexaMoments

  // The session that request a belongs to: kept still, of the same Alexa session, grant and generation.
  predicate Continuable(s: Sys, a: Ask, row: Row<Session>) {
    row.expires > Unix(s.clock) && row.data.ask == a.ask && row.data.grant == a.id.grant && row.data.generation == a.id.generation
  }

  predicate CanContinue(s: Sys, a: Ask) {
    a.id.device in s.table.sessions && Continuable(s, a, s.table.sessions[a.id.device])
  }

  // ----- Step by step -----

  // A Submit of a that goes on with session row.
  ghost predicate GoingOn(s: Sys, pid: nat, a: Ask, row: Row<Session>) {
    && pid in s.procs && (s.procs[pid].SubmitLock? || s.procs[pid].SubmitNow? || s.procs[pid].SubmitPrevious? || s.procs[pid].SubmitCommit?)
    && s.procs[pid].a == a && s.procs[pid].row == row
  }

  // It read row just now: continuable, or left by the Reset it had launched.
  ghost predicate ReadSession(s: Sys, p: Proc, a: Ask, row: Row<Session>) {
    && p.SubmitSession? && p.a == a && Get(s.table.sessions, a.id.device) == Some(row) && |row.data.replies| < MAX_PENDING_REPLIES
    && (!p.launched ==> Continuable(s, a, row))
  }

  // A Reset that a Submit of a launched.
  ghost predicate Resetting(s: Sys, pid: nat, a: Ask) {
    && pid in s.procs && (s.procs[pid].ResetSession? || s.procs[pid].ResetTurn? || s.procs[pid].ResetLock? || s.procs[pid].ResetCommit?)
    && s.procs[pid].next.Some? && s.procs[pid].next.value.0 == a
  }

  ghost predicate Launches(s: Sys, p: Proc, a: Ask) { p.SubmitSession? && !p.launched && p.a == a && !CanContinue(s, a) }

  // A Submit of a whose Reset is done.
  ghost predicate Launched(s: Sys, pid: nat, a: Ask) { pid in s.procs && s.procs[pid].SubmitSession? && s.procs[pid].launched && s.procs[pid].a == a }

  ghost predicate ResetLands(env: Env, s: Sys, p: Proc, ch: Choice, a: Ask) {
    p.ResetCommit? && p.next.Some? && p.next.value.0 == a && Passes(env, s, p, ch)
  }

  // What a step of process pid may have led to.
  ghost predicate Led(env: Env, s: Sys, s': Sys, pid: nat, p: Proc, ch: Choice, a: Ask, row: Row<Session>) {
    && (GoingOn(s', pid, a, row) ==> GoingOn(s, pid, a, row) || ReadSession(s, p, a, row))
    && (Resetting(s', pid, a) ==> Resetting(s, pid, a) || Launches(s, p, a))
    && (Launched(s', pid, a) ==> ResetLands(env, s, p, ch, a))
  }

  lemma StepLeads(env: Env, s: Sys, pid: nat, p: Proc, ch: Choice, a: Ask, row: Row<Session>)
    requires NoticesFit(env) && Inv(s) && pid in s.procs && p == s.procs[pid]
    ensures Led(env, s, Step(env, s, Advance(pid, ch)), pid, p, ch, a, row)
  {
    hide Inv, StepSubmit, StepReset, StepSpeech, StepExecute, StepFinish, Led;
    if IsSubmit(p) { SubmitLeads(env, s, pid, p, ch, a, row); }
    else if IsReset(p) { ResetLeads(env, s, pid, p, ch, a, row); }
    else if IsSpeech(p) { SpeechLeads(env, s, pid, p, ch, a, row); }
    else if IsExecute(p) { ExecuteLeads(env, s, pid, p, ch, a, row); }
    else { FinishLeads(env, s, pid, p, ch, a, row); }
  }

  lemma SubmitLeads(env: Env, s: Sys, pid: nat, p: Proc, ch: Choice, a: Ask, row: Row<Session>)
    requires IsSubmit(p) && pid in s.procs && p == s.procs[pid]
    ensures Led(env, s, StepSubmit(s, pid, p, ch), pid, p, ch, a, row)
  {
    hide SubmitPriorStep, SubmitSessionStep, SubmitLockStep, SubmitNowStep, SubmitPreviousStep, SubmitCommitStep, SubmitPublishStep,
         SubmitUnpublishedStep, Led;
    if p.SubmitSession? { SessionLeads(env, s, pid, p, ch, a, row); }
    else if p.SubmitLock? || p.SubmitNow? || p.SubmitPrevious? { GoesOnLeads(env, s, pid, p, ch, a, row); }
    else { OtherSubmitLeads(env, s, pid, p, ch, a, row); }
  }

  lemma SessionLeads(env: Env, s: Sys, pid: nat, p: Proc, ch: Choice, a: Ask, row: Row<Session>)
    requires p.SubmitSession?
    ensures Led(env, s, SubmitSessionStep(s, pid, p), pid, p, ch, a, row)
  {
    hide Passes;
  }

  lemma GoesOnLeads(env: Env, s: Sys, pid: nat, p: Proc, ch: Choice, a: Ask, row: Row<Session>)
    requires pid in s.procs && p == s.procs[pid]
    ensures p.SubmitLock? ==> Led(env, s, SubmitLockStep(s, pid, p), pid, p, ch, a, row)
    ensures p.SubmitNow? ==> Led(env, s, SubmitNowStep(s, pid, p), pid, p, ch, a, row)
    ensures p.SubmitPrevious? ==> Led(env, s, SubmitPreviousStep(s, pid, p), pid, p, ch, a, row)
  {
    hide Passes, ReadSession, Launches, CanContinue;
  }

  lemma OtherSubmitLeads(env: Env, s: Sys, pid: nat, p: Proc, ch: Choice, a: Ask, row: Row<Session>)
    ensures p.SubmitPrior? ==> Led(env, s, SubmitPriorStep(s, pid, p, ch), pid, p, ch, a, row)
    ensures p.SubmitCommit? ==> Led(env, s, SubmitCommitStep(s, pid, p, ch), pid, p, ch, a, row)
    ensures p.SubmitPublish? ==> Led(env, s, SubmitPublishStep(s, pid, p, ch), pid, p, ch, a, row)
    ensures p.SubmitUnpublished? ==> Led(env, s, SubmitUnpublishedStep(s, pid, p), pid, p, ch, a, row)
  {
    hide Passes, ReadSession, Launches, TxApply, TxMatches, SubmitTx, SubmitLog;
  }

  lemma ResetLeads(env: Env, s: Sys, pid: nat, p: Proc, ch: Choice, a: Ask, row: Row<Session>)
    requires IsReset(p) && pid in s.procs && p == s.procs[pid]
    ensures Led(env, s, StepReset(s, pid, p, ch), pid, p, ch, a, row)
  {
    hide ResetSessionStep, ResetTurnStep, ResetLockStep, ResetCommitStep, ResumeReadStep, ResumeCommitStep, Led;
    if p.ResetCommit? { ResetCommitLeads(env, s, pid, p, ch, a, row); } else { ResetReadLeads(env, s, pid, p, ch, a, row); }
  }

  lemma ResetCommitLeads(env: Env, s: Sys, pid: nat, p: Proc, ch: Choice, a: Ask, row: Row<Session>)
    requires p.ResetCommit?
    ensures Led(env, s, ResetCommitStep(s, pid, p, ch), pid, p, ch, a, row)
  {
    hide ReadSession, Launches, TxApply, TxMatches, ResetTx, ResetLog;
  }

  lemma ResetReadLeads(env: Env, s: Sys, pid: nat, p: Proc, ch: Choice, a: Ask, row: Row<Session>)
    requires pid in s.procs && p == s.procs[pid]
    ensures p.ResetSession? ==> Led(env, s, ResetSessionStep(s, pid, p), pid, p, ch, a, row)
    ensures p.ResetTurn? ==> Led(env, s, ResetTurnStep(s, pid, p), pid, p, ch, a, row)
    ensures p.ResetLock? ==> Led(env, s, ResetLockStep(s, pid, p), pid, p, ch, a, row)
    ensures p.ResumeRead? ==> Led(env, s, ResumeReadStep(s, pid, p), pid, p, ch, a, row)
    ensures p.ResumeCommit? ==> Led(env, s, ResumeCommitStep(s, pid, p, ch), pid, p, ch, a, row)
  {
    hide Passes, ReadSession, Launches, BlankSession, TxApply, TxMatches, SessionTx;
  }

  ghost predicate Elsewhere(s': Sys, pid: nat) { pid in s'.procs ==> !IsSubmit(s'.procs[pid]) && !IsReset(s'.procs[pid]) }

  lemma ElsewhereLeads(env: Env, s: Sys, s': Sys, pid: nat, p: Proc, ch: Choice, a: Ask, row: Row<Session>)
    requires Elsewhere(s', pid)
    ensures Led(env, s, s', pid, p, ch, a, row)
  {
    hide Passes, ReadSession, Launches;
  }

  lemma SpeechStaysElsewhere(env: Env, s: Sys, pid: nat, p: Proc, ch: Choice)
    requires IsSpeech(p)
    ensures Elsewhere(StepSpeech(env, s, pid, p, ch), pid)
  {
    hide TxApply, TxMatches, SessionTx, SpokenSession, SpokenLog, ViewText;
  }

  lemma SpeechLeads(env: Env, s: Sys, pid: nat, p: Proc, ch: Choice, a: Ask, row: Row<Session>)
    requires IsSpeech(p)
    ensures Led(env, s, StepSpeech(env, s, pid, p, ch), pid, p, ch, a, row)
  {
    hide StepSpeech;
    SpeechStaysElsewhere(env, s, pid, p, ch);
    ElsewhereLeads(env, s, StepSpeech(env, s, pid, p, ch), pid, p, ch, a, row);
  }

  lemma ExecuteStaysElsewhere(env: Env, s: Sys, pid: nat, p: Proc, ch: Choice)
    requires IsExecute(p)
    ensures Elsewhere(StepExecute(env, s, pid, p, ch), pid)
  {
    hide RunLog, TxApply, TxMatches, ClaimTx, NewMessages, Trim;
  }

  lemma ExecuteLeads(env: Env, s: Sys, pid: nat, p: Proc, ch: Choice, a: Ask, row: Row<Session>)
    requires IsExecute(p)
    ensures Led(env, s, StepExecute(env, s, pid, p, ch), pid, p, ch, a, row)
  {
    hide StepExecute;
    ExecuteStaysElsewhere(env, s, pid, p, ch);
    ElsewhereLeads(env, s, StepExecute(env, s, pid, p, ch), pid, p, ch, a, row);
  }

  lemma FinishStaysElsewhere(env: Env, s: Sys, pid: nat, p: Proc, ch: Choice)
    requires IsFinish(p)
    ensures Elsewhere(StepFinish(env, s, pid, p, ch), pid)
  {
    hide TxApply, TxMatches, FinishTx;
  }

  lemma FinishLeads(env: Env, s: Sys, pid: nat, p: Proc, ch: Choice, a: Ask, row: Row<Session>)
    requires IsFinish(p)
    ensures Led(env, s, StepFinish(env, s, pid, p, ch), pid, p, ch, a, row)
  {
    hide StepFinish;
    FinishStaysElsewhere(env, s, pid, p, ch);
    ElsewhereLeads(env, s, StepFinish(env, s, pid, p, ch), pid, p, ch, a, row);
  }

  // ----- Over runs -----

  lemma {:induction false} WhereItWentOn(env: Env, actions: seq<Action>, n: nat, pid: nat, a: Ask, row: Row<Session>) returns (k: nat)
    requires NoticesFit(env) && n <= |actions| && GoingOn(At(env, actions, n), pid, a, row)
    ensures k < n && pid in At(env, actions, k).procs && ReadSession(At(env, actions, k), At(env, actions, k).procs[pid], a, row)
  {
    hide At, Inv, Said, Step, ReadSession, Launches, ResetLands;
    HowItGotThere(env, actions, n, pid);
    AtNext(env, actions, n - 1);
    var s, c := At(env, actions, n - 1), actions[n - 1];
    if Advanced(env, actions, n, pid) { StepLeads(env, s, pid, s.procs[pid], c.ch, a, row); }
    if GoingOn(s, pid, a, row) { k := WhereItWentOn(env, actions, n - 1, pid, a, row); } else { k := n - 1; }
  }

  lemma {:induction false} WhyItResets(env: Env, actions: seq<Action>, n: nat, pid: nat, a: Ask) returns (k: nat)
    requires NoticesFit(env) && n <= |actions| && Resetting(At(env, actions, n), pid, a)
    ensures k < n && pid in At(env, actions, k).procs && Launches(At(env, actions, k), At(env, actions, k).procs[pid], a)
  {
    hide At, Inv, Said, Step, ReadSession, Launches, ResetLands;
    HowItGotThere(env, actions, n, pid);
    AtNext(env, actions, n - 1);
    var s, c := At(env, actions, n - 1), actions[n - 1];
    if Advanced(env, actions, n, pid) { StepLeads(env, s, pid, s.procs[pid], c.ch, a, NoRow()); }
    if Resetting(s, pid, a) { k := WhyItResets(env, actions, n - 1, pid, a); } else { k := n - 1; }
  }

  function NoRow(): Row<Session> { Row(0, 0, BlankSession(Identity("", "", ""), "", 0)) }

  // At moment k, process pid committed the Reset that its Submit of a had launched.
  ghost predicate ResetAt(env: Env, actions: seq<Action>, k: nat, pid: nat, a: Ask)
    requires k < |actions|
  {
    var s, c := At(env, actions, k), actions[k];
    c.Advance? && c.pid == pid && pid in s.procs && ResetLands(env, s, s.procs[pid], c.ch, a)
  }

  lemma {:induction false} WhereItReset(env: Env, actions: seq<Action>, n: nat, pid: nat, a: Ask) returns (k: nat)
    requires NoticesFit(env) && n <= |actions| && Launched(At(env, actions, n), pid, a)
    ensures k < n && ResetAt(env, actions, k, pid, a)
  {
    hide At, Inv, Said, Step, ReadSession, Launches, ResetLands;
    HowItGotThere(env, actions, n, pid);
    AtNext(env, actions, n - 1);
    var s, c := At(env, actions, n - 1), actions[n - 1];
    if Advanced(env, actions, n, pid) {
      StepLeads(env, s, pid, s.procs[pid], c.ch, a, NoRow());
      k := n - 1;
    } else {
      k := WhereItReset(env, actions, n - 1, pid, a);
    }
  }

  // ----- What the commits write -----

  // A request's turn as it waits for a worker, accepted at now.
  ghost predicate Waits(u: Turn, a: Ask, settings: int, session: nat, now: int) {
    && u.id == ReceiptOf(a) && u.ident == a.id && u.input == a.text && u.state == Pending && u.failure == NoReason
    && u.sessionId == session && u.settings == settings && u.deadline == now + WORKER_BUDGET
  }

  // The session with one more answer to come, and all else as it was.
  ghost predicate OneMoreQueued(a: Session, b: Session, x: Receipt) {
    && b == a.(lastTurn := Some(x), replies := b.replies)
    && |b.replies| == |a.replies| + 1 && b.replies[..|a.replies|] == a.replies && b.replies[|a.replies|] == Reply(x, Pending, "", 0)
  }

  lemma SubmitWrites(env: Env, s: Sys, pid: nat, p: Proc, ch: Choice)
    requires NoticesFit(env) && Inv(s) && pid in s.procs && p == s.procs[pid] && p.SubmitCommit? && Passes(env, s, p, ch)
    ensures
      var x, d, t' := ReceiptOf(p.a), p.a.id.device, Step(env, s, Advance(pid, ch)).table;
      && Get(s.table.sessions, d) == Some(p.row) && x !in s.table.turns
      && d in t'.sessions && OneMoreQueued(p.row.data, t'.sessions[d].data, x)
      && x in t'.turns && Waits(t'.turns[x].data, p.a, p.settings, p.row.data.id, p.now)
      && (forall e :: e in s.table.sessions && e != d ==> e in t'.sessions && t'.sessions[e] == s.table.sessions[e])
  {
    hide Inv, Step, ProcOk, Apply, Matches, Faithful, SubmitMoves;
    InvProcAt(s, pid);
    SubmitterKnows(s, pid, p);
    PassedWrites(env, s, pid, p, ch);
    SubmitAddsTurn(s.table, p, Unix(p.now) + RECOVERY_WINDOW);
    NewTurn(s.table, TxApply(s.table, SubmitTx(p, Unix(p.now) + RECOVERY_WINDOW)), p);
    PutSession(s.table, p.a.id.device, p.row, SubmittedSession(p.row.data, ReceiptOf(p.a)), Unix(p.now) + RECOVERY_WINDOW);
    assert Get(s.table.sessions, p.a.id.device) == Some(p.row) by { Present(s.table, p.a.id.device, p.row); }
  }

  lemma Present(t: Table, d: string, row: Row<Session>)
    requires Faithful(t.sessions, d, row)
    ensures d in t.sessions
  {
  }

  lemma NewTurn(t: Table, t': Table, p: Proc)
    requires p.SubmitCommit? && SubmitMoves(t, t', ReceiptOf(p.a), SubmittedTurn(p.a, p.settings, p.row.data.id, p.now), p.prev)
    ensures ReceiptOf(p.a) !in t.turns && ReceiptOf(p.a) in t'.turns
    ensures Waits(t'.turns[ReceiptOf(p.a)].data, p.a, p.settings, p.row.data.id, p.now)
  {
  }

  lemma SubmitterKnows(s: Sys, pid: nat, p: Proc)
    requires p.SubmitCommit? && ProcOk(s.table, s.log, s.clock, pid, p)
    ensures Faithful(s.table.sessions, p.a.id.device, p.row) && PrevOk(s.table, p.row.data.lastTurn, p.prev)
  {
    hide ResetOk, SpeechOk, ExecuteOk, FinishOk, Faithful, Owned, PrevOk;
  }

  // A fresh session of ask for id.
  ghost predicate Fresh(v: Session, id: Identity, ask: string, sid: nat) {
    && v.id == sid && v.ask == ask && v.grant == id.grant && v.generation == id.generation && v.lastTurn.None?
    && v.history == [] && v.turns == 0 && v.replies == [] && v.lastSpeech == "" && v.lastSpeechReceipt.None?
  }

  // ----- Main results -----

  // Over every run: a Submit that commits goes on with the session row it read and that is still
  // stored, and keeps its history, queue and settings. Unless it launched a Reset that committed
  // before, that row was unexpired when read, and has the request's ask, grant and generation.
  lemma SubmitGoesOnWithItsOwnSession(env: Env, actions: seq<Action>, n: nat) returns (k: nat)
    requires NoticesFit(env) && n < |actions| && actions[n].Advance? && actions[n].pid in At(env, actions, n).procs
    requires
      var s, p := At(env, actions, n), At(env, actions, n).procs[actions[n].pid];
      p.SubmitCommit? && Passes(env, s, p, actions[n].ch)
    ensures k < n && actions[n].pid in At(env, actions, k).procs && At(env, actions, k).procs[actions[n].pid].SubmitSession?
    ensures
      var s, t, p := At(env, actions, n), At(env, actions, n + 1).table, At(env, actions, n).procs[actions[n].pid];
      var x, d, row := ReceiptOf(p.a), p.a.id.device, p.row;
      && Get(At(env, actions, k).table.sessions, d) == Some(row) && Get(s.table.sessions, d) == Some(row)
      && (if At(env, actions, k).procs[actions[n].pid].launched then exists j: nat :: j < k && ResetAt(env, actions, j, actions[n].pid, p.a)
          else Continuable(At(env, actions, k), p.a, row))
      && d in t.sessions && OneMoreQueued(row.data, t.sessions[d].data, x)
      && x in t.turns && Waits(t.turns[x].data, p.a, p.settings, row.data.id, p.now)
  {
    hide At, Inv, Said, Step, Passes, ResetAt;
    var s, pid := At(env, actions, n), actions[n].pid;
    var p := s.procs[pid];
    AtNext(env, actions, n);
    k := WhereItWentOn(env, actions, n, pid, p.a, p.row);
    if At(env, actions, k).procs[pid].launched { var j := WhereItReset(env, actions, k, pid, p.a); }
    SubmitWrites(env, s, pid, p, actions[n].ch);
  }

  // Over every run: a Submit resets its Echo's session only when, as it read it, there was no
  // unexpired one with the request's ask, grant and generation.
  lemma ResetsOnlyWhenNeeded(env: Env, actions: seq<Action>, n: nat, pid: nat, a: Ask) returns (k: nat)
    requires NoticesFit(env) && n <= |actions| && Resetting(At(env, actions, n), pid, a)
    ensures k < n && pid in At(env, actions, k).procs && At(env, actions, k).procs[pid].SubmitSession?
    ensures At(env, actions, k).procs[pid].a == a && !CanContinue(At(env, actions, k), a)
  {
    hide At, Inv, Said, Step;
    k := WhyItResets(env, actions, n, pid, a);
  }

  // And from such a session a Submit goes on without a Reset, unless its queue is full.
  lemma ContinuesWhenItCan(env: Env, s: Sys, pid: nat, ch: Choice)
    requires pid in s.procs && s.procs[pid].SubmitSession? && CanContinue(s, s.procs[pid].a)
    ensures
      var p, s' := s.procs[pid], Step(env, s, Advance(pid, ch));
      var row := s.table.sessions[p.a.id.device];
      && s'.table == s.table
      && (if |row.data.replies| >= MAX_PENDING_REPLIES then pid !in s'.procs else GoingOn(s', pid, p.a, row))
  {
    hide SubmitPriorStep, SubmitLockStep, SubmitNowStep, SubmitPreviousStep, SubmitCommitStep, SubmitPublishStep, SubmitUnpublishedStep;
  }
}
