// From the model to the ear: what a conversation remembers and says about a request is
// what the one model run of that very request answered, or a fixed notice.
module AlexaAnswers {
  import opened Prelude
  import opened Store
  import opened Conversation
  import opened Trimming
  import opened AlexaProtocol
  import opened AlexaSafety
  import opened AlexaSteps
  import opened AlexaCommits
  import opened AlexaEndings
  import opened AlexaTheorems
  import opened AlexaResults

  ghost predicate Notice(env: Env, text: string) {
    text == env.say(TimedOut) || text == env.say(ExpiredAnswer) || exists reason :: text == env.say(Failure(reason))
  }

  // text is the sanitised answer of x's own model run.
  ghost predicate OwnAnswer(env: Env, log: Log, x: Receipt, text: string) {
    x in log.answers && text == env.safe(log.answers[x].text)
  }

  ghost predicate ReplySaid(env: Env, log: Log, r: Reply) {
    && (r.state == Complete ==> OwnAnswer(env, log, r.receipt, r.text))
    && (r.state == Failed || r.state == Cancelled ==> Notice(env, r.text))
  }

  // The exchange kept for x is what x's own run added, whole or cut to its two ends.
  ghost predicate ExchangeSaid(log: Log, h: Exchange) {
    h.receipt in log.answers && KeptOf(h, Exchange(h.receipt, log.answers[h.receipt].messages))
  }

  ghost predicate SessionSaid(env: Env, log: Log, v: Session) {
    && (forall i :: 0 <= i < |v.replies| ==> ReplySaid(env, log, v.replies[i]))
    && (forall i :: 0 <= i < |v.history| ==> ExchangeSaid(log, v.history[i]))
  }

  ghost predicate ToldSaid(env: Env, log: Log, x: Receipt)
    requires x in log.told
  {
    OwnAnswer(env, log, x, log.told[x]) || Notice(env, log.told[x])
  }

  ghost predicate ProcSaid(env: Env, t: Table, log: Log, p: Proc) {
    match p
    case CheckTurn(mine, done) => done.Some? ==> mine.data.id in log.answers && log.answers[mine.data.id] == done.value
    case CheckSession(mine, done) => done.Some? ==> mine.data.id in log.answers && log.answers[mine.data.id] == done.value
    case FinishRead(mine, e, _) => EndingSaid(log, mine.data.id, e)
    case FinishLock(mine, e, _, _) => EndingSaid(log, mine.data.id, e)
    case FinishCommit(mine, e, _, _, _) => EndingSaid(log, mine.data.id, e)
    case SpeechCommit(id, _, row, _, text, _) =>
      row.data.replies != [] && Active(row.data.replies[0].state) && Current(t.sessions, id.device, row) ==> Notice(env, text)
    case _ => true
  }

  ghost predicate EndingSaid(log: Log, x: Receipt, e: Ending) {
    e.status == Complete ==> x in log.answers && log.answers[x] == e.result
  }

  ghost predicate Said(env: Env, s: Sys) {
    && (forall x :: x in s.log.answers ==> x in s.log.runs)
    && (forall d :: d in s.table.sessions ==> SessionSaid(env, s.log, s.table.sessions[d].data))
    && (forall x :: x in s.log.told ==> ToldSaid(env, s.log, x))
    && (forall pid :: pid in s.procs ==> ProcSaid(env, s.table, s.log, s.procs[pid]))
  }

  // Answers already given stay as they are.
  ghost predicate AnswersGrow(a: Log, b: Log) {
    forall x :: x in a.answers ==> x in b.answers && b.answers[x] == a.answers[x]
  }

  lemma SessionStays(env: Env, a: Log, b: Log, v: Session)
    requires SessionSaid(env, a, v) && AnswersGrow(a, b)
    ensures SessionSaid(env, b, v)
  {
    forall i | 0 <= i < |v.replies|
      ensures ReplySaid(env, b, v.replies[i])
    {
      assert ReplySaid(env, a, v.replies[i]);
    }
    forall i | 0 <= i < |v.history|
      ensures ExchangeSaid(b, v.history[i])
    {
      assert ExchangeSaid(a, v.history[i]);
    }
  }

  lemma ProcStaysSaid(env: Env, t: Table, a: Log, t': Table, b: Log, clock: nat, pid: nat, p: Proc)
    requires ProcSaid(env, t, a, p) && AnswersGrow(a, b) && Evolves(t, t') && ProcOk(t, a, clock, pid, p)
    ensures ProcSaid(env, t', b, p)
  {
    if p.SpeechCommit? { SnapStays(t, t', p.id.device, p.row); }
  }

  // ----- Commits -----

  // What a commit leaves in one session and in the delivery record.
  ghost predicate SaysOn(env: Env, s: Sys, t': Table, log': Log) {
    && AnswersGrow(s.log, log')
    && (forall d :: d in t'.sessions ==> SessionSaid(env, log', t'.sessions[d].data))
    && (forall x :: x in log'.told ==> ToldSaid(env, log', x))
    && (forall x :: x in log'.answers ==> x in log'.runs)
  }

  // Only session d changed, to v.
  lemma OneSessionSays(env: Env, s: Sys, t': Table, log': Log, d: string, v: Session)
    requires Said(env, s) && d in t'.sessions && t'.sessions == s.table.sessions[d := t'.sessions[d]] && t'.sessions[d].data == v
    requires SessionSaid(env, s.log, v)
    requires log'.answers == s.log.answers && log'.runs == s.log.runs && log'.told == s.log.told
    ensures SaysOn(env, s, t', log')
  {
    forall e | e in t'.sessions
      ensures SessionSaid(env, log', t'.sessions[e].data)
    {
      if e != d { SessionStays(env, s.log, log', s.table.sessions[e].data); } else { SessionStays(env, s.log, log', v); }
    }
    forall x | x in log'.told
      ensures ToldSaid(env, log', x)
    {
      assert ToldSaid(env, s.log, x);
    }
  }

  lemma SubmitSays(env: Env, s: Sys, p: Proc, expires: int)
    requires Said(env, s) && p.SubmitCommit? && SnapOk(s.table, p.a.id.device, p.row) && TxMatches(s.table, SubmitTx(p, expires))
    ensures SaysOn(env, s, TxApply(s.table, SubmitTx(p, expires)), SubmitLog(s.log, p))
  {
    var d, x := p.a.id.device, ReceiptOf(p.a);
    var v := SubmittedSession(p.row.data, x);
    PutSession(s.table, d, p.row, v, expires);
    assert SessionSaid(env, s.log, p.row.data);
    forall i | 0 <= i < |v.replies|
      ensures ReplySaid(env, s.log, v.replies[i])
    {
      if i < |p.row.data.replies| { assert v.replies[i] == p.row.data.replies[i]; }
    }
    OneSessionSays(env, s, TxApply(s.table, SubmitTx(p, expires)), SubmitLog(s.log, p), d, v);
  }

  lemma ResetSays(env: Env, s: Sys, p: Proc)
    requires Said(env, s) && p.ResetCommit? && Blank(p.blank) && TxMatches(s.table, ResetTx(p, s.nextSession))
    requires p.old_.Some? ==> SnapOk(s.table, p.id.device, p.old_.value)
    ensures SaysOn(env, s, TxApply(s.table, ResetTx(p, s.nextSession)), ResetLog(s.log, p.id.device, s.nextSession))
  {
    var t', v := TxApply(s.table, ResetTx(p, s.nextSession)), p.blank.(id := s.nextSession);
    ResetPut(s.table, t', p.id.device, p.old_, v, p.expires);
    OneSessionSays(env, s, t', ResetLog(s.log, p.id.device, s.nextSession), p.id.device, v);
  }

  lemma TouchSays(env: Env, s: Sys, d: string, row: Row<Session>, v: Session, expires: int)
    requires Said(env, s) && SnapOk(s.table, d, row) && v.replies == row.data.replies && v.history == row.data.history
    requires TxMatches(s.table, SessionTx(d, row, v, expires))
    ensures SaysOn(env, s, TxApply(s.table, SessionTx(d, row, v, expires)), s.log)
  {
    PutSession(s.table, d, row, v, expires);
    assert SessionSaid(env, s.log, row.data);
    OneSessionSays(env, s, TxApply(s.table, SessionTx(d, row, v, expires)), s.log, d, v);
  }

  lemma ClaimSays(env: Env, s: Sys, pid: nat, x: Receipt, row: Row<Turn>)
    requires Said(env, s)
    ensures SaysOn(env, s, TxApply(s.table, ClaimTx(x, row)), s.log.(claimed := s.log.claimed[x := pid]))
  {
    var log' := s.log.(claimed := s.log.claimed[x := pid]);
    ApplyNone(s.table.sessions);
    forall d | d in s.table.sessions
      ensures SessionSaid(env, log', s.table.sessions[d].data)
    {
      SessionStays(env, s.log, log', s.table.sessions[d].data);
    }
    forall y | y in log'.told
      ensures ToldSaid(env, log', y)
    {
      assert ToldSaid(env, s.log, y);
    }
  }

  lemma FinishSays(env: Env, s: Sys, p: Proc, expires: int)
    requires Said(env, s) && Inv(s) && p.FinishCommit? && MayFinish(s.table, p.mine, p.e) && Targets(s.table, p.mine, p.row)
    requires EndingSaid(s.log, p.mine.data.id, p.e) && TxMatches(s.table, FinishTx(env, p, expires))
    ensures SaysOn(env, s, TxApply(s.table, FinishTx(env, p, expires)), s.log)
  {
    hide Inv, FinishReplies, FinishedTurn, ReplySaid, ExchangeSaid;
    var d, x := p.mine.data.ident.device, p.mine.data.id;
    var v := FinishedSession(env, p.row.data, x, p.e);
    PutSession(s.table, d, p.row, v, expires);
    DistinctReplies(s, d);
    assert SessionSaid(env, s.log, p.row.data);
    FinishedReplies(env, s.log, p.row.data.replies, x, p.e);
    FinishedHistory(env, s.log, p.row.data, x, p.e);
    OneSessionSays(env, s, TxApply(s.table, FinishTx(env, p, expires)), s.log, d, v);
  }

  lemma DistinctReplies(s: Sys, d: string)
    requires Inv(s) && d in s.table.sessions
    ensures NoDuplicates(Receipts(s.table.sessions[d].data.replies))
  {
    DistinctAt(s.table, s.log, s.nextSession, d);
  }

  lemma FinishedReplies(env: Env, log: Log, replies: seq<Reply>, x: Receipt, e: Ending)
    requires NoDuplicates(Receipts(replies)) && EndingSaid(log, x, e) && !Active(e.status)
    requires forall i :: 0 <= i < |replies| ==> ReplySaid(env, log, replies[i])
    ensures
      var after := FinishReplies(env, replies, x, e).0;
      forall i :: 0 <= i < |after| ==> ReplySaid(env, log, after[i])
  {
    var text := if e.status == Complete then env.safe(e.result.text) else env.say(Failure(e.reason));
    MarkedReplies(replies, x, e.status, text);
    MarkedReplies(replies, x, Failed, env.say(Failure(ReplyLimit)));
  }

  lemma FinishedHistory(env: Env, log: Log, v: Session, x: Receipt, e: Ending)
    requires EndingSaid(log, x, e) && NoDuplicates(Receipts(v.replies)) && !Active(e.status)
    requires forall i :: 0 <= i < |v.history| ==> ExchangeSaid(log, v.history[i])
    ensures
      var h := FinishedSession(env, v, x, e).history;
      forall i :: 0 <= i < |h| ==> ExchangeSaid(log, h[i])
  {
    FinishSettles(env, v.replies, x, e);
    var kept := FinishReplies(env, v.replies, x, e).1;
    if kept.status == Complete && kept.result.messages != [] {
      var all := v.history + [Exchange(x, kept.result.messages)];
      forall i | 0 <= i < |Trimmed(env.historyBytes, all)|
        ensures ExchangeSaid(log, Trimmed(env.historyBytes, all)[i])
      {
        TrimmedKeepsExchanges(env.historyBytes, all, i);
        var j :| 0 <= j < |all| && KeptOf(Trimmed(env.historyBytes, all)[i], all[j]);
        if j < |v.history| { assert ExchangeSaid(log, v.history[j]); }
      }
    }
  }

  // What Speech takes off the queue is the head's answer, or a notice.
  lemma SpokenToldSaid(env: Env, s: Sys, p: Proc)
    requires Said(env, s) && p.SpeechCommit? && p.row.data.replies != [] && SessionSaid(env, s.log, p.row.data)
    requires
      var head := p.row.data.replies[0];
      && (if Active(head.state) then Notice(env, p.text) else p.text == head.text)
      && (head.state != Pending ==> !Active(head.state)) && (Active(head.state) ==> head.state == Pending)
    ensures
      var log' := SpokenLog(env, s.log, p.row.data, p.text);
      && AnswersGrow(s.log, log') && log'.answers == s.log.answers && log'.runs == s.log.runs
      && forall x :: x in log'.told ==> ToldSaid(env, log', x)
  {
    hide Piece, Heard, ChunkText, Notice;
    assert ReplySaid(env, s.log, p.row.data.replies[0]);
    var log' := SpokenLog(env, s.log, p.row.data, p.text);
    forall x | x in log'.told
      ensures ToldSaid(env, log', x)
    {
      if x in s.log.told && log'.told[x] == s.log.told[x] { ToldKept(env, s.log, log', x); }
    }
  }

  lemma SpeechKnows(env: Env, s: Sys, p: Proc)
    requires p.SpeechCommit? && DecidedOk(s.table, p.id.device, p.row, p.state, p.text) && ProcSaid(env, s.table, s.log, p)
    requires Current(s.table.sessions, p.id.device, p.row)
    ensures
      var head := p.row.data.replies[0];
      if Active(head.state) then Notice(env, p.text) && |p.text| <= CHUNK else p.state == head.state && p.text == head.text
  {
    hide Notice;
  }

  lemma SpokenSays(env: Env, s: Sys, p: Proc, expires: int)
    requires NoticesFit(env) && Said(env, s) && Inv(s) && p.SpeechCommit? && p.row.data.replies != []
    requires SnapOk(s.table, p.id.device, p.row) && DecidedOk(s.table, p.id.device, p.row, p.state, p.text)
    requires ProcSaid(env, s.table, s.log, p)
    requires TxMatches(s.table, SessionTx(p.id.device, p.row, SpokenSession(env, p.row.data, p.state, p.text), expires))
    ensures SaysOn(env, s, TxApply(s.table, SessionTx(p.id.device, p.row, SpokenSession(env, p.row.data, p.state, p.text), expires)),
                   SpokenLog(env, s.log, p.row.data, p.text))
  {
    hide Inv, Piece, Heard, ChunkText, SessionSaid, ToldSaid, SpokenSession, SpokenLog, OwnAnswer, Notice, Apply, Matches, DecidedOk;
    var d, v := p.id.device, SpokenSession(env, p.row.data, p.state, p.text);
    var t', log' := TxApply(s.table, SessionTx(d, p.row, v, expires)), SpokenLog(env, s.log, p.row.data, p.text);
    PutSession(s.table, d, p.row, v, expires);
    assert SessionSaid(env, s.log, p.row.data);
    HeadDecided(s, d, p.row);
    SpeechKnows(env, s, p);
    SpokenRepliesSaid(env, s.log, p.row.data, p.state, p.text);
    OneSessionSays(env, s, t', s.log, d, v);
    SpokenToldSaid(env, s, p);
    forall e | e in t'.sessions
      ensures SessionSaid(env, log', t'.sessions[e].data)
    {
      SessionStays(env, s.log, log', t'.sessions[e].data);
    }
  }

  lemma HeadDecided(s: Sys, d: string, row: Row<Session>)
    requires Inv(s) && d in s.table.sessions && s.table.sessions[d] == row && row.data.replies != []
    ensures
      var head := row.data.replies[0];
      && (Active(head.state) ==> head.state == Pending && head.offset == 0)
      && (head.state != Pending ==> !Active(head.state))
  {
    assert SessionOk(s.table, s.log, s.nextSession, d);
    assert ReplyOk(s.table, s.log, d, row.data.id, row.data.replies[0]);
  }

  lemma SpokenRepliesSaid(env: Env, log: Log, v: Session, state: Status, text: string)
    requires v.replies != [] && SessionSaid(env, log, v)
    requires var head := v.replies[0];
      if Active(head.state) then |text| <= CHUNK && head.offset == 0 else state == head.state && text == head.text
    ensures SessionSaid(env, log, SpokenSession(env, v, state, text))
  {
    hide ChunkText;
    var w := SpokenSession(env, v, state, text);
    assert ReplySaid(env, log, v.replies[0]);
    forall i | 0 <= i < |w.replies|
      ensures ReplySaid(env, log, w.replies[i])
    {
      if ChunkEnd(env.space, text, v.replies[0].offset) < |text| {
        if i > 0 { assert w.replies[i] == v.replies[i]; }
      } else {
        assert w.replies[i] == v.replies[i + 1];
      }
    }
  }

  // ----- Steps -----

  // Process pid moved on by reading: it knows what it may know.
  lemma ReadSays(env: Env, s: Sys, pid: nat, p: Proc, ch: Choice)
    requires NoticesFit(env) && Inv(s) && pid in s.procs && p == s.procs[pid] && !Commits(p) && !p.ExecRun?
    requires ProcSaid(env, s.table, s.log, p)
    ensures
      var s' := Step(env, s, Advance(pid, ch));
      pid in s'.procs ==> ProcSaid(env, s.table, s.log, s'.procs[pid])
  {
    hide StepSubmit, StepReset, StepSpeech, StepExecute, StepFinish;
    if IsSubmit(p) { SubmitReadSays(env, s, pid, p, ch); }
    else if IsReset(p) { ResetReadSays(env, s, pid, p, ch); }
    else if IsSpeech(p) { SpeechReadSays(env, s, pid, p, ch); }
    else if IsExecute(p) { ExecuteReadSays(env, s, pid, p, ch); }
    else { FinishReadSays(env, s, pid, p, ch); }
  }

  ghost predicate Knows(env: Env, s: Sys, s': Sys, pid: nat) { pid in s'.procs ==> ProcSaid(env, s.table, s.log, s'.procs[pid]) }

  lemma SubmitReadSays(env: Env, s: Sys, pid: nat, p: Proc, ch: Choice)
    requires IsSubmit(p) && !Commits(p)
    ensures Knows(env, s, StepSubmit(s, pid, p, ch), pid)
  {
    hide SubmitCommitStep;
  }

  lemma ResetReadSays(env: Env, s: Sys, pid: nat, p: Proc, ch: Choice)
    requires IsReset(p) && !Commits(p)
    ensures Knows(env, s, StepReset(s, pid, p, ch), pid)
  {
    hide ResetCommitStep, ResumeCommitStep, BlankSession;
  }

  lemma SpeechReadSays(env: Env, s: Sys, pid: nat, p: Proc, ch: Choice)
    requires NoticesFit(env) && Inv(s) && IsSpeech(p) && !Commits(p) && pid in s.procs && p == s.procs[pid]
    ensures Knows(env, s, StepSpeech(env, s, pid, p, ch), pid)
  {
    hide Inv, SpeechCommitStep, SpeechRepeatStep, ViewText;
    InvProcAt(s, pid);
    if p.SpeechView? && p.id.device in s.table.sessions && Current(s.table.sessions, p.id.device, p.row) && !Active(p.turn.data.state) {
      InterruptedView(env, s, p.id.device, p.turn.data);
    }
  }

  lemma ExecuteReadSays(env: Env, s: Sys, pid: nat, p: Proc, ch: Choice)
    requires IsExecute(p) && !Commits(p) && !p.ExecRun? && ProcSaid(env, s.table, s.log, p)
    ensures Knows(env, s, StepExecute(env, s, pid, p, ch), pid)
  {
    hide ExecClaimStep, ExecRunStep, Trim, Flatten;
  }

  lemma FinishReadSays(env: Env, s: Sys, pid: nat, p: Proc, ch: Choice)
    requires IsFinish(p) && !Commits(p) && ProcSaid(env, s.table, s.log, p)
    ensures Knows(env, s, StepFinish(env, s, pid, p, ch), pid)
  {
    hide FinishCommitStep;
  }

  // A commit step either changes nothing or says on; the process then holds no text,
  // or holds the ending it already had.
  lemma CommitSays(env: Env, s: Sys, pid: nat, p: Proc, ch: Choice)
    requires NoticesFit(env) && Inv(s) && Said(env, s) && pid in s.procs && p == s.procs[pid] && Commits(p)
    requires ProcOk(s.table, s.log, s.clock, pid, p)
    ensures var s' := Step(env, s, Advance(pid, ch)); SaysOn(env, s, s'.table, s'.log)
  {
    hide Inv, SaysOn, Said, EndingSaid, Mine, Faithful, SubmitTx, ResetTx, FinishTx, SessionTx, ClaimTx, SpokenSession, SpokenLog, TxApply, TxMatches, SubmitLog, ResetLog,
         DecidedOk;
    SaidHere(env, s, pid);
    var s' := Step(env, s, Advance(pid, ch));
    if s' == s.(procs := s'.procs) {
    } else {
      if p.SubmitCommit? { SubmitSays(env, s, p, Unix(p.now) + RECOVERY_WINDOW); }
      if p.ResetCommit? { ResetSays(env, s, p); }
      if p.ResumeCommit? { TouchSays(env, s, p.id.device, p.row, p.row.data.(ask := p.ask), Window(s, ch)); }
      if p.SpeechRepeat? { TouchSays(env, s, p.id.device, p.row, p.row.data, Window(s, ch)); }
      if p.SpeechCommit? { SpokenSays(env, s, p, Window(s, ch)); }
      if p.ExecClaim? { ClaimSays(env, s, pid, p.x, p.pending); }
      if p.FinishCommit? { FinishSays(env, s, p, Window(s, ch)); }
    }
  }

  lemma SaidHere(env: Env, s: Sys, pid: nat)
    requires Said(env, s) && pid in s.procs
    ensures SaysOn(env, s, s.table, s.log) && ProcSaid(env, s.table, s.log, s.procs[pid])
  {
  }

  lemma CommitArrives(env: Env, s: Sys, pid: nat, p: Proc, ch: Choice)
    requires pid in s.procs && p == s.procs[pid] && Commits(p) && ProcSaid(env, s.table, s.log, p)
    ensures
      var s' := Step(env, s, Advance(pid, ch));
      pid in s'.procs && AnswersGrow(s.log, s'.log) ==> ProcSaid(env, s'.table, s'.log, s'.procs[pid])
  {
    hide SubmitTx, ResetTx, FinishTx, SessionTx, SpokenSession, SpokenLog, TxApply, TxMatches, SubmitLog, ResetLog;
  }

  lemma ToldKept(env: Env, a: Log, b: Log, x: Receipt)
    requires x in a.told && ToldSaid(env, a, x) && AnswersGrow(a, b) && x in b.told && b.told[x] == a.told[x]
    ensures ToldSaid(env, b, x)
  {
    hide Notice;
  }

  lemma RunnerSays(env: Env, s: Sys, pid: nat, p: Proc, ch: Choice)
    requires p.ExecRun?
    ensures var s' := ExecRunStep(s, pid, p, ch); ProcSaid(env, s'.table, s'.log, s'.procs[pid])
  {
    hide NewMessages;
  }

  lemma AnswerSays(env: Env, s: Sys, x: Receipt, result: RunResult, error: Option<Reason>)
    requires Said(env, s) && x !in s.log.runs
    ensures SaysOn(env, s, s.table, RunLog(s.log, x, result, error))
  {
    hide SessionSaid, ToldSaid, ProcSaid;
    var log' := RunLog(s.log, x, result, error);
    forall d | d in s.table.sessions
      ensures SessionSaid(env, log', s.table.sessions[d].data)
    {
      SessionStays(env, s.log, log', s.table.sessions[d].data);
    }
    forall y | y in log'.told
      ensures ToldSaid(env, log', y)
    {
      ToldKept(env, s.log, log', y);
    }
  }

  lemma RunSays(env: Env, s: Sys, pid: nat, p: Proc, ch: Choice)
    requires Said(env, s) && p.ExecRun? && p.mine.data.id !in s.log.runs
    ensures
      var s' := ExecRunStep(s, pid, p, ch);
      SaysOn(env, s, s'.table, s'.log) && ProcSaid(env, s'.table, s'.log, s'.procs[pid])
  {
    hide NewMessages, SaysOn, ProcSaid, Said, RunLog;
    RunnerSays(env, s, pid, p, ch);
    AnswerSays(env, s, p.mine.data.id, NewMessages(ch.result, |p.context|), ch.runError);
  }

  // Process pid moved; what was said stays said, and everyone still knows what they knew.
  lemma AdvanceSays(env: Env, s: Sys, pid: nat, ch: Choice)
    requires NoticesFit(env) && Inv(s) && Said(env, s) && pid in s.procs
    ensures
      var s' := Step(env, s, Advance(pid, ch));
      SaysOn(env, s, s'.table, s'.log) && (pid in s'.procs ==> ProcSaid(env, s'.table, s'.log, s'.procs[pid]))
  {
    hide Inv, Said, SaysOn, ProcSaid, Evolves;
    var p := s.procs[pid];
    InvProcAt(s, pid);
    SaidHere(env, s, pid);
    if Commits(p) {
      CommitSays(env, s, pid, p, ch);
      GrowsBy(env, s, Step(env, s, Advance(pid, ch)));
      CommitArrives(env, s, pid, p, ch);
    } else if p.ExecRun? {
      RunSays(env, s, pid, p, ch);
    } else {
      ReadMoves(env, s, pid, p, ch);
      ReadSays(env, s, pid, p, ch);
    }
  }

  lemma GrowsBy(env: Env, s: Sys, s': Sys)
    requires SaysOn(env, s, s'.table, s'.log)
    ensures AnswersGrow(s.log, s'.log)
  {
  }

  lemma SaidStep(env: Env, s: Sys, a: Action)
    requires NoticesFit(env) && Inv(s) && Said(env, s)
    ensures Said(env, Step(env, s, a))
  {
    hide Inv, ProcSaid, SessionSaid, ToldSaid, Evolves, LogKeeps;
    var s' := Step(env, s, a);
    StepKeeps(env, s, a);
    if a.Advance? && a.pid in s.procs {
      AdvanceSays(env, s, a.pid, a.ch);
      AdvancesAlone(env, s, a.pid, s.procs[a.pid], a.ch);
      forall q | q in s'.procs
        ensures ProcSaid(env, s'.table, s'.log, s'.procs[q])
      {
        if q != a.pid {
          InvProcAt(s, q);
          ProcStaysSaid(env, s.table, s.log, s'.table, s'.log, s.clock, q, s.procs[q]);
        }
      }
    } else if a.Start? {
      StartSays(env, s.table, s.log, a.entry);
    }
  }

  lemma StartSays(env: Env, t: Table, log: Log, p: Proc)
    ensures Begins(p) ==> ProcSaid(env, t, log, p)
  {
  }

  lemma {:induction false} SaidThroughout(env: Env, actions: seq<Action>)
    requires NoticesFit(env)
    ensures Said(env, Run(env, INIT, actions))
  {
    hide Inv, Said, Step;
    if actions == [] {
      InitSaid(env);
    } else {
      SaidThroughout(env, actions[..|actions| - 1]);
      Reachable(env, actions[..|actions| - 1]);
      SaidStep(env, Run(env, INIT, actions[..|actions| - 1]), actions[|actions| - 1]);
    }
  }

  lemma InitSaid(env: Env)
    ensures Said(env, INIT)
  {
  }

  // ----- Main results -----

  // Whatever interleaves, an answer that was heard to its end is the sanitised text of that
  // very request's one model run, or a fixed notice; never another request's answer.
  lemma HeardAnswersAreTheModelsOwn(env: Env, actions: seq<Action>, x: Receipt)
    requires NoticesFit(env) && x in Run(env, INIT, actions).log.told
    ensures
      var log := Run(env, INIT, actions).log;
      && Heard(log, x) == log.told[x]
      && (OwnAnswer(env, log, x, Heard(log, x)) || Notice(env, Heard(log, x)))
      && (x in log.answers ==> x in log.runs)
  {
    hide Step, Run;
    SaidThroughout(env, actions);
    AnswersAreHeardInFull(env, actions, x, "", 0);
    assert ToldSaid(env, Run(env, INIT, actions).log, x);
  }

  // What a conversation keeps for later turns, and what waits to be spoken, likewise comes
  // from the run of the request it is filed under.
  lemma RememberedAnswersAreTheModelsOwn(env: Env, actions: seq<Action>, d: string, i: nat)
    requires NoticesFit(env) && d in Run(env, INIT, actions).table.sessions
    ensures
      var s := Run(env, INIT, actions);
      var v := s.table.sessions[d].data;
      && (i < |v.history| ==>
            var h := v.history[i];
            h.receipt in s.log.answers && KeptOf(h, Exchange(h.receipt, s.log.answers[h.receipt].messages)))
      && (i < |v.replies| && v.replies[i].state == Complete ==> OwnAnswer(env, s.log, v.replies[i].receipt, v.replies[i].text))
  {
    hide Step, Run;
    SaidThroughout(env, actions);
    var s := Run(env, INIT, actions);
    var v := s.table.sessions[d].data;
    assert SessionSaid(env, s.log, v);
    if i < |v.history| { assert ExchangeSaid(s.log, v.history[i]); }
    if i < |v.replies| { assert ReplySaid(env, s.log, v.replies[i]); }
  }
}
