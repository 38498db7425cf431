// What the owner hears of a request, over whole runs: when its answer was read to its end, and
// that it was the model's own answer or the notice that was due then.
module AlexaHeard {
  import opened Prelude
  import opened Store
  import opened Conversation
  import opened AlexaProtocol
  import opened AlexaSafety
  import opened AlexaTheorems
  import opened AlexaAnswers
  import opened AlexaLock
  import opened AlexaMoments
  import opened AlexaSpoken

  // Action a, in state s, is a Speech that goes through and says text of x, the head of its queue.
  ghost predicate Tells(env: Env, s: Sys, a: Action, x: Receipt, text: string) {
    && a.Advance? && a.pid in s.procs
    && var p := s.procs[a.pid];
       && p.SpeechCommit? && p.row.data.replies != [] && p.row.data.replies[0].receipt == x && p.text == text
       && Passes(env, s, p, a.ch)
  }

  ghost predicate SameTold(s: Sys, t: Sys) { t.log.told == s.log.told }

  lemma CommitTells(env: Env, s: Sys, pid: nat, p: Proc, ch: Choice)
    ensures p.SubmitCommit? ==> SameTold(s, SubmitCommitStep(s, pid, p, ch))
    ensures p.ResetCommit? ==> SameTold(s, ResetCommitStep(s, pid, p, ch))
    ensures p.ResumeCommit? ==> SameTold(s, ResumeCommitStep(s, pid, p, ch))
    ensures p.SpeechRepeat? ==> SameTold(s, SpeechRepeatStep(s, pid, p, ch))
    ensures p.FinishCommit? ==> SameTold(s, FinishCommitStep(env, s, pid, p, ch))
    ensures p.ExecClaim? ==> SameTold(s, ExecClaimStep(s, pid, p, ch))
    ensures p.ExecRun? ==> SameTold(s, ExecRunStep(s, pid, p, ch))
  {
    hide TxApply, TxMatches, SubmitTx, ResetTx, SessionTx, FinishTx, ClaimTx, NewMessages;
  }

  lemma SpeechTells(env: Env, s: Sys, pid: nat, p: Proc, ch: Choice, x: Receipt)
    requires p.SpeechCommit?
    requires
      var t := SpeechCommitStep(env, s, pid, p, ch);
      x in t.log.told && !(x in s.log.told && s.log.told[x] == t.log.told[x])
    ensures p.row.data.replies != [] && p.row.data.replies[0].receipt == x && SpeechCommitStep(env, s, pid, p, ch).log.told[x] == p.text
    ensures Passes(env, s, p, ch)
  {
    hide TxApply, TxMatches, SessionTx, SpokenSession, SpokenLog;
    if p.row.data.replies != [] { SpokenIsTold(env, s.log, p.row.data, p.text, x); }
  }

  lemma SpokenIsTold(env: Env, log: Log, s: Session, text: string, x: Receipt)
    requires s.replies != []
    ensures
      var told := SpokenLog(env, log, s, text).told;
      x in told && !(x in log.told && log.told[x] == told[x]) ==> s.replies[0].receipt == x && told[x] == text
  {
    hide Piece, ChunkEnd, Heard, Past;
  }

  lemma ToldBySpeech(env: Env, s: Sys, a: Action, x: Receipt)
    requires NoticesFit(env) && Inv(s) && x in Step(env, s, a).log.told
    requires !(x in s.log.told && s.log.told[x] == Step(env, s, a).log.told[x])
    ensures Tells(env, s, a, x, Step(env, s, a).log.told[x])
  {
    hide Inv, ProcOk, StepSubmit, StepReset, StepSpeech, StepFinish, StepExecute, SubmitCommitStep, ResetCommitStep, ResumeCommitStep,
         SpeechRepeatStep, SpeechCommitStep, FinishCommitStep, ExecClaimStep, ExecRunStep, Passes;
    if a.Advance? && a.pid in s.procs {
      var p := s.procs[a.pid];
      if Commits(p) || p.ExecRun? {
        CommitSteps(env, s, a.pid, p, a.ch);
        CommitTells(env, s, a.pid, p, a.ch);
        if p.SpeechCommit? { SpeechTells(env, s, a.pid, p, a.ch, x); }
      } else {
        ReadMoves(env, s, a.pid, p, a.ch);
      }
    }
  }

  lemma {:induction false} WhenTold(env: Env, actions: seq<Action>, n: nat, x: Receipt) returns (k: nat)
    requires NoticesFit(env) && n <= |actions| && x in At(env, actions, n).log.told
    ensures k < n && Tells(env, At(env, actions, k), actions[k], x, At(env, actions, n).log.told[x])
  {
    hide At, Inv, Said, Step, Tells;
    AtFirst(env, actions);
    AtNext(env, actions, n - 1);
    var s := At(env, actions, n - 1);
    if x in s.log.told && s.log.told[x] == At(env, actions, n).log.told[x] {
      k := WhenTold(env, actions, n - 1, x);
    } else {
      ToldBySpeech(env, s, actions[n - 1], x);
      k := n - 1;
    }
  }

  // A queued answer is as its turn was decided, unless the turn was found interrupted.
  lemma HeadIsItsTurn(s: Sys, d: string, row: Row<Session>)
    requires Inv(s) && Get(s.table.sessions, d) == Some(row) && row.data.replies != []
    ensures
      var head := row.data.replies[0];
      && head.receipt in s.table.turns
      && (s.table.turns[head.receipt].data.state == Complete <==> head.state == Complete)
  {
    hide Inv, ProcOk, TurnOk, HistoryOk, SubmittedOk, ToldOk;
    InvTable(s);
    assert SessionOk(s.table, s.log, s.nextSession, d);
    assert ReplyOk(s.table, s.log, d, row.data.id, row.data.replies[0]);
  }

  // Over every run: what was heard of a request, read to its end, is what Speech said of it at
  // some moment k. It is the sanitised answer of that request's own model run if its turn was
  // complete then; and otherwise a notice, as its turn was decided, or the one that was due as it
  // was past its deadline, kept no longer, or found interrupted.
  lemma WhatIsHeardWasDue(env: Env, actions: seq<Action>, x: Receipt) returns (k: nat)
    requires NoticesFit(env) && x in Run(env, INIT, actions).log.told
    ensures k < |actions|
    ensures
      var s, log := At(env, actions, k), Run(env, INIT, actions).log;
      && Tells(env, s, actions[k], x, Heard(log, x)) && x in s.table.turns
      && var p := s.procs[actions[k].pid];
         && SaysWhatIsDue(env, s, p.row, p.state, Heard(log, x))
         && (p.row.data.replies[0].state == Complete <==> s.table.turns[x].data.state == Complete)
         && (if s.table.turns[x].data.state == Complete then OwnAnswer(env, log, x, Heard(log, x)) else AlexaAnswers.Notice(env, Heard(log, x)))
  {
    hide At, Inv, Said, Step, Run, Passes, Due, Onwards;
    AtLast(env, actions);
    k := WhenTold(env, actions, |actions|, x);
    var s, pid := At(env, actions, k), actions[k].pid;
    var p := s.procs[pid];
    SpeechSaysWhatIsDue(env, actions, k);
    AtNext(env, actions, k);
    HeadIsItsTurn(s, p.id.device, p.row);
    HeardAnswersAreTheModelsOwn(env, actions, x);
    AllOnwards(env, actions, k, |actions|);
    AnswerStays(env, s, At(env, actions, |actions|), x, Heard(Run(env, INIT, actions).log, x));
  }

  lemma AnswerStays(env: Env, s: Sys, t: Sys, x: Receipt, text: string)
    requires Onwards(s, t)
    ensures OwnAnswer(env, s.log, x, text) ==> OwnAnswer(env, t.log, x, text)
  {
    hide Evolves;
  }
}
