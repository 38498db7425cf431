// Moments of a run: the state before each action, what no later action undoes, and how a
// process came to stand where it stands.
module AlexaMoments {
  import opened Prelude
  import opened Conversation
  import opened AlexaProtocol
  import opened AlexaSafety
  import opened AlexaTheorems
  import opened AlexaResults
  import opened AlexaAnswers

  // The state before the k-th action of a run.
  function At(env: Env, actions: seq<Action>, k: nat): Sys
    requires k <= |actions|
  {
    Run(env, INIT, actions[..k])
  }

  lemma AtFirst(env: Env, actions: seq<Action>)
    ensures At(env, actions, 0) == INIT
  {
  }

  lemma AtLast(env: Env, actions: seq<Action>)
    ensures At(env, actions, |actions|) == Run(env, INIT, actions)
  {
    assert actions[..|actions|] == actions;
  }

  lemma AtNext(env: Env, actions: seq<Action>, k: nat)
    requires NoticesFit(env) && k < |actions|
    ensures At(env, actions, k + 1) == Step(env, At(env, actions, k), actions[k])
    ensures Inv(At(env, actions, k)) && Inv(At(env, actions, k + 1)) && Said(env, At(env, actions, k))
  {
    hide Inv, Said, Step;
    assert actions[..k + 1][..k] == actions[..k];
    Reachable(env, actions[..k]);
    Reachable(env, actions[..k + 1]);
    SaidThroughout(env, actions[..k]);
  }

  // ----- What stays -----

  // From state s on: time goes on, turns evolve, and what a run answered stays on record.
  ghost predicate Onwards(s: Sys, t: Sys) {
    && s.clock <= t.clock && Evolves(s.table, t.table)
    && (forall x :: x in s.log.answers ==> x in t.log.answers && t.log.answers[x] == s.log.answers[x])
    && (forall x :: x in s.log.errors ==> x in t.log.errors && t.log.errors[x] == s.log.errors[x])
    && s.log.answers.Keys == s.log.errors.Keys && t.log.answers.Keys == t.log.errors.Keys
  }

  // The model's answer is put on record under its receipt, which had none.
  lemma RunAnswers(env: Env, s: Sys, pid: nat, p: Proc, ch: Choice)
    requires Inv(s) && Said(env, s) && pid in s.procs && p == s.procs[pid] && p.ExecRun?
    ensures
      var x, t := p.mine.data.id, Step(env, s, Advance(pid, ch));
      && x !in s.log.answers && t.clock == s.clock
      && t.log.answers == s.log.answers[x := NewMessages(ch.result, |p.context|)] && t.log.errors == s.log.errors[x := ch.runError]
  {
    hide Inv, Step, ProcOk, NewMessages;
    InvProcAt(s, pid);
    RunnerClaimed(s, pid, p);
    CommitSteps(env, s, pid, p, ch);
    AnswersWereRun(env, s);
  }

  // Over every run: what the model answers to its context is put on record in full, without the
  // context again: its text, its limit and the messages that follow the context.
  lemma OnlyTheNewIsRecorded(env: Env, actions: seq<Action>, k: nat, rest: seq<Message>)
    requires NoticesFit(env) && k < |actions| && actions[k].Advance? && actions[k].pid in At(env, actions, k).procs
    requires
      var p := At(env, actions, k).procs[actions[k].pid];
      p.ExecRun? && actions[k].ch.result.messages == p.context + rest
    ensures
      var x, r := At(env, actions, k).procs[actions[k].pid].mine.data.id, actions[k].ch.result;
      && x !in At(env, actions, k).log.answers
      && Get(At(env, actions, k + 1).log.answers, x) == Some(RunResult(r.text, rest, r.limited))
  {
    hide At, Inv, Said, Step;
    AtNext(env, actions, k);
    RunAnswers(env, At(env, actions, k), actions[k].pid, At(env, actions, k).procs[actions[k].pid], actions[k].ch);
  }

  lemma AnswersWereRun(env: Env, s: Sys)
    requires Said(env, s)
    ensures forall x :: x in s.log.answers ==> x in s.log.runs
  {
  }

  lemma LogOnwards(env: Env, s: Sys, a: Action)
    requires NoticesFit(env) && Inv(s) && Said(env, s) && s.log.answers.Keys == s.log.errors.Keys
    ensures
      var t := Step(env, s, a);
      && s.clock <= t.clock
      && (forall x :: x in s.log.answers ==> x in t.log.answers && t.log.answers[x] == s.log.answers[x])
      && (forall x :: x in s.log.errors ==> x in t.log.errors && t.log.errors[x] == s.log.errors[x])
      && t.log.answers.Keys == t.log.errors.Keys
  {
    hide Inv, Said, StepSubmit, StepReset, StepSpeech, StepExecute, StepFinish, ProcOk, ExecRunStep;
    if a.Advance? && a.pid in s.procs {
      var p := s.procs[a.pid];
      if p.ExecRun? {
        RunAnswers(env, s, a.pid, p, a.ch);
      } else {
        RunsNothing(env, s, a.pid, p, a.ch);
      }
    }
  }

  // Only the invocation of the model adds an answer.
  ghost predicate SameAnswers(s: Sys, t: Sys) {
    t.log.answers == s.log.answers && t.log.errors == s.log.errors && t.clock == s.clock
  }

  lemma RunsNothing(env: Env, s: Sys, pid: nat, p: Proc, ch: Choice)
    requires NoticesFit(env) && Inv(s) && pid in s.procs && p == s.procs[pid] && !p.ExecRun?
    ensures SameAnswers(s, Step(env, s, Advance(pid, ch)))
  {
    hide Inv, Step, ProcOk, SubmitCommitStep, ResetCommitStep, ResumeCommitStep, SpeechRepeatStep, SpeechCommitStep, ExecClaimStep, FinishCommitStep;
    if Commits(p) {
      CommitSteps(env, s, pid, p, ch);
      CommitRunsNothing(env, s, pid, p, ch);
    } else {
      ReadMoves(env, s, pid, p, ch);
    }
  }

  lemma WriteRunsNothing(s: Sys, pid: nat, p: Proc, ch: Choice)
    ensures p.SubmitCommit? ==> SameAnswers(s, SubmitCommitStep(s, pid, p, ch))
    ensures p.ResetCommit? ==> SameAnswers(s, ResetCommitStep(s, pid, p, ch))
  {
    hide TxApply, TxMatches, SubmitTx, ResetTx;
  }

  lemma SpokenRunsNothing(env: Env, log: Log, s: Session, text: string)
    requires s.replies != []
    ensures var log' := SpokenLog(env, log, s, text); log'.answers == log.answers && log'.errors == log.errors
  {
    hide Piece, ChunkEnd, Heard, Past;
  }

  lemma CommitRunsNothing(env: Env, s: Sys, pid: nat, p: Proc, ch: Choice)
    ensures p.SubmitCommit? ==> SameAnswers(s, SubmitCommitStep(s, pid, p, ch))
    ensures p.ResetCommit? ==> SameAnswers(s, ResetCommitStep(s, pid, p, ch))
    ensures p.ResumeCommit? ==> SameAnswers(s, ResumeCommitStep(s, pid, p, ch))
    ensures p.SpeechRepeat? ==> SameAnswers(s, SpeechRepeatStep(s, pid, p, ch))
    ensures p.SpeechCommit? ==> SameAnswers(s, SpeechCommitStep(env, s, pid, p, ch))
    ensures p.ExecClaim? ==> SameAnswers(s, ExecClaimStep(s, pid, p, ch))
    ensures p.FinishCommit? ==> SameAnswers(s, FinishCommitStep(env, s, pid, p, ch))
  {
    hide TxApply, TxMatches, SessionTx, ClaimTx, FinishTx, SpokenSession, SpokenLog, SubmitCommitStep, ResetCommitStep;
    if p.SubmitCommit? || p.ResetCommit? { WriteRunsNothing(s, pid, p, ch); }
    if p.SpeechCommit? && p.row.data.replies != [] { SpokenRunsNothing(env, s.log, p.row.data, p.text); }
  }

  lemma OnwardsTwice(a: Sys, b: Sys, c: Sys)
    requires Onwards(a, b) && Onwards(b, c)
    ensures Onwards(a, c)
  {
    hide Evolves;
    EvolvesTwice(a.table, b.table, c.table);
  }

  lemma {:induction false} AllOnwards(env: Env, actions: seq<Action>, m: nat, n: nat)
    requires NoticesFit(env) && m <= n <= |actions|
    ensures Onwards(At(env, actions, m), At(env, actions, n))
  {
    hide At, Inv, Said, Step, Evolves, Onwards;
    if n == 0 {
      FirstOnwards(env, actions);
    } else if m == n {
      AllOnwards(env, actions, 0, n - 1);
      OneOnwards(env, actions, n - 1);
      SelfOnwards(At(env, actions, n - 1), At(env, actions, n));
    } else {
      AllOnwards(env, actions, m, n - 1);
      AllOnwards(env, actions, 0, n - 1);
      OneOnwards(env, actions, n - 1);
      OnwardsTwice(At(env, actions, m), At(env, actions, n - 1), At(env, actions, n));
    }
  }

  lemma FirstOnwards(env: Env, actions: seq<Action>)
    ensures Onwards(At(env, actions, 0), At(env, actions, 0))
  {
    AtFirst(env, actions);
  }

  lemma SelfOnwards(s: Sys, t: Sys)
    requires Onwards(s, t)
    ensures Onwards(t, t)
  {
    hide Evolves;
    Refl(t.table);
  }

  lemma OneOnwards(env: Env, actions: seq<Action>, k: nat)
    requires NoticesFit(env) && k < |actions| && Onwards(At(env, actions, 0), At(env, actions, k))
    ensures Onwards(At(env, actions, k), At(env, actions, k + 1))
  {
    hide At, Inv, Said, Step, Evolves;
    AtNext(env, actions, k);
    LogOnwards(env, At(env, actions, k), actions[k]);
    StepKeeps(env, At(env, actions, k), actions[k]);
  }

  // ----- How a process got where it is -----

  // Action n - 1 was a step of process pid, which still runs, ...
  ghost predicate Advanced(env: Env, actions: seq<Action>, n: nat, pid: nat)
    requires 0 < n <= |actions|
  {
    actions[n - 1].Advance? && actions[n - 1].pid == pid && pid in At(env, actions, n - 1).procs
  }

  // ... or pid was there before, ...
  ghost predicate Stood(env: Env, actions: seq<Action>, n: nat, pid: nat)
    requires 0 < n <= |actions|
  {
    pid in At(env, actions, n).procs && Get(At(env, actions, n - 1).procs, pid) == Some(At(env, actions, n).procs[pid])
  }

  // ... or it has only begun.
  ghost predicate Began(env: Env, actions: seq<Action>, n: nat, pid: nat)
    requires 0 < n <= |actions|
  {
    pid in At(env, actions, n).procs && Begins(At(env, actions, n).procs[pid])
  }

  lemma HowItGotThere(env: Env, actions: seq<Action>, n: nat, pid: nat)
    requires NoticesFit(env) && n <= |actions| && pid in At(env, actions, n).procs
    ensures 0 < n && (Advanced(env, actions, n, pid) || Stood(env, actions, n, pid) || Began(env, actions, n, pid))
  {
    hide At, Inv, Said, StepSubmit, StepReset, StepSpeech, StepExecute, StepFinish, Begins;
    AtFirst(env, actions);
    AtNext(env, actions, n - 1);
    var s, a := At(env, actions, n - 1), actions[n - 1];
    if a.Advance? && a.pid in s.procs && a.pid != pid { AdvancesAlone(env, s, a.pid, s.procs[a.pid], a.ch); }
  }
}
