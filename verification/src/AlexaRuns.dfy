// Who invokes the model: of all the workers a receipt is delivered to, the one that claimed it.
module AlexaRuns {
  import opened Prelude
  import opened Store
  import opened Conversation
  import opened AlexaProtocol
  import opened AlexaSafety
  import opened AlexaTheorems
  import opened AlexaResults
  import opened AlexaMoments
  import AlexaCommits

  // Action a, in state s, moves turn x from pending to running for process a.pid.
  ghost predicate Claims(env: Env, s: Sys, a: Action, x: Receipt) {
    && a.Advance? && a.pid in s.procs && s.procs[a.pid].ExecClaim? && s.procs[a.pid].x == x
    && x in s.table.turns && s.table.turns[x].data.state == Pending
    && var t' := Step(env, s, a).table; x in t'.turns && t'.turns[x].data.state == Running
  }

  // Action a, in state s, invokes the model for turn x, in process a.pid.
  predicate Invokes(s: Sys, a: Action, x: Receipt) {
    a.Advance? && a.pid in s.procs && s.procs[a.pid].ExecRun? && s.procs[a.pid].mine.data.id == x
  }

  // What a step may add to the record of claims and invocations.
  ghost predicate Recorded(env: Env, s: Sys, a: Action, log: Log) {
    && (log.claimed == s.log.claimed || exists x: Receipt :: Claims(env, s, a, x))
    && (forall x: Receipt :: Claims(env, s, a, x) ==> x !in s.log.claimed && log.claimed == s.log.claimed[x := a.pid])
    && (log.runs == s.log.runs
        || exists x: Receipt :: Invokes(s, a, x) && Get(s.log.claimed, x) == Some(a.pid) && log.runs == s.log.runs + [x])
  }

  ghost predicate NothingRecorded(s: Sys, s': Sys) { s'.log.claimed == s.log.claimed && s'.log.runs == s.log.runs }

  lemma CommitRecords(env: Env, s: Sys, pid: nat, p: Proc, ch: Choice)
    ensures p.SubmitCommit? ==> NothingRecorded(s, SubmitCommitStep(s, pid, p, ch))
    ensures p.ResetCommit? ==> NothingRecorded(s, ResetCommitStep(s, pid, p, ch))
    ensures p.ResumeCommit? ==> NothingRecorded(s, ResumeCommitStep(s, pid, p, ch))
    ensures p.SpeechRepeat? ==> NothingRecorded(s, SpeechRepeatStep(s, pid, p, ch))
    ensures p.SpeechCommit? ==> NothingRecorded(s, SpeechCommitStep(env, s, pid, p, ch))
    ensures p.FinishCommit? ==> NothingRecorded(s, FinishCommitStep(env, s, pid, p, ch))
  {
    hide TxApply, TxMatches, SubmitTx, ResetTx, SessionTx, FinishTx, SpokenSession;
  }

  lemma ClaimsItsOwn(env: Env, s: Sys, pid: nat, ch: Choice)
    requires pid in s.procs && s.procs[pid].ExecClaim?
    ensures forall x: Receipt :: Claims(env, s, Advance(pid, ch), x) ==> x == s.procs[pid].x
  {
  }

  lemma NoClaim(env: Env, s: Sys, pid: nat, p: Proc, ch: Choice)
    requires Step(env, s, Advance(pid, ch)).table == s.table
    ensures forall x: Receipt :: !Claims(env, s, Advance(pid, ch), x)
  {
    hide Step;
  }

  lemma ClaimerKnows(s: Sys, pid: nat, p: Proc)
    requires p.ExecClaim? && ProcOk(s.table, s.log, s.clock, pid, p)
    ensures Faithful(s.table.turns, p.x, p.pending) && p.pending.data.state == Pending
  {
    hide SubmitOk, ResetOk, SpeechOk, FinishOk, Faithful;
  }

  lemma ClaimShows(env: Env, s: Sys, pid: nat, p: Proc, ch: Choice)
    requires pid in s.procs && p == s.procs[pid] && p.ExecClaim? && Faithful(s.table.turns, p.x, p.pending) && p.pending.data.state == Pending
    requires TxMatches(s.table, ClaimTx(p.x, p.pending)) && Step(env, s, Advance(pid, ch)).table == TxApply(s.table, ClaimTx(p.x, p.pending))
    requires p.x in TxApply(s.table, ClaimTx(p.x, p.pending)).turns
    requires TxApply(s.table, ClaimTx(p.x, p.pending)).turns[p.x] == ClaimTx(p.x, p.pending).turns[p.x].after.value
    ensures Claims(env, s, Advance(pid, ch), p.x)
  {
    hide Step, TxApply;
    var tx := ClaimTx(p.x, p.pending);
    assert p.x in tx.turns && Holds(Get(s.table.turns, p.x), tx.turns[p.x]);
  }

  lemma ClaimRecords(env: Env, s: Sys, pid: nat, p: Proc, ch: Choice)
    requires TableInv(s.table, s.log, s.nextSession) && pid in s.procs && p == s.procs[pid] && p.ExecClaim?
    requires ProcOk(s.table, s.log, s.clock, pid, p)
    ensures Recorded(env, s, Advance(pid, ch), ExecClaimStep(s, pid, p, ch).log)
  {
    hide TableInv, ProcOk, Apply, Matches, Claims;
    ClaimsItsOwn(env, s, pid, ch);
    CommitSteps(env, s, pid, p, ch);
    if TxMatches(s.table, ClaimTx(p.x, p.pending)) && ch.fence {
      ClaimerKnows(s, pid, p);
      AlexaCommits.ClaimKeeps(s.table, s.log, s.nextSession, pid, p.x, p.pending);
      ClaimShows(env, s, pid, p, ch);
    } else {
      assert Step(env, s, Advance(pid, ch)).table == s.table;
      NoClaim(env, s, pid, p, ch);
    }
  }

  lemma OnlyClaimsClaim(env: Env, s: Sys, a: Action)
    requires !(a.Advance? && a.pid in s.procs && s.procs[a.pid].ExecClaim?)
    ensures forall x: Receipt :: !Claims(env, s, a, x)
  {
  }

  lemma OthersRecord(env: Env, s: Sys, a: Action)
    requires NoticesFit(env) && Inv(s) && !(a.Advance? && a.pid in s.procs && s.procs[a.pid].ExecClaim?)
    ensures
      var s' := Step(env, s, a);
      && s'.log.claimed == s.log.claimed
      && (s'.log.runs == s.log.runs
          || exists x: Receipt :: Invokes(s, a, x) && Get(s.log.claimed, x) == Some(a.pid) && s'.log.runs == s.log.runs + [x])
  {
    hide Inv, ProcOk, StepSubmit, StepReset, StepSpeech, StepFinish, StepExecute, SubmitCommitStep, ResetCommitStep, ResumeCommitStep,
         SpeechRepeatStep, SpeechCommitStep, FinishCommitStep, ExecRunStep, NewMessages;
    if a.Advance? && a.pid in s.procs {
      var p := s.procs[a.pid];
      if p.ExecRun? {
        RunRecords(env, s, a);
      } else if Commits(p) {
        CommitSteps(env, s, a.pid, p, a.ch);
        CommitRecords(env, s, a.pid, p, a.ch);
      } else {
        ReadMoves(env, s, a.pid, p, a.ch);
      }
    }
  }

  lemma RunRecords(env: Env, s: Sys, a: Action)
    requires Inv(s) && a.Advance? && a.pid in s.procs && s.procs[a.pid].ExecRun?
    ensures
      var x, s' := s.procs[a.pid].mine.data.id, Step(env, s, a);
      Invokes(s, a, x) && Get(s.log.claimed, x) == Some(a.pid) && s'.log.claimed == s.log.claimed && s'.log.runs == s.log.runs + [x]
  {
    hide Inv, ProcOk, Step, NewMessages;
    InvProcAt(s, a.pid);
    RunnerClaimed(s, a.pid, s.procs[a.pid]);
    CommitSteps(env, s, a.pid, s.procs[a.pid], a.ch);
  }

  lemma StepRecords(env: Env, s: Sys, a: Action)
    requires NoticesFit(env) && Inv(s)
    ensures Recorded(env, s, a, Step(env, s, a).log)
  {
    hide Inv, TableInv, ProcOk, Step, StepSubmit, StepReset, StepSpeech, StepFinish, StepExecute, ExecClaimStep, Claims;
    if a.Advance? && a.pid in s.procs && s.procs[a.pid].ExecClaim? {
      InvProcAt(s, a.pid);
      InvTable(s);
      CommitSteps(env, s, a.pid, s.procs[a.pid], a.ch);
      ClaimRecords(env, s, a.pid, s.procs[a.pid], a.ch);
    } else {
      OnlyClaimsClaim(env, s, a);
      OthersRecord(env, s, a);
    }
  }

  lemma Next(env: Env, actions: seq<Action>, k: nat)
    requires NoticesFit(env) && k < |actions|
    ensures At(env, actions, k + 1) == Step(env, At(env, actions, k), actions[k])
    ensures Recorded(env, At(env, actions, k), actions[k], At(env, actions, k + 1).log)
  {
    assert actions[..k + 1][..k] == actions[..k];
    Reachable(env, actions[..k]);
    StepRecords(env, At(env, actions, k), actions[k]);
  }

  // A claim, once recorded, stays, and the receipt is not claimed again.
  lemma {:induction false} ClaimStays(env: Env, actions: seq<Action>, m: nat, n: nat, x: Receipt)
    requires NoticesFit(env) && m <= n <= |actions| && x in At(env, actions, m).log.claimed
    ensures x in At(env, actions, n).log.claimed && At(env, actions, n).log.claimed[x] == At(env, actions, m).log.claimed[x]
  {
    hide At, Claims, Invokes, Step, Run;
    if m < n {
      ClaimStays(env, actions, m, n - 1, x);
      Next(env, actions, n - 1);
    }
  }

  lemma {:induction false} WhoClaimed(env: Env, actions: seq<Action>, n: nat, x: Receipt) returns (c: nat)
    requires NoticesFit(env) && n <= |actions| && x in At(env, actions, n).log.claimed
    ensures c < n && Claims(env, At(env, actions, c), actions[c], x) && actions[c].pid == At(env, actions, n).log.claimed[x]
  {
    hide Claims, Invokes, Step, Run;
    AtFirst(env, actions);
    Next(env, actions, n - 1);
    if x in At(env, actions, n - 1).log.claimed {
      c := WhoClaimed(env, actions, n - 1, x);
      ClaimStays(env, actions, n - 1, n, x);
    } else {
      c := n - 1;
    }
  }

  lemma {:induction false} WhoInvoked(env: Env, actions: seq<Action>, n: nat, i: nat) returns (r: nat)
    requires NoticesFit(env) && n <= |actions| && i < |At(env, actions, n).log.runs|
    ensures r < n
    ensures
      var x := At(env, actions, n).log.runs[i];
      Invokes(At(env, actions, r), actions[r], x) && Get(At(env, actions, r).log.claimed, x) == Some(actions[r].pid)
  {
    hide Claims, Invokes, Step, Run;
    AtFirst(env, actions);
    Next(env, actions, n - 1);
    if i < |At(env, actions, n - 1).log.runs| { r := WhoInvoked(env, actions, n - 1, i); } else { r := n - 1; }
  }

  lemma ClaimedThen(env: Env, actions: seq<Action>, k: nat, x: Receipt)
    requires NoticesFit(env) && k < |actions| && Claims(env, At(env, actions, k), actions[k], x)
    ensures x !in At(env, actions, k).log.claimed && x in At(env, actions, k + 1).log.claimed
  {
    hide Claims, Invokes, Step, Run;
    Next(env, actions, k);
  }

  // However often its message is delivered, a receipt's model run is started at most once,
  // and by the process that moved its turn from pending to running, which no other did, ever.
  lemma ModelRunsAtMostOnce(env: Env, actions: seq<Action>, i: nat, j: nat) returns (c: nat, r: nat)
    requires NoticesFit(env) && i < |Run(env, INIT, actions).log.runs|
    ensures
      var runs := Run(env, INIT, actions).log.runs;
      && (j < |runs| && j != i ==> runs[j] != runs[i])
      && c < r < |actions| && Claims(env, At(env, actions, c), actions[c], runs[i])
      && Invokes(At(env, actions, r), actions[r], runs[i]) && actions[r].pid == actions[c].pid
      && forall k :: 0 <= k < |actions| && Claims(env, At(env, actions, k), actions[k], runs[i]) ==> k == c
  {
    hide Claims, Invokes, Run, TableInv;
    var s := Run(env, INIT, actions);
    var x := s.log.runs[i];
    assert actions[..|actions|] == actions;
    Reachable(env, actions);
    RunsAreDistinct(s);
    r := WhoInvoked(env, actions, |actions|, i);
    c := WhoClaimed(env, actions, r, x);
    forall k | 0 <= k < |actions| && Claims(env, At(env, actions, k), actions[k], x)
      ensures k == c
    {
      ClaimedThen(env, actions, k, x);
      ClaimedThen(env, actions, c, x);
      if k < c { ClaimStays(env, actions, k + 1, c, x); }
      if c < k { ClaimStays(env, actions, c + 1, k, x); }
    }
  }

  lemma RunsAreDistinct(s: Sys)
    requires Inv(s)
    ensures NoDuplicates(s.log.runs)
  {
    InvTable(s);
  }
}
