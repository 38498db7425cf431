// The main results about the Alexa protocol. Each quantifies over every sequence of
// actions from the empty table: every interleaving of any number of requests and
// workers, duplicate deliveries, crashes, refused commits and any passing of time.
module AlexaResults {
  import opened Prelude
  import opened Store
  import opened Conversation
  import opened AlexaProtocol
  import opened AlexaSafety
  import opened AlexaCommits
  import opened AlexaTheorems

  // ----- Runs -----

  lemma {:induction false} RunSplits(env: Env, s: Sys, a: seq<Action>, b: seq<Action>)
    ensures Run(env, s, a + b) == Run(env, Run(env, s, a), b)
  {
    hide Step;
    if b == [] {
      assert a + b == a;
    } else {
      RunSplits(env, s, a, b[..|b| - 1]);
      assert (a + b)[..|a + b| - 1] == a + b[..|b| - 1];
    }
  }

  lemma {:induction false} RunKeepsInv(env: Env, s: Sys, actions: seq<Action>)
    requires NoticesFit(env) && Inv(s)
    ensures Inv(Run(env, s, actions))
  {
    if actions != [] {
      RunKeepsInv(env, s, actions[..|actions| - 1]);
      StepKeeps(env, Run(env, s, actions[..|actions| - 1]), actions[|actions| - 1]);
    }
  }

  lemma Reachable(env: Env, actions: seq<Action>)
    requires NoticesFit(env)
    ensures Inv(Run(env, INIT, actions))
  {
    RunKeepsInv(env, INIT, actions);
  }

  lemma EvolvesTwice(a: Table, b: Table, c: Table)
    requires Evolves(a, b) && Evolves(b, c)
    ensures Evolves(a, c)
  {
    forall x | x in a.turns
      ensures x in c.turns && TurnStep(a.turns[x], c.turns[x])
    {
      assert TurnStep(a.turns[x], b.turns[x]) && TurnStep(b.turns[x], c.turns[x]);
    }
    forall d | d in a.sessions
      ensures Faithful(c.sessions, d, a.sessions[d])
    {
      FaithfulStays(b.sessions, c.sessions, d, a.sessions[d]);
    }
  }

  lemma {:induction false} RunEvolves(env: Env, s: Sys, actions: seq<Action>)
    requires NoticesFit(env) && Inv(s)
    ensures Evolves(s.table, Run(env, s, actions).table)
  {
    hide Inv, Evolves;
    if actions == [] {
      Refl(s.table);
    } else {
      var before := Run(env, s, actions[..|actions| - 1]);
      RunEvolves(env, s, actions[..|actions| - 1]);
      RunKeepsInv(env, s, actions[..|actions| - 1]);
      StepKeeps(env, before, actions[|actions| - 1]);
      EvolvesTwice(s.table, before.table, Run(env, s, actions).table);
    }
  }

  // ----- Turn lifecycle -----

  // A turn row keeps its identity and deadline, moves only pending, running, decided,
  // and is never written again once it is decided.
  lemma TurnsOnlyMoveForward(env: Env, past: seq<Action>, future: seq<Action>, x: Receipt)
    requires NoticesFit(env) && x in Run(env, INIT, past).table.turns
    ensures
      var a, t := Run(env, INIT, past).table.turns[x], Run(env, INIT, past + future).table;
      && x in t.turns
      && Rank(a.data.state) <= Rank(t.turns[x].data.state)
      && (!Active(a.data.state) ==> t.turns[x] == a)
      && (t.turns[x].version == a.version ==> t.turns[x] == a)
      && t.turns[x].data.deadline == a.data.deadline && t.turns[x].data.ident == a.data.ident
      && t.turns[x].data.sessionId == a.data.sessionId
  {
    Reachable(env, past);
    RunSplits(env, INIT, past, future);
    RunEvolves(env, Run(env, INIT, past), future);
    assert TurnStep(Run(env, INIT, past).table.turns[x], Run(env, INIT, past + future).table.turns[x]);
  }

  // Each undecided turn is the one its Echo's session is waiting for, so an Echo has at
  // most one; each decided turn has dropped its input.
  lemma UndecidedTurnIsTheLastOfItsEcho(env: Env, actions: seq<Action>, x: Receipt)
    requires NoticesFit(env) && x in Run(env, INIT, actions).table.turns
    ensures
      var t := Run(env, INIT, actions).table;
      var u := t.turns[x].data;
      if Active(u.state) then
        && x.device in t.sessions && t.sessions[x.device].data.lastTurn == Some(x)
        && t.sessions[x.device].data.id == u.sessionId
        && (forall y :: y in t.turns && y.device == x.device && Active(t.turns[y].data.state) ==> y == x)
      else u.input == ""
  {
    Reachable(env, actions);
    var s := Run(env, INIT, actions);
    assert TurnOk(s.table, s.log, x);
    forall y | y in s.table.turns && y.device == x.device && Active(s.table.turns[y].data.state) && Active(s.table.turns[x].data.state)
      ensures y == x
    {
      assert TurnOk(s.table, s.log, y);
    }
  }

  // A result whose turn was cancelled, failed or superseded is never remembered: what the
  // session keeps comes from its own turns, and only completed ones enter the history.
  lemma OnlyCompletedTurnsAreRemembered(env: Env, actions: seq<Action>, d: string, i: nat)
    requires NoticesFit(env) && d in Run(env, INIT, actions).table.sessions
    ensures
      var t := Run(env, INIT, actions).table;
      var s := t.sessions[d].data;
      && (i < |s.history| ==>
            var x := s.history[i].receipt;
            x in t.turns && x.device == d && t.turns[x].data.sessionId == s.id && t.turns[x].data.state == Complete)
      && (i < |s.replies| ==>
            var r := s.replies[i];
            && r.receipt in t.turns && r.receipt.device == d && t.turns[r.receipt].data.sessionId == s.id
            && (r.state != Pending ==> t.turns[r.receipt].data.state == r.state)
            && (r.state == Pending ==> r.text == ""))
  {
    Reachable(env, actions);
    var s := Run(env, INIT, actions);
    assert SessionOk(s.table, s.log, s.nextSession, d);
    if i < |s.table.sessions[d].data.history| {
      assert HistoryOk(s.table, d, s.table.sessions[d].data.id, s.table.sessions[d].data.history[i].receipt);
    }
    if i < |s.table.sessions[d].data.replies| {
      assert ReplyOk(s.table, s.log, d, s.table.sessions[d].data.id, s.table.sessions[d].data.replies[i]);
    }
  }

  // ----- Reset -----

  // Some Submit for Echo d commits during actions from s.
  ghost predicate SubmitLandsIn(env: Env, s: Sys, actions: seq<Action>, d: string) {
    exists i :: 0 <= i < |actions| && SubmitCommitted(env, Run(env, s, actions[..i]), actions[i], d)
  }

  ghost predicate SubmitCommitted(env: Env, s: Sys, a: Action, d: string) {
    && a.Advance? && a.pid in s.procs && s.procs[a.pid].SubmitCommit? && s.procs[a.pid].a.id.device == d
    && Step(env, s, a) != Stop(s, a.pid)
  }

  lemma ClearedUntilSubmit(env: Env, s: Sys, a: Action, d: string)
    requires d in s.log.cleared && !SubmitCommitted(env, s, a, d)
    ensures d in Step(env, s, a).log.cleared
  {
    hide StepSubmit, StepReset, StepSpeech, StepExecute, StepFinish;
    if a.Advance? && a.pid in s.procs {
      var p := s.procs[a.pid];
      if IsSubmit(p) { SubmitLeavesCleared(s, a.pid, p, a.ch, d); }
      else if IsReset(p) { ResetLeavesCleared(s, a.pid, p, a.ch, d); }
      else if IsSpeech(p) { SpeechLeavesCleared(env, s, a.pid, p, a.ch, d); }
      else if IsExecute(p) { ExecuteLeavesCleared(env, s, a.pid, p, a.ch, d); }
      else { FinishLeavesCleared(env, s, a.pid, p, a.ch, d); }
    }
  }

  lemma SubmitLeavesCleared(s: Sys, pid: nat, p: Proc, ch: Choice, d: string)
    requires IsSubmit(p) && d in s.log.cleared
    requires p.SubmitCommit? && p.a.id.device == d ==> StepSubmit(s, pid, p, ch) == Stop(s, pid)
    ensures d in StepSubmit(s, pid, p, ch).log.cleared
  {
    hide TxApply, TxMatches, SubmitTx;
  }

  lemma ResetLogClears(log: Log, device: string, sid: nat)
    ensures ResetLog(log, device, sid).cleared == log.cleared + {device}
  {
  }

  lemma ResetCommitLeavesCleared(s: Sys, pid: nat, p: Proc, ch: Choice, d: string)
    requires p.ResetCommit? && d in s.log.cleared
    ensures d in ResetCommitStep(s, pid, p, ch).log.cleared
  {
    hide TxApply, TxMatches, ResetTx, ResetLog;
    assert d in ResetLog(s.log, p.id.device, s.nextSession).cleared by { ResetLogClears(s.log, p.id.device, s.nextSession); }
  }

  lemma ResetLeavesCleared(s: Sys, pid: nat, p: Proc, ch: Choice, d: string)
    requires IsReset(p) && d in s.log.cleared
    ensures d in StepReset(s, pid, p, ch).log.cleared
  {
    hide Unix, ResetCommitStep, TxApply, TxMatches, SessionTx, BlankSession;
    if p.ResetCommit? { ResetCommitLeavesCleared(s, pid, p, ch, d); }
  }

  lemma SpeechLeavesCleared(env: Env, s: Sys, pid: nat, p: Proc, ch: Choice, d: string)
    requires IsSpeech(p) && d in s.log.cleared
    ensures d in StepSpeech(env, s, pid, p, ch).log.cleared
  {
    hide TxApply, TxMatches, SessionTx, SpokenSession, ViewText, Piece;
  }

  lemma RunLeavesCleared(s: Sys, pid: nat, p: Proc, ch: Choice, d: string)
    requires p.ExecRun? && d in s.log.cleared
    ensures d in ExecRunStep(s, pid, p, ch).log.cleared
  {
    hide NewMessages;
  }

  lemma ExecuteLeavesCleared(env: Env, s: Sys, pid: nat, p: Proc, ch: Choice, d: string)
    requires IsExecute(p) && d in s.log.cleared
    ensures d in StepExecute(env, s, pid, p, ch).log.cleared
  {
    hide ExecRunStep, Trim, TxApply, TxMatches, ClaimTx;
    if p.ExecRun? { RunLeavesCleared(s, pid, p, ch, d); }
  }

  lemma FinishLeavesCleared(env: Env, s: Sys, pid: nat, p: Proc, ch: Choice, d: string)
    requires IsFinish(p) && d in s.log.cleared
    ensures d in StepFinish(env, s, pid, p, ch).log.cleared
  {
    hide TxApply, TxMatches, FinishTx;
  }

  lemma {:induction false} ClearedThroughout(env: Env, s: Sys, actions: seq<Action>, d: string)
    requires d in s.log.cleared && !SubmitLandsIn(env, s, actions, d)
    ensures d in Run(env, s, actions).log.cleared
  {
    if actions != [] {
      var before := actions[..|actions| - 1];
      forall i | 0 <= i < |before|
        ensures !SubmitCommitted(env, Run(env, s, before[..i]), before[i], d)
      {
        assert before[..i] == actions[..i];
      }
      ClearedThroughout(env, s, before, d);
      assert !SubmitCommitted(env, Run(env, s, before), actions[|actions| - 1], d);
      ClearedUntilSubmit(env, Run(env, s, before), actions[|actions| - 1], d);
    }
  }

  // Once a Reset has committed, no row of that Echo holds conversation text until its
  // next Submit commits, whatever late workers, Speech or Resume requests still do.
  lemma ResetErasesTheConversation(env: Env, past: seq<Action>, pid: nat, ch: Choice, future: seq<Action>)
    requires NoticesFit(env)
    requires
      var s := Run(env, INIT, past);
      && pid in s.procs && s.procs[pid].ResetCommit?
      && TxMatches(s.table, ResetTx(s.procs[pid], s.nextSession)) && ch.fence
      && !SubmitLandsIn(env, Step(env, s, Advance(pid, ch)), future, s.procs[pid].id.device)
    ensures
      var d := Run(env, INIT, past).procs[pid].id.device;
      var t := Run(env, INIT, past + [Advance(pid, ch)] + future).table;
      && d in t.sessions && t.sessions[d].data.history == [] && t.sessions[d].data.replies == []
      && t.sessions[d].data.lastSpeech == "" && t.sessions[d].data.lastTurn == None
      && forall x :: x in t.turns && x.device == d ==> t.turns[x].data.input == "" && !Active(t.turns[x].data.state)
  {
    hide Inv, TxApply, ResetTx, SubmitLandsIn;
    var s := Run(env, INIT, past);
    var d := s.procs[pid].id.device;
    var s1 := Step(env, s, Advance(pid, ch));
    assert d in s1.log.cleared;
    ClearedThroughout(env, s1, future, d);
    RunSplits(env, INIT, past + [Advance(pid, ch)], future);
    assert (past + [Advance(pid, ch)])[..|past|] == past;
    Reachable(env, past + [Advance(pid, ch)] + future);
    ClearedMeansBlank(Run(env, INIT, past + [Advance(pid, ch)] + future), d);
  }

  lemma ClearedMeansBlank(s: Sys, d: string)
    requires Inv(s) && d in s.log.cleared
    ensures d in s.table.sessions && Blank(s.table.sessions[d].data)
    ensures forall x :: x in s.table.turns && x.device == d ==> s.table.turns[x].data.input == "" && !Active(s.table.turns[x].data.state)
  {
    assert LogOk(s.table, s.log, s.nextSession);
    assert SessionOk(s.table, s.log, s.nextSession, d);
    forall x | x in s.table.turns && x.device == d
      ensures s.table.turns[x].data.input == "" && !Active(s.table.turns[x].data.state)
    {
      assert TurnOk(s.table, s.log, x);
    }
  }

  // ----- The queue of spoken answers -----

  // For every Echo's session: the receipts submitted to it, in commit order, are those
  // already spoken followed by those still queued; none twice, never more than eight
  // queued; and only the newest queued answer can still be undecided, so a finished
  // answer is never stuck behind a live one.
  lemma AnswersAreSpokenInOrder(env: Env, actions: seq<Action>, d: string)
    requires NoticesFit(env) && d in Run(env, INIT, actions).table.sessions
    ensures
      var s := Run(env, INIT, actions);
      var v := s.table.sessions[d].data;
      && v.id in s.log.submitted && v.id in s.log.spoken
      && s.log.submitted[v.id] == s.log.spoken[v.id] + Receipts(v.replies)
      && NoDuplicates(s.log.submitted[v.id])
      && |v.replies| <= MAX_PENDING_REPLIES
      && (forall i :: 0 <= i < |v.replies| - 1 ==>
            v.replies[i].receipt in s.table.turns && !Active(s.table.turns[v.replies[i].receipt].data.state))
  {
    Reachable(env, actions);
    var s := Run(env, INIT, actions);
    var v := s.table.sessions[d].data;
    assert LogOk(s.table, s.log, s.nextSession) && SessionOk(s.table, s.log, s.nextSession, d);
    assert SubmittedOk(s.table, s.log, v.id);
    Distinct(s.table, s.log, s.nextSession, d);
    forall i | 0 <= i < |v.replies| - 1
      ensures v.replies[i].receipt in s.table.turns && !Active(s.table.turns[v.replies[i].receipt].data.state)
    {
      OlderAnswerIsDecided(s, d, i);
    }
  }

  lemma OlderAnswerIsDecided(s: Sys, d: string, i: nat)
    requires Inv(s) && d in s.table.sessions && i < |s.table.sessions[d].data.replies| - 1
    requires NoDuplicates(Receipts(s.table.sessions[d].data.replies))
    ensures
      var x := s.table.sessions[d].data.replies[i].receipt;
      x in s.table.turns && !Active(s.table.turns[x].data.state)
  {
    var v := s.table.sessions[d].data;
    var queue := Receipts(v.replies);
    assert SessionOk(s.table, s.log, s.nextSession, d);
    assert ReplyOk(s.table, s.log, d, v.id, v.replies[i]);
    assert TurnOk(s.table, s.log, v.replies[i].receipt);
    assert queue[i] != queue[|queue| - 1];
  }

  // A replaced session's answers also left in submission order.
  lemma EverySessionSpeaksAPrefix(env: Env, actions: seq<Action>, sid: nat)
    requires NoticesFit(env) && sid in Run(env, INIT, actions).log.submitted
    ensures
      var log := Run(env, INIT, actions).log;
      sid in log.spoken && log.spoken[sid] <= log.submitted[sid] && NoDuplicates(log.submitted[sid])
  {
    Reachable(env, actions);
    var s := Run(env, INIT, actions);
    assert LogOk(s.table, s.log, s.nextSession);
    assert SubmittedOk(s.table, s.log, sid);
  }

  // Every answer that left the queue was heard from its first to its last rune, once, in
  // order; what was heard of one still queued is exactly its text up to the cursor.
  lemma AnswersAreHeardInFull(env: Env, actions: seq<Action>, x: Receipt, d: string, i: nat)
    requires NoticesFit(env)
    ensures
      var s := Run(env, INIT, actions);
      && (x in s.log.told ==> Heard(s.log, x) == s.log.told[x])
      && (d in s.table.sessions && i < |s.table.sessions[d].data.replies| ==>
            var r := s.table.sessions[d].data.replies[i];
            r.offset <= |r.text| && Heard(s.log, r.receipt) == r.text[..r.offset])
  {
    Reachable(env, actions);
    var s := Run(env, INIT, actions);
    assert LogOk(s.table, s.log, s.nextSession);
    if x in s.log.told { assert ToldOk(s.table, s.log, x); }
    if d in s.table.sessions && i < |s.table.sessions[d].data.replies| {
      assert SessionOk(s.table, s.log, s.nextSession, d);
      assert ReplyOk(s.table, s.log, d, s.table.sessions[d].data.id, s.table.sessions[d].data.replies[i]);
    }
  }

  // What Speech says, and "repeat" says again, always fits the spoken response.
  lemma SpokenPartsFit(env: Env, actions: seq<Action>, d: string)
    requires NoticesFit(env) && d in Run(env, INIT, actions).table.sessions
    ensures |Run(env, INIT, actions).table.sessions[d].data.lastSpeech| <= CHUNK
  {
    Reachable(env, actions);
    var s := Run(env, INIT, actions);
    assert SessionOk(s.table, s.log, s.nextSession, d);
  }
}
