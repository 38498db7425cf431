// Which ending a turn gets, and why: over every run, a turn is complete only because its own
// model run was usable and its checks passed, and it fails or is cancelled only for its reason.
module AlexaVerdicts {
  import opened Prelude
  import opened Store
  import opened Conversation
  import opened AlexaProtocol
  import opened AlexaSafety
  import opened Trimming
  import opened AlexaCommits
  import opened AlexaEndings
  import opened AlexaTheorems
  import opened AlexaResults
  import opened AlexaAnswers
  import opened AlexaLock
  import opened AlexaExclusion
  import opened AlexaOneLive
  import opened AlexaMoments

  // ----- What a worker's checks ask, and what a model run is worth -----

  // The turn may no longer be worked on: its time is up, its account or settings changed, or
  // it is no longer running.
  predicate TurnDenied(s: Sys, u: Turn, ch: Choice) {
    || u.deadline <= s.clock || !ch.authorized || ch.settings != u.settings
    || u.id !in s.table.turns || s.table.turns[u.id].data.state != Running
  }

  // Its session is no longer there, not for this grant, or no longer waiting for it.
  predicate SessionDenied(s: Sys, u: Turn) {
    var d := u.ident.device;
    !(&& d in s.table.sessions && s.table.sessions[d].expires > Unix(s.clock)
      && s.table.sessions[d].data.grant == u.ident.grant && s.table.sessions[d].data.generation == u.ident.generation
      && s.table.sessions[d].data.id == u.sessionId && s.table.sessions[d].data.lastTurn == Some(u.id))
  }

  predicate Denied(s: Sys, p: Proc, ch: Choice) {
    (p.CheckTurn? && TurnDenied(s, p.mine.data, ch)) || (p.CheckSession? && SessionDenied(s, p.mine.data))
  }

  // The model gave an answer that can be spoken.
  ghost predicate Usable(env: Env, r: RunResult) { Says(env.space, r.text) && !r.limited }

  predicate Limit(e: Option<Reason>) { e.Some? && e.value.UsageLimit? }

  // Why process p, in state s, ends turn mine with e.
  ghost predicate Cause(env: Env, s: Sys, p: Proc, ch: Choice, mine: Row<Turn>, e: Ending) {
    if p.ExecRead? || p.SubmitUnpublished? then
      && Get(s.table.turns, p.x) == Some(mine) && mine.data.state == Pending
      && (p.ExecRead? ==> mine.data.deadline <= s.clock && e == Ending(NO_RESULT, Failed, WorkerInterrupted))
      && (p.SubmitUnpublished? ==> e == Ending(NO_RESULT, Failed, QueueUnavailable))
    else if p.ExecRun? then
      && p.mine == mine && ch.runError.Some? && e.status == Failed
      && e.reason == if Limit(ch.runError) then ch.runError.value else ExecutionFailed
    else
      && (p.CheckTurn? || p.CheckSession?) && p.mine == mine
      && if Denied(s, p, ch) then e == Ending(NO_RESULT, Cancelled, SettingsChanged)
         else
           && p.CheckSession? && p.done.Some? && e.result == p.done.value
           && (Usable(env, p.done.value) ==> e.status == Complete && e.reason == NoReason)
           && (!Usable(env, p.done.value) ==> e.status == Failed && e.reason == ExecutionFailed)
  }

  ghost predicate Finishing(s: Sys, pid: nat, mine: Row<Turn>, e: Ending) {
    pid in s.procs && IsFinish(s.procs[pid]) && s.procs[pid].mine == mine && s.procs[pid].e == e
  }

  // A process is finishing after a step only with the ending it was finishing with before,
  // or for a cause.
  lemma FinishHasCause(env: Env, s: Sys, pid: nat, p: Proc, ch: Choice, mine: Row<Turn>, e: Ending)
    requires NoticesFit(env) && Inv(s) && pid in s.procs && p == s.procs[pid]
    requires Finishing(Step(env, s, Advance(pid, ch)), pid, mine, e)
    ensures Finishing(s, pid, mine, e) || (!IsFinish(p) && Cause(env, s, p, ch, mine, e))
  {
    hide Inv, StepSubmit, StepReset, StepSpeech, StepExecute, StepFinish, Cause;
    if IsSubmit(p) { SubmitEnds(env, s, pid, p, ch, mine, e); }
    else if IsReset(p) { ResetEnds(s, pid, p, ch); }
    else if IsSpeech(p) { SpeechEnds(env, s, pid, p, ch); }
    else if IsExecute(p) { ExecuteEnds(env, s, pid, p, ch, mine, e); }
    else { FinishEnds(env, s, pid, p, ch); }
  }

  lemma SubmitEnds(env: Env, s: Sys, pid: nat, p: Proc, ch: Choice, mine: Row<Turn>, e: Ending)
    requires IsSubmit(p) && Finishing(StepSubmit(s, pid, p, ch), pid, mine, e)
    ensures Cause(env, s, p, ch, mine, e)
  {
    hide TxApply, TxMatches, SubmitTx, SubmitLog;
  }

  lemma ResetEnds(s: Sys, pid: nat, p: Proc, ch: Choice)
    requires IsReset(p)
    ensures var s' := StepReset(s, pid, p, ch); pid in s'.procs ==> !IsFinish(s'.procs[pid])
  {
    hide TxApply, TxMatches, ResetTx, SessionTx, BlankSession, ResetLog;
  }

  lemma SpeechEnds(env: Env, s: Sys, pid: nat, p: Proc, ch: Choice)
    requires IsSpeech(p)
    ensures var s' := StepSpeech(env, s, pid, p, ch); pid in s'.procs ==> !IsFinish(s'.procs[pid])
  {
    hide TxApply, TxMatches, SessionTx, SpokenSession, SpokenLog, ViewText;
  }

  lemma ExecuteEnds(env: Env, s: Sys, pid: nat, p: Proc, ch: Choice, mine: Row<Turn>, e: Ending)
    requires IsExecute(p) && Finishing(StepExecute(env, s, pid, p, ch), pid, mine, e)
    ensures Cause(env, s, p, ch, mine, e)
  {
    hide TxApply, TxMatches, ClaimTx, NewMessages, Trim, Says;
    if p.CheckSession? && p.done.Some? { TrimmedIsBlankExactly(env.space, p.done.value.text); }
  }

  lemma FinishEnds(env: Env, s: Sys, pid: nat, p: Proc, ch: Choice)
    requires IsFinish(p)
    ensures
      var s' := StepFinish(env, s, pid, p, ch);
      pid in s'.procs ==> IsFinish(s'.procs[pid]) && s'.procs[pid].mine == p.mine && s'.procs[pid].e == p.e
  {
    hide TxApply, TxMatches, FinishTx;
  }

  // ----- Over runs -----

  // At moment k, process pid found the cause to end turn mine with e.
  ghost predicate Ended(env: Env, actions: seq<Action>, k: nat, pid: nat, mine: Row<Turn>, e: Ending)
    requires k < |actions|
  {
    var s, a := At(env, actions, k), actions[k];
    a.Advance? && a.pid == pid && pid in s.procs && !IsFinish(s.procs[pid]) && Cause(env, s, s.procs[pid], a.ch, mine, e)
  }

  lemma {:induction false} WhyItEnds(env: Env, actions: seq<Action>, n: nat, pid: nat, mine: Row<Turn>, e: Ending) returns (k: nat)
    requires NoticesFit(env) && n <= |actions| && Finishing(At(env, actions, n), pid, mine, e)
    ensures k < n && Ended(env, actions, k, pid, mine, e)
  {
    hide At, Inv, Said, Step, Cause;
    HowItGotThere(env, actions, n, pid);
    AtNext(env, actions, n - 1);
    var s, a := At(env, actions, n - 1), actions[n - 1];
    if Advanced(env, actions, n, pid) { FinishHasCause(env, s, pid, s.procs[pid], a.ch, mine, e); }
    if Finishing(s, pid, mine, e) { k := WhyItEnds(env, actions, n - 1, pid, mine, e); } else { k := n - 1; }
  }

  // ----- From the run to the ending -----

  // Process pid carries what its own model run answered.
  ghost predicate Carries(s: Sys, pid: nat, mine: Row<Turn>, r: RunResult) {
    pid in s.procs && (s.procs[pid].CheckTurn? || s.procs[pid].CheckSession?) && s.procs[pid].mine == mine && s.procs[pid].done == Some(r)
  }

  ghost predicate RanWell(s: Sys, p: Proc, ch: Choice, mine: Row<Turn>, r: RunResult) {
    p.ExecRun? && p.mine == mine && ch.runError.None? && r == NewMessages(ch.result, |p.context|)
  }

  lemma CarriedFromRun(env: Env, s: Sys, pid: nat, p: Proc, ch: Choice, mine: Row<Turn>, r: RunResult)
    requires NoticesFit(env) && Inv(s) && pid in s.procs && p == s.procs[pid]
    requires Carries(Step(env, s, Advance(pid, ch)), pid, mine, r)
    ensures Carries(s, pid, mine, r) || RanWell(s, p, ch, mine, r)
  {
    hide Inv, StepSubmit, StepReset, StepSpeech, StepExecute, StepFinish, RanWell;
    if IsSubmit(p) { SubmitCarries(s, pid, p, ch); }
    else if IsReset(p) { ResetCarries(s, pid, p, ch); }
    else if IsSpeech(p) { SpeechCarries(env, s, pid, p, ch); }
    else if IsExecute(p) { ExecuteCarries(env, s, pid, p, ch, mine, r); }
    else { FinishEnds(env, s, pid, p, ch); }
  }

  ghost predicate NoCheck(s: Sys, pid: nat) { pid in s.procs ==> !s.procs[pid].CheckTurn? && !s.procs[pid].CheckSession? }

  lemma SubmitCarries(s: Sys, pid: nat, p: Proc, ch: Choice)
    requires IsSubmit(p)
    ensures NoCheck(StepSubmit(s, pid, p, ch), pid)
  {
    hide TxApply, TxMatches, SubmitTx, SubmitLog;
  }

  lemma ResetCarries(s: Sys, pid: nat, p: Proc, ch: Choice)
    requires IsReset(p)
    ensures NoCheck(StepReset(s, pid, p, ch), pid)
  {
    hide TxApply, TxMatches, ResetTx, SessionTx, BlankSession, ResetLog;
  }

  lemma SpeechCarries(env: Env, s: Sys, pid: nat, p: Proc, ch: Choice)
    requires IsSpeech(p)
    ensures NoCheck(StepSpeech(env, s, pid, p, ch), pid)
  {
    hide TxApply, TxMatches, SessionTx, SpokenSession, SpokenLog, ViewText;
  }

  lemma ExecuteCarries(env: Env, s: Sys, pid: nat, p: Proc, ch: Choice, mine: Row<Turn>, r: RunResult)
    requires IsExecute(p) && pid in s.procs && p == s.procs[pid] && Carries(StepExecute(env, s, pid, p, ch), pid, mine, r)
    ensures Carries(s, pid, mine, r) || RanWell(s, p, ch, mine, r)
  {
    hide TxApply, TxMatches, ClaimTx, NewMessages, Trim;
  }

  // At moment k, process pid ran the model for turn mine without an error, and got r.
  ghost predicate Ran(env: Env, actions: seq<Action>, k: nat, pid: nat, mine: Row<Turn>, r: RunResult)
    requires k < |actions|
  {
    var s, a := At(env, actions, k), actions[k];
    a.Advance? && a.pid == pid && pid in s.procs && RanWell(s, s.procs[pid], a.ch, mine, r)
  }

  lemma {:induction false} WhereItRan(env: Env, actions: seq<Action>, n: nat, pid: nat, mine: Row<Turn>, r: RunResult) returns (k: nat)
    requires NoticesFit(env) && n <= |actions| && Carries(At(env, actions, n), pid, mine, r)
    ensures k < n && Ran(env, actions, k, pid, mine, r)
  {
    hide At, Inv, Said, Step, RanWell;
    HowItGotThere(env, actions, n, pid);
    AtNext(env, actions, n - 1);
    var s, a := At(env, actions, n - 1), actions[n - 1];
    if Advanced(env, actions, n, pid) { CarriedFromRun(env, s, pid, s.procs[pid], a.ch, mine, r); }
    if Carries(s, pid, mine, r) { k := WhereItRan(env, actions, n - 1, pid, mine, r); } else { k := n - 1; }
  }

  // The model run of x ended without an error, and its answer can be spoken.
  ghost predicate Good(env: Env, log: Log, x: Receipt) {
    x in log.answers && x in log.errors && log.errors[x].None? && Usable(env, log.answers[x])
  }

  // What is carried is on record, without an error.
  lemma CarriedIsRecorded(env: Env, actions: seq<Action>, n: nat, pid: nat, mine: Row<Turn>, r: RunResult)
    requires NoticesFit(env) && n <= |actions| && Carries(At(env, actions, n), pid, mine, r)
    ensures var x, log := mine.data.id, At(env, actions, n).log; Get(log.answers, x) == Some(r) && Get(log.errors, x) == Some(None)
  {
    hide At, Inv, Said, Step, NewMessages, Evolves;
    var k := WhereItRan(env, actions, n, pid, mine, r);
    AtNext(env, actions, k);
    RunAnswers(env, At(env, actions, k), pid, At(env, actions, k).procs[pid], actions[k].ch);
    AllOnwards(env, actions, k + 1, n);
  }

  // What the records say of an ending e of turn u.
  ghost predicate Justified(env: Env, log: Log, clock: nat, u: Turn, e: Ending) {
    match e.reason
    case NoReason => e.status == Complete && Good(env, log, u.id) && e.result == log.answers[u.id]
    case ExecutionFailed =>
      e.status == Failed && u.id in log.answers && u.id in log.errors && !Good(env, log, u.id) && !Limit(log.errors[u.id])
    case UsageLimit(_, _, _) => e.status == Failed && Get(log.errors, u.id) == Some(Some(e.reason))
    case WorkerInterrupted => e.status == Failed && u.state == Pending && u.deadline <= clock
    case QueueUnavailable => e.status == Failed && u.state == Pending
    case SettingsChanged => e.status == Cancelled
    case _ => false
  }

  lemma CauseJustifies(env: Env, actions: seq<Action>, k: nat, pid: nat, mine: Row<Turn>, e: Ending)
    requires NoticesFit(env) && k < |actions| && Ended(env, actions, k, pid, mine, e)
    ensures Justified(env, At(env, actions, k + 1).log, At(env, actions, k + 1).clock, mine.data, e)
  {
    hide At, Inv, Said, Step, NewMessages, Evolves, Usable;
    var s, ch := At(env, actions, k), actions[k].ch;
    var p := s.procs[pid];
    AtNext(env, actions, k);
    AllOnwards(env, actions, k, k + 1);
    if p.ExecRun? {
      RunAnswers(env, s, pid, p, ch);
    } else if p.CheckSession? && !Denied(s, p, ch) {
      CarriedIsRecorded(env, actions, k, pid, mine, p.done.value);
    }
  }

  lemma JustifiedStays(env: Env, s: Sys, t: Sys, u: Turn, e: Ending)
    requires Justified(env, s.log, s.clock, u, e) && Onwards(s, t)
    ensures Justified(env, t.log, t.clock, u, e)
  {
    hide Evolves, Usable;
  }

  // Whatever interleaves, a process ends a turn with what the records justify.
  lemma EndingsAreJustified(env: Env, actions: seq<Action>, n: nat, pid: nat, mine: Row<Turn>, e: Ending)
    requires NoticesFit(env) && n <= |actions| && Finishing(At(env, actions, n), pid, mine, e)
    ensures Justified(env, At(env, actions, n).log, At(env, actions, n).clock, mine.data, e)
  {
    hide At, Inv, Said, Step, Onwards, Justified, Cause;
    var k := WhyItEnds(env, actions, n, pid, mine, e);
    CauseJustifies(env, actions, k, pid, mine, e);
    AllOnwards(env, actions, k + 1, n);
    JustifiedStays(env, At(env, actions, k + 1), At(env, actions, n), mine.data, e);
  }

  // ----- How a turn is decided -----

  // The queue a finish leaves: the entry of x carries the ending e and says text.
  function Marked(replies: seq<Reply>, i: nat, e: Ending, text: string): seq<Reply>
    requires i < |replies|
  {
    replies[i := Reply(replies[i].receipt, e.status, text, replies[i].offset)]
  }

  function SaidText(env: Env, e: Ending): string {
    if e.status == Complete then env.safe(e.result.text) else env.say(Failure(e.reason))
  }

  // The entry and the queue with it are small enough to keep.
  predicate Fits(env: Env, replies: seq<Reply>, i: nat, e: Ending)
    requires i < |replies|
  {
    env.bytes(SaidText(env, e)) <= MAX_CONTEXT_BYTES && env.queueBytes(Marked(replies, i, e, SaidText(env, e))) <= MAX_REPLY_QUEUE_BYTES
  }

  function TooLarge(e: Ending): Ending { Ending(e.result, Failed, ReplyLimit) }

  // finish settles the queued answer of x exactly so: with its ending when that fits, else as
  // too large; an answer no longer queued leaves the queue alone.
  lemma FinishExactly(env: Env, replies: seq<Reply>, x: Receipt, e: Ending)
    requires NoDuplicates(Receipts(replies))
    ensures
      var (after, kept) := FinishReplies(env, replies, x, e);
      && (forall i :: 0 <= i < |replies| && replies[i].receipt == x ==>
            if Fits(env, replies, i, e) then kept == e && after == Marked(replies, i, e, SaidText(env, e))
            else kept == TooLarge(e) && after == Marked(replies, i, TooLarge(e), env.say(Failure(ReplyLimit))))
      && ((forall i :: 0 <= i < |replies| ==> replies[i].receipt != x) ==> kept == e && after == replies)
  {
    forall i | 0 <= i < |replies| && replies[i].receipt == x
      ensures
        var (after, kept) := FinishReplies(env, replies, x, e);
        if Fits(env, replies, i, e) then kept == e && after == Marked(replies, i, e, SaidText(env, e))
        else kept == TooLarge(e) && after == Marked(replies, i, TooLarge(e), env.say(Failure(ReplyLimit)))
    {
      MarkedAt(replies, i, x, e.status, SaidText(env, e));
      MarkedAt(replies, i, x, Failed, env.say(Failure(ReplyLimit)));
    }
  }

  lemma MarkedAt(replies: seq<Reply>, i: nat, x: Receipt, state: Status, text: string)
    requires NoDuplicates(Receipts(replies)) && i < |replies| && replies[i].receipt == x
    ensures MarkReply(replies, x, state, text) == replies[i := Reply(x, state, text, replies[i].offset)]
  {
    hide MarkReply;
    MarkedReplies(replies, x, state, text);
    forall j | 0 <= j < |replies| && j != i
      ensures replies[j].receipt != x
    {
      assert Receipts(replies)[j] == replies[j].receipt && Receipts(replies)[i] == x;
    }
  }

  // A finish with ending e goes through in state s for turn x, whose Echo's queue then was
  // replies: v is the turn afterwards.
  ghost predicate EndsAs(env: Env, replies: seq<Reply>, x: Receipt, e: Ending, v: Turn) {
    && (forall i :: 0 <= i < |replies| && replies[i].receipt == x ==>
          if Fits(env, replies, i, e) then v.state == e.status && v.failure == e.reason
          else v.state == Failed && v.failure == ReplyLimit)
    && ((forall i :: 0 <= i < |replies| ==> replies[i].receipt != x) ==> v.state == e.status && v.failure == e.reason)
  }

  // What a finish that goes through writes: the turn, the queue, and, for a complete turn that
  // fits, its exchange at the end of the history.
  ghost predicate Finished(env: Env, a: Session, b: Session, x: Receipt, e: Ending) {
    && b.id == a.id && b.ask == a.ask && b.grant == a.grant && b.generation == a.generation && b.lastTurn == a.lastTurn
    && b.startedAt == a.startedAt && b.lastSpeech == a.lastSpeech
    && (forall i :: 0 <= i < |a.replies| && a.replies[i].receipt == x ==>
          if Fits(env, a.replies, i, e) then b.replies == Marked(a.replies, i, e, SaidText(env, e)) && Remembers(env, a, b, x, e)
          else
            && b.replies == Marked(a.replies, i, TooLarge(e), env.say(Failure(ReplyLimit)))
            && b.history == a.history && b.turns == a.turns)
    && ((forall i :: 0 <= i < |a.replies| ==> a.replies[i].receipt != x) ==> b.replies == a.replies && Remembers(env, a, b, x, e))
  }

  ghost predicate Remembers(env: Env, a: Session, b: Session, x: Receipt, e: Ending) {
    if e.status == Complete && e.result.messages != [] then
      b.history == Trimmed(env.historyBytes, a.history + [Exchange(x, e.result.messages)]) && b.turns == a.turns + 1
    else b.history == a.history && b.turns == a.turns
  }

  lemma FinishedIsExact(env: Env, a: Session, x: Receipt, e: Ending, t: Turn)
    requires NoDuplicates(Receipts(a.replies)) && t.id == x
    ensures Finished(env, a, FinishedSession(env, a, x, e), x, e)
    ensures EndsAs(env, a.replies, x, e, FinishedTurn(env, t, a, e)) && FinishedTurn(env, t, a, e).input == ""
  {
    hide FinishReplies, Fits;
    FinishExactly(env, a.replies, x, e);
    if i :| 0 <= i < |a.replies| && a.replies[i].receipt == x {
      OnlyAt(a.replies, i, x);
    }
  }

  lemma OnlyAt(replies: seq<Reply>, i: nat, x: Receipt)
    requires NoDuplicates(Receipts(replies)) && i < |replies| && replies[i].receipt == x
    ensures forall j :: 0 <= j < |replies| && replies[j].receipt == x ==> j == i
  {
    forall j | 0 <= j < |replies| && replies[j].receipt == x
      ensures j == i
    {
      assert Receipts(replies)[j] == Receipts(replies)[i];
    }
  }

  lemma FinishApplies(env: Env, t: Table, log: Log, next: nat, p: Proc, expires: int)
    requires TableInv(t, log, next) && p.FinishCommit? && MayFinish(t, p.mine, p.e) && Targets(t, p.mine, p.row)
    requires TxMatches(t, FinishTx(env, p, expires))
    ensures
      var x, d, t' := p.mine.data.id, p.mine.data.ident.device, TxApply(t, FinishTx(env, p, expires));
      && x in t.turns && t.turns[x] == p.mine && d in t.sessions && t.sessions[d] == p.row
      && x in t'.turns && EndsAs(env, p.row.data.replies, x, p.e, t'.turns[x].data) && t'.turns[x].data.input == ""
      && d in t'.sessions && Finished(env, p.row.data, t'.sessions[d].data, x, p.e)
      && (forall y :: y in t.turns && y != x ==> y in t'.turns && t'.turns[y] == t.turns[y])
      && (forall e :: e in t.sessions && e != d ==> e in t'.sessions && t'.sessions[e] == t.sessions[e])
  {
    hide TableInv, Apply, Matches, FinishReplies, FinishedSession, FinishedTurn, EndsAs, Finished;
    var u := p.mine.data;
    PutSession(t, u.ident.device, p.row, FinishedSession(env, p.row.data, u.id, p.e), expires);
    DistinctAt(t, log, next, u.ident.device);
    FinishedIsExact(env, p.row.data, u.id, p.e, u);
    FinishAdvances(env, t, p);
    PutTurn(t, u.id, p.mine, FinishedTurn(env, u, p.row.data, p.e));
  }

  lemma FinishWrites(env: Env, s: Sys, pid: nat, p: Proc, ch: Choice)
    requires NoticesFit(env) && Inv(s) && pid in s.procs && p == s.procs[pid] && p.FinishCommit? && Passes(env, s, p, ch)
    ensures
      var x, d, t' := p.mine.data.id, p.mine.data.ident.device, Step(env, s, Advance(pid, ch)).table;
      && x in s.table.turns && s.table.turns[x] == p.mine && d in s.table.sessions && s.table.sessions[d] == p.row
      && x in t'.turns && EndsAs(env, p.row.data.replies, x, p.e, t'.turns[x].data) && t'.turns[x].data.input == ""
      && d in t'.sessions && Finished(env, p.row.data, t'.sessions[d].data, x, p.e)
      && (forall y :: y in s.table.turns && y != x ==> y in t'.turns && t'.turns[y] == s.table.turns[y])
      && (forall e :: e in s.table.sessions && e != d ==> e in t'.sessions && t'.sessions[e] == s.table.sessions[e])
  {
    hide Inv, Step, ProcOk, TxApply, TxMatches, FinishTx, EndsAs, Finished, Faithful;
    InvProcAt(s, pid);
    FinisherKnows(s, pid, p);
    PassedWrites(env, s, pid, p, ch);
    InvTable(s);
    FinishApplies(env, s.table, s.log, s.nextSession, p, Window(s, ch));
  }

  lemma FinisherKnows(s: Sys, pid: nat, p: Proc)
    requires p.FinishCommit? && ProcOk(s.table, s.log, s.clock, pid, p)
    ensures MayFinish(s.table, p.mine, p.e) && Targets(s.table, p.mine, p.row)
  {
    hide SubmitOk, ResetOk, SpeechOk, ExecuteOk, Faithful, Owned;
  }

  lemma FinishAdvances(env: Env, t: Table, p: Proc)
    requires p.FinishCommit? && MayFinish(t, p.mine, p.e)
    ensures Advances(p.mine.data, FinishedTurn(env, p.mine.data, p.row.data, p.e))
  {
    hide Faithful, MarkReply, Queued;
  }

  // How the step of process p in state s decided turn u, which became v.
  ghost predicate Decision(env: Env, s: Sys, p: Proc, u: Turn, v: Turn) {
    if p.SubmitCommit? then v.state == Failed && v.failure == WorkerInterrupted && u.deadline <= s.clock
    else if p.ResetCommit? then v.state == Cancelled && v.failure == Stopped && u.id.device == p.id.device
    else
      && p.FinishCommit? && p.mine.data == u && p.row.data.id == u.sessionId && EndsAs(env, p.row.data.replies, u.id, p.e, v)
  }

  lemma StepDecides(env: Env, s: Sys, a: Action, x: Receipt)
    requires NoticesFit(env) && Inv(s) && AllHeldOk(s) && x in s.table.turns && Active(s.table.turns[x].data.state)
    requires var t' := Step(env, s, a).table; x in t'.turns && !Active(t'.turns[x].data.state)
    ensures a.Advance? && a.pid in s.procs
    ensures Decision(env, s, s.procs[a.pid], s.table.turns[x].data, Step(env, s, a).table.turns[x].data)
  {
    hide Inv, Step, ProcOk, TxApply, TxMatches, SubmitTx, ResetTx, FinishTx, EndsAs, Finished, Passes;
    if a.Advance? && a.pid in s.procs && Commits(s.procs[a.pid]) {
      var p := s.procs[a.pid];
      InvProcAt(s, a.pid);
      assert HeldOk(s.clock, p);
      if p.SubmitCommit? || p.ResetCommit? || p.FinishCommit? {
        PassedWrites(env, s, a.pid, p, a.ch);
        if !Passes(env, s, p, a.ch) {
        } else if p.SubmitCommit? { SubmitInterruptsIt(env, s, a.pid, p, a.ch); }
        else if p.ResetCommit? { ResetStopsIt(env, s, a.pid, p, a.ch, x); TurnIdIs(s, x); }
        else {
          FinishWrites(env, s, a.pid, p, a.ch);
          FinishTargets(s, a.pid, p);
        }
      } else {
        SmallCommitKeepsLock(env, s, a.pid, p, a.ch);
      }
    } else {
      ReadKeepsTable(env, s, a);
      assert false;
    }
  }

  lemma FinishTargets(s: Sys, pid: nat, p: Proc)
    requires p.FinishCommit? && ProcOk(s.table, s.log, s.clock, pid, p)
    ensures p.row.data.id == p.mine.data.sessionId
  {
    hide SubmitOk, ResetOk, SpeechOk, ExecuteOk, Faithful, Owned, MayFinish;
  }

  lemma SubmitInterruptsIt(env: Env, s: Sys, pid: nat, p: Proc, ch: Choice)
    requires Inv(s) && pid in s.procs && p == s.procs[pid] && p.SubmitCommit? && Passes(env, s, p, ch)
    requires ProcOk(s.table, s.log, s.clock, pid, p)
    ensures
      var t' := TxApply(s.table, Asked(env, s, p, ch));
      forall x :: x in s.table.turns ==>
        && x in t'.turns
        && (t'.turns[x] == s.table.turns[x]
            || (p.prev.Some? && p.prev.value == s.table.turns[x] && t'.turns[x].data == Interrupted(s.table.turns[x].data)))
  {
    hide Inv, TxApply, SubmitTx, ResetOk, SpeechOk, ExecuteOk, FinishOk, TurnStep;
    SubmitAddsTurn(s.table, p, Unix(p.now) + RECOVERY_WINDOW);
  }

  lemma ResetStopsIt(env: Env, s: Sys, pid: nat, p: Proc, ch: Choice, x: Receipt)
    requires Inv(s) && pid in s.procs && p == s.procs[pid] && p.ResetCommit? && Passes(env, s, p, ch)
    requires ProcOk(s.table, s.log, s.clock, pid, p) && x in s.table.turns
    ensures
      var t' := TxApply(s.table, Asked(env, s, p, ch));
      x in t'.turns && (t'.turns[x] == s.table.turns[x]
        || (x.device == p.id.device && t'.turns[x].data == CancelledTurn(s.table.turns[x].data)))
  {
    hide Inv, TxApply, ResetTx, SubmitOk, SpeechOk, ExecuteOk, FinishOk, TurnStep, GivesUp;
    ResetGivesUp(s.table, p, s.nextSession);
    ResetActive(s.table, p.id.device, p.old_, p.active);
    TurnIdIs(s, x);
  }

  lemma TurnIdIs(s: Sys, x: Receipt)
    requires Inv(s) && x in s.table.turns
    ensures s.table.turns[x].data.id == x
  {
    assert TurnOk(s.table, s.log, x);
  }

  // ----- Main results -----

  // Moment k is when turn x was decided as it is at moment n.
  ghost predicate DecidedAt(env: Env, actions: seq<Action>, k: nat, n: nat, x: Receipt)
    requires k < n <= |actions|
  {
    var s, a := At(env, actions, k), actions[k];
    && a.Advance? && a.pid in s.procs && x in s.table.turns && Active(s.table.turns[x].data.state)
    && x in At(env, actions, n).table.turns
    && Decision(env, s, s.procs[a.pid], s.table.turns[x].data, At(env, actions, n).table.turns[x].data)
  }

  lemma {:induction false} WhenDecided(env: Env, actions: seq<Action>, n: nat, x: Receipt) returns (k: nat)
    requires NoticesFit(env) && n <= |actions| && x in At(env, actions, n).table.turns && !Active(At(env, actions, n).table.turns[x].data.state)
    ensures k < n && DecidedAt(env, actions, k, n, x)
  {
    hide At, Inv, Said, Step, Decision, AllHeldOk, Evolves;
    AtFirst(env, actions);
    AtNext(env, actions, n - 1);
    var s := At(env, actions, n - 1);
    HeldAt(env, actions, n - 1);
    if x !in s.table.turns { NewTurnsWait(env, s, actions[n - 1], x); }
    if Active(s.table.turns[x].data.state) {
      StepDecides(env, s, actions[n - 1], x);
      k := n - 1;
    } else {
      StepKeeps(env, s, actions[n - 1]);
      DecidedStays(s.table, At(env, actions, n).table, x);
      k := WhenDecided(env, actions, n - 1, x);
    }
  }

  lemma HeldAt(env: Env, actions: seq<Action>, n: nat)
    requires NoticesFit(env) && n <= |actions|
    ensures AllHeldOk(At(env, actions, n))
  {
    hide AllHeldOk;
    HeldThroughout(env, actions[..n]);
  }

  lemma DecidedStays(t: Table, t': Table, x: Receipt)
    requires Evolves(t, t') && x in t.turns && !Active(t.turns[x].data.state)
    ensures x in t'.turns && t'.turns[x] == t.turns[x]
  {
    assert TurnStep(t.turns[x], t'.turns[x]);
  }

  // A turn that was not there before is undecided.
  lemma NewTurnsWait(env: Env, s: Sys, a: Action, x: Receipt)
    requires NoticesFit(env) && Inv(s) && AllHeldOk(s) && x in Step(env, s, a).table.turns && x !in s.table.turns
    ensures Active(Step(env, s, a).table.turns[x].data.state)
  {
    hide Inv, Step, SubmitTx, TxApply, TxMatches;
    if Adds(env, s, a) {
      var p := s.procs[a.pid];
      InvProcAt(s, a.pid);
      PassedWrites(env, s, a.pid, p, a.ch);
      SubmitAddsTurn(s.table, p, Unix(p.now) + RECOVERY_WINDOW);
    } else {
      OthersAddNone(env, s, a);
    }
  }

  // What the records say of a decided turn.
  ghost predicate Accounted(env: Env, log: Log, clock: nat, v: Turn) {
    match v.failure
    case NoReason => v.state == Complete && Good(env, log, v.id)
    case ExecutionFailed =>
      v.state == Failed && v.id in log.answers && v.id in log.errors && !Good(env, log, v.id) && !Limit(log.errors[v.id])
    case UsageLimit(_, _, _) => v.state == Failed && Get(log.errors, v.id) == Some(Some(v.failure))
    case WorkerInterrupted => v.state == Failed && v.deadline <= clock
    case QueueUnavailable => v.state == Failed
    case ReplyLimit => v.state == Failed
    case SettingsChanged => v.state == Cancelled
    case Stopped => v.state == Cancelled
  }

  lemma DecisionAccounts(env: Env, actions: seq<Action>, k: nat, n: nat, x: Receipt)
    requires NoticesFit(env) && k < n <= |actions| && DecidedAt(env, actions, k, n, x)
    ensures
      var t := At(env, actions, n);
      x in t.table.turns && Accounted(env, t.log, t.clock, t.table.turns[x].data)
  {
    hide At, Inv, Said, Step, Fits, Good, Onwards;
    var s, p := At(env, actions, k), At(env, actions, k).procs[actions[k].pid];
    var u, v := s.table.turns[x].data, At(env, actions, n).table.turns[x].data;
    SameTurn(env, actions, k, n, x);
    AllOnwards(env, actions, k, n);
    if p.FinishCommit? {
      EndingsAreJustified(env, actions, k, actions[k].pid, p.mine, p.e);
      JustifiedStays(env, s, At(env, actions, n), u, p.e);
      OneVerdict(env, p.row.data.replies, u, p.e, v);
    }
    ClockOf(s, At(env, actions, n));
  }

  lemma ClockOf(s: Sys, t: Sys)
    requires Onwards(s, t)
    ensures s.clock <= t.clock
  {
  }

  lemma SameTurn(env: Env, actions: seq<Action>, k: nat, n: nat, x: Receipt)
    requires NoticesFit(env) && k <= n <= |actions| && x in At(env, actions, k).table.turns
    ensures x in At(env, actions, n).table.turns
    ensures At(env, actions, n).table.turns[x].data.id == At(env, actions, k).table.turns[x].data.id == x
    ensures At(env, actions, n).table.turns[x].data.deadline == At(env, actions, k).table.turns[x].data.deadline
  {
    hide At, Inv;
    AllOnwards(env, actions, k, n);
    AllOnwards(env, actions, k, k);
    assert TurnStep(At(env, actions, k).table.turns[x], At(env, actions, n).table.turns[x]);
    ReachedAt(env, actions, k);
    TurnIdIs(At(env, actions, k), x);
  }

  lemma ReachedAt(env: Env, actions: seq<Action>, k: nat)
    requires NoticesFit(env) && k <= |actions|
    ensures Inv(At(env, actions, k))
  {
    Reachable(env, actions[..k]);
  }

  lemma OneVerdict(env: Env, replies: seq<Reply>, u: Turn, e: Ending, v: Turn)
    requires EndsAs(env, replies, u.id, e, v)
    ensures (v.state == e.status && v.failure == e.reason) || (v.state == Failed && v.failure == ReplyLimit)
  {
    hide Fits;
    if i :| 0 <= i < |replies| && replies[i].receipt == u.id {
      assert Fits(env, replies, i, e) || !Fits(env, replies, i, e);
    }
  }

  // Over every run: a turn is complete only if its own model run ended without an error, and
  // with a text that is not blank and not limited. It is failed by its run only if that run had
  // an error, was blank or was limited, with the usage limit that the run met; as interrupted
  // only past its deadline; and cancelled only by a Reset or a check.
  lemma TurnsEndAsTheirRunsDid(env: Env, actions: seq<Action>, x: Receipt)
    requires NoticesFit(env) && x in Run(env, INIT, actions).table.turns
    requires !Active(Run(env, INIT, actions).table.turns[x].data.state)
    ensures var t := Run(env, INIT, actions); t.table.turns[x].data.id == x && Accounted(env, t.log, t.clock, t.table.turns[x].data)
  {
    hide At, Run, Accounted;
    AtLast(env, actions);
    var k := WhenDecided(env, actions, |actions|, x);
    DecisionAccounts(env, actions, k, |actions|, x);
    SameTurn(env, actions, |actions|, |actions|, x);
  }

  // No check of process pid for turn mine failed before moment n.
  ghost predicate NoneDenied(env: Env, actions: seq<Action>, n: nat, pid: nat, mine: Row<Turn>)
    requires n <= |actions|
  {
    forall k :: 0 <= k < n && actions[k].Advance? && actions[k].pid == pid && pid in At(env, actions, k).procs ==>
      var p := At(env, actions, k).procs[pid];
      (p.CheckTurn? || p.CheckSession?) && p.mine == mine ==> !Denied(At(env, actions, k), p, actions[k].ch)
  }

  // Over every run: a model run without an error, whose text is not blank and not limited, none
  // of whose checks failed and whose finish goes through, completes its turn, unless the answer
  // is too large to keep; its queued answer is then the sanitised text of that very run, and its
  // exchange the last of the history that is trimmed to the budget.
  lemma GoodRunsAreKept(env: Env, actions: seq<Action>, n: nat)
    requires NoticesFit(env) && n < |actions| && actions[n].Advance? && actions[n].pid in At(env, actions, n).procs
    requires
      var s, p := At(env, actions, n), At(env, actions, n).procs[actions[n].pid];
      && p.FinishCommit? && Passes(env, s, p, actions[n].ch) && Good(env, s.log, p.mine.data.id)
      && NoneDenied(env, actions, n, actions[n].pid, p.mine)
    ensures
      var s, t, p := At(env, actions, n), At(env, actions, n + 1).table, At(env, actions, n).procs[actions[n].pid];
      var x, d, r := p.mine.data.id, p.mine.data.ident.device, s.log.answers[p.mine.data.id];
      var e := Ending(r, Complete, NoReason);
      && x in t.turns && d in s.table.sessions && d in t.sessions
      && EndsAs(env, s.table.sessions[d].data.replies, x, e, t.turns[x].data)
      && Finished(env, s.table.sessions[d].data, t.sessions[d].data, x, e)
  {
    hide At, Inv, Said, Step, Passes, EndsAs, Finished, Denied, Usable;
    var s, pid := At(env, actions, n), actions[n].pid;
    var p := s.procs[pid];
    AtNext(env, actions, n);
    EndingsAreJustified(env, actions, n, pid, p.mine, p.e);
    FinishWrites(env, s, pid, p, actions[n].ch);
    if p.mine.data.state == Pending { PendingNeverRan(env, s, p.mine.data.id); }
    if p.e.reason == SettingsChanged { CancelledByACheck(env, actions, n, pid, p.mine, p.e); }
  }

  lemma RunsWereClaimed(s: Sys)
    requires Inv(s)
    ensures forall x :: x in s.log.runs ==> x in s.log.claimed
  {
    hide ProcOk, TurnsOk, SessionsOk, SubmittedOk, ToldOk;
    forall x | x in s.log.runs
      ensures x in s.log.claimed
    {
      var i :| 0 <= i < |s.log.runs| && s.log.runs[i] == x;
    }
  }

  lemma PendingNeverRan(env: Env, s: Sys, x: Receipt)
    requires Inv(s) && Said(env, s) && x in s.table.turns && s.table.turns[x].data.state == Pending
    ensures x !in s.log.answers
  {
    assert TurnOk(s.table, s.log, x);
    AnswersWereRun(env, s);
    RunsWereClaimed(s);
  }

  lemma CancelledByACheck(env: Env, actions: seq<Action>, n: nat, pid: nat, mine: Row<Turn>, e: Ending)
    requires NoticesFit(env) && n <= |actions| && Finishing(At(env, actions, n), pid, mine, e) && e.reason == SettingsChanged
    ensures !NoneDenied(env, actions, n, pid, mine)
  {
    hide At, Inv, Said, Step, Denied, Usable;
    var k := WhyItEnds(env, actions, n, pid, mine, e);
    assert Denied(At(env, actions, k), At(env, actions, k).procs[pid], actions[k].ch);
  }
}
