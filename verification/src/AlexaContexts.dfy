// What the model is given: in every reachable state a session's history, and the context
// of a run about to start, keeps each tool result with its call.
module AlexaContexts {
  import opened Prelude
  import opened Conversation
  import opened Trimming
  import opened AlexaProtocol
  import opened AlexaSafety
  import opened AlexaTheorems
  import opened AlexaResults
  import opened AlexaAnswers

  // h was kept from the completed turn it is filed under.
  ghost predicate Kept(t: Table, log: Log, h: Exchange) {
    ExchangeSaid(log, h) && h.receipt in t.turns && t.turns[h.receipt].data.state == Complete
  }

  ghost predicate AllKept(t: Table, log: Log, history: seq<Exchange>) {
    forall i :: 0 <= i < |history| ==> Kept(t, log, history[i])
  }

  // A context is the flattened history of some moment.
  ghost predicate ContextKept(t: Table, log: Log, context: seq<Message>) {
    exists history: seq<Exchange> :: context == Flatten(history) && AllKept(t, log, history)
  }

  ghost predicate ContextsKept(s: Sys) {
    forall pid :: pid in s.procs && s.procs[pid].ExecRun? ==> ContextKept(s.table, s.log, s.procs[pid].context)
  }

  lemma HistoryKept(env: Env, s: Sys, d: string)
    requires Inv(s) && Said(env, s) && d in s.table.sessions
    ensures AllKept(s.table, s.log, s.table.sessions[d].data.history)
  {
    var v := s.table.sessions[d].data;
    assert SessionOk(s.table, s.log, s.nextSession, d) && SessionSaid(env, s.log, v);
    forall i | 0 <= i < |v.history|
      ensures Kept(s.table, s.log, v.history[i])
    {
      assert HistoryOk(s.table, d, v.id, v.history[i].receipt) && ExchangeSaid(s.log, v.history[i]);
    }
  }

  lemma ContextStays(a: Table, la: Log, b: Table, lb: Log, context: seq<Message>)
    requires ContextKept(a, la, context) && Evolves(a, b) && AnswersGrow(la, lb)
    ensures ContextKept(b, lb, context)
  {
    var history: seq<Exchange> :| context == Flatten(history) && AllKept(a, la, history);
    forall i | 0 <= i < |history|
      ensures Kept(b, lb, history[i])
    {
      assert Kept(a, la, history[i]);
      assert TurnStep(a.turns[history[i].receipt], b.turns[history[i].receipt]);
    }
  }

  // Only the step that reads the history makes a context.
  lemma ContextIsRead(env: Env, s: Sys, pid: nat, p: Proc, ch: Choice)
    requires pid in s.procs && p == s.procs[pid]
    ensures
      var s' := Step(env, s, Advance(pid, ch));
      pid in s'.procs && s'.procs[pid].ExecRun? ==>
        && s'.table == s.table && s'.log == s.log && p.ExecHistory?
        && s'.procs[pid].context == (var row := Get(s.table.sessions, p.mine.data.ident.device);
                                     if row.Some? then Flatten(row.value.data.history) else [])
  {
    hide StepSubmit, StepReset, StepSpeech, StepExecute, StepFinish;
    if IsSubmit(p) { SubmitMakesNone(s, pid, p, ch); }
    else if IsReset(p) { ResetMakesNone(s, pid, p, ch); }
    else if IsSpeech(p) { SpeechMakesNone(env, s, pid, p, ch); }
    else if IsExecute(p) { ExecuteMakesOne(env, s, pid, p, ch); }
    else { FinishMakesNone(env, s, pid, p, ch); }
  }

  ghost predicate NoRun(s': Sys, pid: nat) { pid in s'.procs ==> !s'.procs[pid].ExecRun? }

  lemma SubmitMakesNone(s: Sys, pid: nat, p: Proc, ch: Choice)
    requires IsSubmit(p)
    ensures NoRun(StepSubmit(s, pid, p, ch), pid)
  {
    hide TxApply, TxMatches, SubmitTx;
  }

  lemma ResetMakesNone(s: Sys, pid: nat, p: Proc, ch: Choice)
    requires IsReset(p)
    ensures NoRun(StepReset(s, pid, p, ch), pid)
  {
    hide TxApply, TxMatches, ResetTx, SessionTx, BlankSession;
  }

  lemma SpeechMakesNone(env: Env, s: Sys, pid: nat, p: Proc, ch: Choice)
    requires IsSpeech(p)
    ensures NoRun(StepSpeech(env, s, pid, p, ch), pid)
  {
    hide TxApply, TxMatches, SessionTx, SpokenSession, SpokenLog, ViewText;
  }

  lemma ExecuteMakesOne(env: Env, s: Sys, pid: nat, p: Proc, ch: Choice)
    requires IsExecute(p)
    ensures p.ExecHistory? ==> StepExecute(env, s, pid, p, ch) == ExecHistoryStep(s, pid, p)
    ensures !p.ExecHistory? ==> NoRun(StepExecute(env, s, pid, p, ch), pid)
  {
    hide TxApply, TxMatches, ClaimTx;
  }

  lemma FinishMakesNone(env: Env, s: Sys, pid: nat, p: Proc, ch: Choice)
    requires IsFinish(p)
    ensures NoRun(StepFinish(env, s, pid, p, ch), pid)
  {
    hide TxApply, TxMatches, FinishTx;
  }

  lemma ContextsStep(env: Env, s: Sys, a: Action)
    requires NoticesFit(env) && Inv(s) && Said(env, s) && ContextsKept(s)
    ensures ContextsKept(Step(env, s, a))
  {
    hide Inv, Said, ContextKept, Evolves, AnswersGrow;
    var s' := Step(env, s, a);
    if a.Advance? && a.pid in s.procs {
      StepKeeps(env, s, a);
      AdvanceSays(env, s, a.pid, a.ch);
      GrowsBy(env, s, s');
      AdvancesAlone(env, s, a.pid, s.procs[a.pid], a.ch);
      forall q | q in s'.procs && s'.procs[q].ExecRun?
        ensures ContextKept(s'.table, s'.log, s'.procs[q].context)
      {
        if q != a.pid { ContextStays(s.table, s.log, s'.table, s'.log, s.procs[q].context); }
        else { ReadContextKept(env, s, q, a.ch); }
      }
    } else {
      OutsideKeepsContexts(env, s, a);
    }
  }

  lemma ReadContextKept(env: Env, s: Sys, pid: nat, ch: Choice)
    requires Inv(s) && Said(env, s) && pid in s.procs
    ensures
      var s' := Step(env, s, Advance(pid, ch));
      pid in s'.procs && s'.procs[pid].ExecRun? ==> ContextKept(s'.table, s'.log, s'.procs[pid].context)
  {
    hide Inv, Said, Step, AllKept;
    var s' := Step(env, s, Advance(pid, ch));
    ContextIsRead(env, s, pid, s.procs[pid], ch);
    if pid in s'.procs && s'.procs[pid].ExecRun? {
      var d := s.procs[pid].mine.data.ident.device;
      if d in s.table.sessions { HistoryKept(env, s, d); } else { NothingKept(s.table, s.log); }
    }
  }

  lemma NothingKept(t: Table, log: Log)
    ensures ContextKept(t, log, [])
  {
    assert AllKept(t, log, []) && Flatten([]) == [];
  }

  lemma OutsideKeepsContexts(env: Env, s: Sys, a: Action)
    requires ContextsKept(s) && !(a.Advance? && a.pid in s.procs)
    ensures ContextsKept(Step(env, s, a))
  {
  }

  lemma {:induction false} ContextsThroughout(env: Env, actions: seq<Action>)
    requires NoticesFit(env)
    ensures ContextsKept(Run(env, INIT, actions))
  {
    hide Inv, Said, ContextsKept, Step;
    if actions == [] {
      InitContexts();
    } else {
      ContextsThroughout(env, actions[..|actions| - 1]);
      SaidThroughout(env, actions[..|actions| - 1]);
      Reachable(env, actions[..|actions| - 1]);
      ContextsStep(env, Run(env, INIT, actions[..|actions| - 1]), actions[|actions| - 1]);
    }
  }

  lemma InitContexts()
    ensures ContextsKept(INIT)
  {
  }

  // ----- Pairing -----

  // Each completed run added one whole exchange to its context.
  ghost predicate RunsAreWhole(s: Sys) {
    forall x :: x in s.log.answers && x in s.table.turns && s.table.turns[x].data.state == Complete ==>
      Whole(Exchange(x, s.log.answers[x].messages))
  }

  lemma KeptIsPaired(s: Sys, history: seq<Exchange>)
    requires RunsAreWhole(s) && AllKept(s.table, s.log, history)
    ensures Paired(Flatten(history))
  {
    forall i | 0 <= i < |history|
      ensures Whole(history[i])
    {
      assert Kept(s.table, s.log, history[i]);
      var x := history[i].receipt;
      assert Whole(Exchange(x, s.log.answers[x].messages));
    }
    WholeHistoryIsPaired(history);
  }

  // In every reachable state, if the runner adds one whole exchange per completed run, every
  // session's history and every context about to be sent keeps tool results with their calls.
  lemma ContextsKeepToolResults(env: Env, actions: seq<Action>, d: string, pid: nat)
    requires NoticesFit(env) && RunsAreWhole(Run(env, INIT, actions))
    ensures
      var s := Run(env, INIT, actions);
      && (d in s.table.sessions ==> Paired(Flatten(s.table.sessions[d].data.history)))
      && (pid in s.procs && s.procs[pid].ExecRun? ==> Paired(s.procs[pid].context))
  {
    hide Run, Step, Inv, Said, RunsAreWhole, AllKept, Paired;
    var s := Run(env, INIT, actions);
    Reachable(env, actions);
    SaidThroughout(env, actions);
    ContextsThroughout(env, actions);
    if d in s.table.sessions {
      HistoryKept(env, s, d);
      KeptIsPaired(s, s.table.sessions[d].data.history);
    }
    if pid in s.procs && s.procs[pid].ExecRun? {
      var history: seq<Exchange> :| s.procs[pid].context == Flatten(history) && AllKept(s.table, s.log, history);
      KeptIsPaired(s, history);
    }
  }
}
