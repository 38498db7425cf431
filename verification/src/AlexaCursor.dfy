// A partly spoken answer: its text is fixed and its cursor only moves on.
module AlexaCursor {
  import opened Prelude
  import opened Store
  import opened Conversation
  import opened AlexaProtocol
  import opened AlexaSafety
  import opened AlexaSteps
  import opened AlexaCommits
  import opened AlexaSpeaks
  import opened AlexaWrites
  import opened AlexaEndings
  import opened AlexaTheorems
  import opened AlexaResults

  ghost predicate CursorStep(a: Session, b: Session) {
    a.id == b.id ==>
      forall i, j :: 0 <= i < |a.replies| && 0 <= j < |b.replies| && a.replies[i].receipt == b.replies[j].receipt
                     && a.replies[i].offset > 0 ==>
        b.replies[j].text == a.replies[i].text && b.replies[j].offset >= a.replies[i].offset
  }

  ghost predicate CursorsStep(a: Table, b: Table) {
    forall d :: d in a.sessions && d in b.sessions ==> CursorStep(a.sessions[d].data, b.sessions[d].data)
  }

  // Queues that differ only in entries nothing of which has been spoken, or at the cursor.
  lemma CursorKept(a: Session, b: Session)
    requires NoDuplicates(Receipts(a.replies)) && |b.replies| >= |a.replies|
    requires forall i :: 0 <= i < |a.replies| ==>
               && b.replies[i].receipt == a.replies[i].receipt
               && (a.replies[i].offset > 0 ==> b.replies[i].text == a.replies[i].text && b.replies[i].offset >= a.replies[i].offset)
    requires forall i, j :: 0 <= i < |a.replies| <= j < |b.replies| ==> b.replies[j].receipt != a.replies[i].receipt
    ensures CursorStep(a, b)
  {
    forall i, j | 0 <= i < |a.replies| && 0 <= j < |b.replies| && a.replies[i].receipt == b.replies[j].receipt
                  && a.replies[i].offset > 0
      ensures b.replies[j].text == a.replies[i].text && b.replies[j].offset >= a.replies[i].offset
    {
      assert j < |a.replies|;
      assert Receipts(a.replies)[j] == b.replies[j].receipt == Receipts(a.replies)[i];
      assert i == j;
    }
  }

  // The queue after one more chunk: the head moved on, or left.
  lemma CursorSpoken(env: Env, a: Session, state: Status, text: string)
    requires NoDuplicates(Receipts(a.replies)) && Decision(a, state, text)
    ensures CursorStep(a, SpokenSession(env, a, state, text))
    ensures
      var b := SpokenSession(env, a, state, text);
      if b.lastSpeechMore then b.replies[0].receipt == a.replies[0].receipt && b.replies[0].offset > a.replies[0].offset
      else b.replies == a.replies[1..]
  {
    var b := SpokenSession(env, a, state, text);
    HeardPiece(env, text, a.replies[0].offset);
    if b.lastSpeechMore {
      CursorKept(a, b);
    } else {
      forall i, j | 0 <= i < |a.replies| && 0 <= j < |b.replies| && a.replies[i].receipt == b.replies[j].receipt
        ensures b.replies[j] == a.replies[i]
      {
        assert b.replies[j] == a.replies[j + 1];
        assert Receipts(a.replies)[i] == Receipts(a.replies)[j + 1];
      }
    }
  }

  lemma CursorSame(t: Table, log: Log, next: nat, a: Table, b: Table, d: string)
    requires TableInv(t, log, next) && d in t.sessions && a.sessions == t.sessions && d in b.sessions
    requires SameContent(t.sessions[d].data, b.sessions[d].data)
    ensures CursorStep(a.sessions[d].data, b.sessions[d].data)
  {
    assert SessionOk(t, log, next, d);
    Distinct(t, log, next, d);
    CursorKept(a.sessions[d].data, b.sessions[d].data);
  }

  // Only session d was put; its cursors are given.
  lemma CursorsAfterPut(t: Table, log: Log, next: nat, t': Table, d: string)
    requires TableInv(t, log, next) && OnlySession(t, t', d)
    requires d in t.sessions ==> CursorStep(t.sessions[d].data, t'.sessions[d].data)
    ensures CursorsStep(t, t')
  {
    forall e | e in t.sessions && e in t'.sessions
      ensures CursorStep(t.sessions[e].data, t'.sessions[e].data)
    {
      if e != d { CursorSame(t, log, next, t, t', e); }
    }
  }

  lemma SpeechMovesCursor(env: Env, s: Sys, pid: nat, p: Proc, ch: Choice)
    requires Inv(s) && p.SpeechCommit? && ProcOk(s.table, s.log, s.clock, pid, p)
    requires TxMatches(s.table, SessionTx(p.id.device, p.row, SpokenSession(env, p.row.data, p.state, p.text), Window(s, ch)))
    ensures CursorsStep(s.table, TxApply(s.table, SessionTx(p.id.device, p.row, SpokenSession(env, p.row.data, p.state, p.text), Window(s, ch))))
  {
    var d, v := p.id.device, SpokenSession(env, p.row.data, p.state, p.text);
    SpeechDecision(s.table, s.log, s.nextSession, p, v, Window(s, ch));
    PutSession(s.table, d, p.row, v, Window(s, ch));
    assert SessionOk(s.table, s.log, s.nextSession, d);
    Distinct(s.table, s.log, s.nextSession, d);
    CursorSpoken(env, p.row.data, p.state, p.text);
    CursorsAfterPut(s.table, s.log, s.nextSession, TxApply(s.table, SessionTx(d, p.row, v, Window(s, ch))), d);
  }

  lemma TouchLeavesCursor(s: Sys, d: string, row: Row<Session>, v: Session, expires: int)
    requires Inv(s) && SnapOk(s.table, d, row) && SameContent(row.data, v)
    requires TxMatches(s.table, SessionTx(d, row, v, expires))
    ensures CursorsStep(s.table, TxApply(s.table, SessionTx(d, row, v, expires)))
  {
    var t' := TxApply(s.table, SessionTx(d, row, v, expires));
    PutSession(s.table, d, row, v, expires);
    CursorSame(s.table, s.log, s.nextSession, s.table, t', d);
    CursorsAfterPut(s.table, s.log, s.nextSession, t', d);
  }

  // A matched Submit found no turn under its receipt.
  lemma SubmitChecksReceipt(t: Table, p: Proc, expires: int)
    requires p.SubmitCommit? && TxMatches(t, SubmitTx(p, expires))
    requires p.prev.Some? ==> p.prev.value.data.id != ReceiptOf(p.a)
    ensures ReceiptOf(p.a) !in t.turns
  {
    var tx, x := SubmitTx(p, expires), ReceiptOf(p.a);
    assert x in tx.turns && Holds(Get(t.turns, x), tx.turns[x]);
  }

  lemma CursorSubmitted(t: Table, log: Log, next: nat, d: string, x: Receipt)
    requires TableInv(t, log, next) && d in t.sessions && x !in t.turns
    ensures CursorStep(t.sessions[d].data, SubmittedSession(t.sessions[d].data, x))
  {
    hide TurnsOk, HistoryOk, SubmittedOk, ToldOk;
    var a, b := t.sessions[d].data, SubmittedSession(t.sessions[d].data, x);
    assert SessionOk(t, log, next, d);
    Distinct(t, log, next, d);
    forall i, j | 0 <= i < |a.replies| <= j < |b.replies|
      ensures b.replies[j].receipt != a.replies[i].receipt
    {
      assert ReplyOk(t, log, d, a.id, a.replies[i]);
    }
    CursorKept(a, b);
  }

  lemma SubmitLeavesCursor(s: Sys, pid: nat, p: Proc, expires: int)
    requires Inv(s) && p.SubmitCommit? && SnapOk(s.table, p.a.id.device, p.row) && TxMatches(s.table, SubmitTx(p, expires))
    requires p.prev.Some? ==> p.prev.value.data.id != ReceiptOf(p.a)
    ensures CursorsStep(s.table, TxApply(s.table, SubmitTx(p, expires)))
  {
    hide TableInv, CursorStep;
    PutSession(s.table, p.a.id.device, p.row, SubmittedSession(p.row.data, ReceiptOf(p.a)), expires);
    SubmitChecksReceipt(s.table, p, expires);
    CursorSubmitted(s.table, s.log, s.nextSession, p.a.id.device, ReceiptOf(p.a));
    CursorsAfterPut(s.table, s.log, s.nextSession, TxApply(s.table, SubmitTx(p, expires)), p.a.id.device);
  }

  lemma CursorFinished(env: Env, t: Table, log: Log, next: nat, d: string, x: Receipt, e: Ending)
    requires TableInv(t, log, next) && d in t.sessions && x in t.turns && Active(t.turns[x].data.state) && !Active(e.status)
    ensures CursorStep(t.sessions[d].data, FinishedSession(env, t.sessions[d].data, x, e))
  {
    hide TurnsOk, HistoryOk, SubmittedOk, ToldOk;
    var a, b := t.sessions[d].data, FinishedSession(env, t.sessions[d].data, x, e);
    assert SessionOk(t, log, next, d);
    Distinct(t, log, next, d);
    FinishSettles(env, a.replies, x, e);
    forall i | 0 <= i < |a.replies|
      ensures b.replies[i].receipt == a.replies[i].receipt
      ensures a.replies[i].offset > 0 ==> b.replies[i] == a.replies[i]
    {
      assert ReplyOk(t, log, d, a.id, a.replies[i]);
    }
    CursorKept(a, b);
  }

  lemma FinishLeavesCursor(env: Env, s: Sys, p: Proc, expires: int)
    requires Inv(s) && p.FinishCommit? && MayFinish(s.table, p.mine, p.e) && Targets(s.table, p.mine, p.row)
    requires TxMatches(s.table, FinishTx(env, p, expires))
    ensures CursorsStep(s.table, TxApply(s.table, FinishTx(env, p, expires)))
  {
    hide TableInv, CursorStep, FinishedSession, FinishReplies;
    var tx, d, x := FinishTx(env, p, expires), p.mine.data.ident.device, p.mine.data.id;
    PutSession(s.table, d, p.row, FinishedSession(env, p.row.data, x, p.e), expires);
    assert x in tx.turns && Holds(Get(s.table.turns, x), tx.turns[x]);
    CursorFinished(env, s.table, s.log, s.nextSession, d, x, p.e);
    CursorsAfterPut(s.table, s.log, s.nextSession, TxApply(s.table, tx), d);
  }

  lemma ResetLeavesCursor(s: Sys, pid: nat, p: Proc)
    requires Inv(s) && p.ResetCommit? && ProcOk(s.table, s.log, s.clock, pid, p) && TxMatches(s.table, ResetTx(p, s.nextSession))
    ensures CursorsStep(s.table, TxApply(s.table, ResetTx(p, s.nextSession)))
  {
    var t', d, v := TxApply(s.table, ResetTx(p, s.nextSession)), p.id.device, p.blank.(id := s.nextSession);
    ResetPut(s.table, t', d, p.old_, v, p.expires);
    if d in s.table.sessions { assert SessionOk(s.table, s.log, s.nextSession, d); }
    CursorsAfterPut(s.table, s.log, s.nextSession, t', d);
  }

  lemma CommitMovesCursor(env: Env, s: Sys, pid: nat, p: Proc, ch: Choice)
    requires NoticesFit(env) && Inv(s) && pid in s.procs && p == s.procs[pid] && Commits(p)
    requires ProcOk(s.table, s.log, s.clock, pid, p) && CursorsStep(s.table, s.table)
    ensures CursorsStep(s.table, Step(env, s, Advance(pid, ch)).table)
  {
    hide Faithful, Owned, PrevOk, MayFinish, Step, Inv, CursorsStep, SubmitTx, ResetTx, FinishTx, ClaimTx, SessionTx, SpokenSession, SpokenLog, SubmitLog, ResetLog, TxApply, TxMatches;
    CommitSteps(env, s, pid, p, ch);
    if Step(env, s, Advance(pid, ch)).table != s.table {
      if p.SubmitCommit? { SubmitLeavesCursor(s, pid, p, Unix(p.now) + RECOVERY_WINDOW); }
      if p.ResetCommit? { ResetLeavesCursor(s, pid, p); }
      if p.ResumeCommit? { TouchLeavesCursor(s, p.id.device, p.row, p.row.data.(ask := p.ask), Window(s, ch)); }
      if p.SpeechRepeat? { TouchLeavesCursor(s, p.id.device, p.row, p.row.data, Window(s, ch)); }
      if p.SpeechCommit? { SpeechMovesCursor(env, s, pid, p, ch); }
      if p.ExecClaim? { ClaimLeavesSessions(s, p.x, p.pending); }
      if p.FinishCommit? { FinishLeavesCursor(env, s, p, Window(s, ch)); }
    }
  }

  lemma ClaimLeavesSessions(s: Sys, x: Receipt, row: Row<Turn>)
    requires CursorsStep(s.table, s.table)
    ensures CursorsStep(s.table, TxApply(s.table, ClaimTx(x, row)))
  {
    ApplyNone(s.table.sessions);
  }

  lemma CursorsRefl(s: Sys)
    requires Inv(s)
    ensures CursorsStep(s.table, s.table)
  {
    forall d | d in s.table.sessions
      ensures CursorStep(s.table.sessions[d].data, s.table.sessions[d].data)
    {
      CursorSame(s.table, s.log, s.nextSession, s.table, s.table, d);
    }
  }

  // In no reachable state does any step change the text of an answer that has been
  // partly spoken, or move its cursor back, while its session lasts.
  lemma PartlySpokenAnswersAreFixed(env: Env, actions: seq<Action>, a: Action)
    requires NoticesFit(env)
    ensures CursorsStep(Run(env, INIT, actions).table, Run(env, INIT, actions + [a]).table)
  {
    hide StepSubmit, StepReset, StepSpeech, StepExecute, StepFinish, ProcOk, Inv, CursorsStep;
    Reachable(env, actions);
    var s := Run(env, INIT, actions);
    RunSplits(env, INIT, actions, [a]);
    assert [a][..0] == [];
    assert Run(env, INIT, actions + [a]) == Step(env, s, a);
    CursorsRefl(s);
    if a.Advance? && a.pid in s.procs {
      InvProcAt(s, a.pid);
      var p := s.procs[a.pid];
      if Commits(p) { CommitMovesCursor(env, s, a.pid, p, a.ch); }
      else if !p.ExecRun? { ReadMoves(env, s, a.pid, p, a.ch); }
      else { CommitSteps(env, s, a.pid, p, a.ch); }
    }
  }
}
