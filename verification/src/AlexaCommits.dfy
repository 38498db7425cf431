// The seven kinds of commit, and the one step that invokes the model.
module AlexaCommits {
  import opened Prelude
  import opened Store
  import opened Conversation
  import opened AlexaProtocol
  import opened AlexaSafety
  import opened AlexaSteps

  // ----- What a matched transaction does -----

  lemma PutSession(t: Table, d: string, row: Row<Session>, v: Session, expires: int)
    requires Faithful(t.sessions, d, row)
    requires Matches(t.sessions, map[d := Changed(Some(row), v, expires)])
    ensures
      var after := Apply(t.sessions, map[d := Changed(Some(row), v, expires)]);
      && t.sessions[d] == row && after == t.sessions[d := Row(row.version + 1, expires, v)]
      && Grows(t.sessions, after)
  {
    var tx := map[d := Changed(Some(row), v, expires)];
    assert d in tx;
    assert Holds(Get(t.sessions, d), tx[d]);
    ApplyPut(t.sessions, d, tx[d]);
    CommitGrows(t.sessions, tx);
  }

  // A turn is moved on: same identity, later state.
  ghost predicate Advances(u: Turn, v: Turn) {
    && v.id == u.id && v.ident == u.ident && v.sessionId == u.sessionId && v.settings == u.settings && v.deadline == u.deadline
    && Active(u.state) && Rank(u.state) <= Rank(v.state)
  }

  lemma PutTurn(t: Table, x: Receipt, row: Row<Turn>, v: Turn)
    requires Faithful(t.turns, x, row) && Advances(row.data, v)
    requires Matches(t.turns, map[x := Changed(Some(row), v, row.expires)])
    ensures
      var after := Apply(t.turns, map[x := Changed(Some(row), v, row.expires)]);
      && t.turns[x] == row && after == t.turns[x := Row(row.version + 1, row.expires, v)]
      && TurnStep(row, after[x])
  {
    var tx := map[x := Changed(Some(row), v, row.expires)];
    assert x in tx;
    assert Holds(Get(t.turns, x), tx[x]);
    ApplyPut(t.turns, x, tx[x]);
  }

  lemma Distinct(t: Table, log: Log, next: nat, d: string)
    requires d in t.sessions && SessionOk(t, log, next, d) && LogOk(t, log, next)
    ensures NoDuplicates(Receipts(t.sessions[d].data.replies))
    ensures forall x :: x in Receipts(t.sessions[d].data.replies) ==> x !in log.spoken[t.sessions[d].data.id]
  {
    var s := t.sessions[d].data;
    var told, queue := log.spoken[s.id], Receipts(s.replies);
    assert SubmittedOk(t, log, s.id);
    assert NoDuplicates(told + queue);
    forall i, j | 0 <= i < j < |queue|
      ensures queue[i] != queue[j]
    {
      assert (told + queue)[|told| + i] != (told + queue)[|told| + j];
    }
    forall x | x in queue
      ensures x !in told
    {
      NoDuplicatesSplit(told, queue, x);
    }
  }

  // ----- Resume, and Speech repeating the last chunk: only the session's age or dialog changes -----

  ghost predicate SameContent(a: Session, b: Session) {
    a.id == b.id && a.lastTurn == b.lastTurn && a.history == b.history && a.replies == b.replies && a.lastSpeech == b.lastSpeech
  }

  lemma TouchKeeps(t: Table, log: Log, next: nat, d: string, row: Row<Session>, v: Session, expires: int)
    requires TableInv(t, log, next) && SnapOk(t, d, row) && SameContent(row.data, v)
    requires TxMatches(t, SessionTx(d, row, v, expires))
    ensures
      var t' := TxApply(t, SessionTx(d, row, v, expires));
      TableInv(t', log, next) && Evolves(t, t')
  {
    hide SessionOk, TurnOk, SubmittedOk, ToldOk;
    var t' := TxApply(t, SessionTx(d, row, v, expires));
    PutSession(t, d, row, v, expires);
    ApplyNone(t.turns);
    assert t'.turns == t.turns && t'.sessions == t.sessions[d := t'.sessions[d]];
    TouchedTurns(t, log, t', d);
    TouchedSessions(t, log, next, t', d);
    SameIdsUnique(t, t', d);
    LogStays(t, log, t', next);
  }

  lemma SameIdsUnique(t: Table, t': Table, d: string)
    requires UniqueIds(t) && d in t.sessions && d in t'.sessions && t'.sessions == t.sessions[d := t'.sessions[d]]
    requires t'.sessions[d].data.id == t.sessions[d].data.id
    ensures UniqueIds(t')
  {
  }

  lemma TouchedSessions(t: Table, log: Log, next: nat, t': Table, d: string)
    requires SessionsOk(t, log, next) && t'.turns == t.turns && d in t.sessions && d in t'.sessions
    requires t'.sessions == t.sessions[d := t'.sessions[d]] && SameContent(t.sessions[d].data, t'.sessions[d].data)
    ensures SessionsOk(t', log, next)
  {
    forall e | e in t'.sessions
      ensures SessionOk(t', log, next, e)
    {
      assert SessionOk(t, log, next, e);
      if e == d { TouchedSession(t, log, next, t', d); }
      else { OtherSession(t, log, next, t', log, next, e); }
    }
  }

  // Turns only look at which turn and which id their session names.
  lemma TouchedTurns(t: Table, log: Log, t': Table, d: string)
    requires TurnsOk(t, log) && t'.turns == t.turns && d in t.sessions && d in t'.sessions
    requires t'.sessions == t.sessions[d := t'.sessions[d]]
    requires t'.sessions[d].data.lastTurn == t.sessions[d].data.lastTurn && t'.sessions[d].data.id == t.sessions[d].data.id
    ensures TurnsOk(t', log)
  {
    forall x | x in t'.turns
      ensures TurnOk(t', log, x)
    {
      assert TurnOk(t, log, x);
    }
  }

  lemma TouchedSession(t: Table, log: Log, next: nat, t': Table, d: string)
    requires d in t.sessions && d in t'.sessions && t'.turns == t.turns
    requires SessionOk(t, log, next, d) && SameContent(t.sessions[d].data, t'.sessions[d].data)
    ensures SessionOk(t', log, next, d)
  {
    var s := t.sessions[d].data;
    forall i | 0 <= i < |s.replies|
      ensures ReplyOk(t', log, d, s.id, s.replies[i])
    {
      assert ReplyOk(t, log, d, s.id, s.replies[i]);
    }
    forall i | 0 <= i < |s.history|
      ensures HistoryOk(t', d, s.id, s.history[i].receipt)
    {
      assert HistoryOk(t, d, s.id, s.history[i].receipt);
    }
  }

  // The log's own facts survive any change of the table that Evolves allows.
  lemma LogStays(t: Table, log: Log, t': Table, next: nat)
    requires LogOk(t, log, next) && Evolves(t, t')
    ensures LogOk(t', log, next)
  {
    forall sid | sid in log.submitted
      ensures sid < next && SubmittedOk(t', log, sid)
    {
      OtherSubmitted(t, log, t', log, sid);
    }
    forall x | x in log.told
      ensures ToldOk(t', log, x)
    {
      ToldStays(t, log, t', log, x);
    }
  }

  // ----- Execute claims a pending turn, and invokes the model -----

  lemma ClaimKeeps(t: Table, log: Log, next: nat, pid: nat, x: Receipt, row: Row<Turn>)
    requires TableInv(t, log, next) && Faithful(t.turns, x, row) && row.data.state == Pending
    requires TxMatches(t, ClaimTx(x, row))
    ensures
      var t', log' := TxApply(t, ClaimTx(x, row)), log.(claimed := log.claimed[x := pid]);
      && TableInv(t', log', next) && Evolves(t, t') && x !in log.claimed
      && t'.turns[x] == ClaimTx(x, row).turns[x].after.value
  {
    hide SessionOk, TurnOk, SubmittedOk, ToldOk, Evolves;
    var t', log' := TxApply(t, ClaimTx(x, row)), log.(claimed := log.claimed[x := pid]);
    PutTurn(t, x, row, row.data.(state := Running));
    ApplyNone(t.sessions);
    assert t'.sessions == t.sessions && t'.turns == t.turns[x := t'.turns[x]];
    OneTurnEvolves(t, t', x);
    ClaimedTurns(t, log, t', log', x);
    forall d | d in t'.sessions
      ensures SessionOk(t', log', next, d)
    {
      ClaimedSession(t, log, next, t', log', x, d);
    }
    LogStays(t, log, t', next);
    LogClaims(t', log, log', next);
  }

  lemma OneTurnEvolves(t: Table, t': Table, x: Receipt)
    requires x in t.turns && x in t'.turns && t'.sessions == t.sessions && t'.turns == t.turns[x := t'.turns[x]]
    requires TurnStep(t.turns[x], t'.turns[x])
    ensures Evolves(t, t')
  {
  }

  lemma ClaimedTurns(t: Table, log: Log, t': Table, log': Log, x: Receipt)
    requires TurnsOk(t, log) && t'.sessions == t.sessions && x in t.turns && x in t'.turns
    requires t'.turns == t.turns[x := t'.turns[x]] && TurnStep(t.turns[x], t'.turns[x]) && t'.turns[x].data.state == Running
    requires log'.claimed.Keys == log.claimed.Keys + {x} && t.turns[x].data.state == Pending
    ensures TurnsOk(t', log') && x !in log.claimed
  {
    assert TurnOk(t, log, x);
    forall y | y in t'.turns
      ensures TurnOk(t', log', y)
    {
      assert TurnOk(t, log, y);
    }
  }

  lemma LogClaims(t: Table, a: Log, b: Log, next: nat)
    requires LogOk(t, a, next) && (forall x :: x in b.claimed ==> x in t.turns)
    requires (forall x :: x in a.claimed ==> x in b.claimed) && b == a.(claimed := b.claimed)
    ensures LogOk(t, b, next)
  {
    forall sid | sid in b.submitted
      ensures SubmittedOk(t, b, sid)
    {
      assert SubmittedOk(t, a, sid);
    }
    forall x | x in b.told
      ensures ToldOk(t, b, x)
    {
      assert ToldOk(t, a, x);
    }
  }

  ghost predicate ClaimedOrKept(t: Table, t': Table, x: Receipt)
    requires x in t.turns
  {
    && x in t'.turns && TurnStep(t.turns[x], t'.turns[x])
    && (t'.turns[x] == t.turns[x] || (t.turns[x].data.state == Pending && t'.turns[x].data.state == Running))
  }

  lemma ClaimedReply(t: Table, log: Log, t': Table, log': Log, d: string, sid: nat, r: Reply)
    requires ReplyOk(t, log, d, sid, r) && log'.heard == log.heard
    requires forall x :: x in t.turns ==> ClaimedOrKept(t, t', x)
    ensures ReplyOk(t', log', d, sid, r)
  {
    assert ClaimedOrKept(t, t', r.receipt);
  }

  lemma ClaimedHistory(t: Table, t': Table, x: Receipt, d: string, sid: nat, y: Receipt)
    requires HistoryOk(t, d, sid, y) && x in t.turns && t.turns[x].data.state == Pending
    requires x in t'.turns && t'.turns == t.turns[x := t'.turns[x]]
    ensures HistoryOk(t', d, sid, y)
  {
  }

  lemma ClaimedSession(t: Table, log: Log, next: nat, t': Table, log': Log, x: Receipt, d: string)
    requires d in t.sessions && SessionOk(t, log, next, d) && x in t.turns && t.turns[x].data.state == Pending
    requires t'.sessions == t.sessions && x in t'.turns && t'.turns == t.turns[x := t'.turns[x]]
    requires TurnStep(t.turns[x], t'.turns[x]) && t'.turns[x].data.state == Running
    requires log' == log.(claimed := log'.claimed)
    ensures SessionOk(t', log', next, d)
  {
    hide ReplyOk, HistoryOk;
    var v := t.sessions[d].data;
    forall i | 0 <= i < |v.replies|
      ensures ReplyOk(t', log', d, v.id, v.replies[i])
    {
      ClaimedReply(t, log, t', log', d, v.id, v.replies[i]);
    }
    forall i | 0 <= i < |v.history|
      ensures HistoryOk(t', d, v.id, v.history[i].receipt)
    {
      ClaimedHistory(t, t', x, d, v.id, v.history[i].receipt);
    }
  }

  lemma RunTurn(t: Table, log: Log, log': Log, y: Receipt)
    requires y in t.turns && TurnOk(t, log, y) && log'.claimed == log.claimed
    ensures TurnOk(t, log', y)
  {
  }

  lemma RunSession(t: Table, log: Log, log': Log, next: nat, d: string)
    requires d in t.sessions && SessionOk(t, log, next, d) && log' == log.(runs := log'.runs, answers := log'.answers, errors := log'.errors)
    ensures SessionOk(t, log', next, d)
  {
    OtherSession(t, log, next, t, log', next, d);
  }

  // Run is invoked by the process that claimed the turn, and only once.
  lemma RunKeeps(t: Table, log: Log, next: nat, x: Receipt, result: RunResult, error: Option<Reason>)
    requires TableInv(t, log, next) && x in log.claimed && x !in log.runs
    ensures TableInv(t, RunLog(log, x, result, error), next)
  {
    hide SessionOk, TurnOk, LogOk;
    var log' := RunLog(log, x, result, error);
    forall y | y in t.turns
      ensures TurnOk(t, log', y)
    {
      assert TurnOk(t, log, y);
      RunTurn(t, log, log', y);
    }
    forall d | d in t.sessions
      ensures SessionOk(t, log', next, d)
    {
      assert SessionOk(t, log, next, d);
      RunSession(t, log, log', next, d);
    }
    LogRuns(t, log, log', next, x, result, error);
  }

  lemma LogRuns(t: Table, log: Log, log': Log, next: nat, x: Receipt, result: RunResult, error: Option<Reason>)
    requires LogOk(t, log, next) && log' == RunLog(log, x, result, error)
    requires x in log.claimed && x !in log.runs
    ensures LogOk(t, log', next)
  {
    forall sid | sid in log'.submitted
      ensures sid < next && SubmittedOk(t, log', sid)
    {
      assert SubmittedOk(t, log, sid);
    }
    forall y | y in log'.told
      ensures ToldOk(t, log', y)
    {
      assert ToldOk(t, log, y);
    }
  }
}
