// Submit, Reset and finish: commits that move a session and its turns together.
module AlexaWrites {
  import opened Prelude
  import opened Store
  import opened Conversation
  import opened AlexaProtocol
  import opened AlexaSafety
  import opened AlexaSteps
  import opened AlexaCommits

  // Only turns of device d, and of them only undecided or new ones, may change.
  ghost predicate TurnsMove(a: Table, b: Table, d: string) {
    && (forall x :: x in a.turns ==> x in b.turns && TurnStep(a.turns[x], b.turns[x]))
    && (forall x :: x in a.turns && x.device != d ==> b.turns[x] == a.turns[x])
    && (forall x :: x in b.turns && x !in a.turns ==> x.device == d)
  }

  ghost predicate OnlySession(a: Table, b: Table, d: string) {
    d in b.sessions && b.sessions == a.sessions[d := b.sessions[d]]
  }

  // What the log may gain with a commit on session sid of device d.
  ghost predicate LogMoves(a: Log, b: Log, d: string, sid: nat) {
    && b.claimed == a.claimed && b.runs == a.runs && b.heard == a.heard && b.told == a.told
    && (forall k :: k != sid && k in a.submitted ==> k in b.submitted && b.submitted[k] == a.submitted[k])
    && (forall k :: k in b.submitted ==> k == sid || k in a.submitted)
    && (forall k :: k != sid && k in a.spoken ==> k in b.spoken && b.spoken[k] == a.spoken[k])
    && (forall k :: k in b.spoken ==> k == sid || k in a.spoken)
    && (sid in a.spoken ==> sid in b.spoken && b.spoken[sid] == a.spoken[sid])
    && (forall e :: e != d ==> (e in b.cleared <==> e in a.cleared))
  }

  // ----- The parts of TableInv away from the session that changed -----

  lemma OtherTurns(t: Table, log: Log, t': Table, log': Log, d: string)
    requires TurnsOk(t, log) && TurnsMove(t, t', d) && OnlySession(t, t', d) && log'.claimed == log.claimed
    requires forall x :: x in t'.turns && x.device == d ==> TurnOk(t', log', x)
    ensures TurnsOk(t', log')
  {
    forall x | x in t'.turns
      ensures TurnOk(t', log', x)
    {
      if x.device != d { assert TurnOk(t, log, x); }
    }
  }

  lemma OtherSameLog(t: Table, log: Log, t': Table, log': Log, d: string, sid: nat, e: string, k: nat)
    requires LogMoves(log, log', d, sid) && TurnsMove(t, t', d) && e != d && k != sid
    ensures SameTurns(t, t', e) && SameLog(t, log, log', e, k)
  {
  }

  lemma OtherSessions(t: Table, log: Log, next: nat, t': Table, log': Log, next': nat, d: string, sid: nat)
    requires SessionsOk(t, log, next) && TurnsMove(t, t', d) && OnlySession(t, t', d) && LogMoves(log, log', d, sid)
    requires forall e :: e in t.sessions && e != d ==> t.sessions[e].data.id != sid
    requires SessionOk(t', log', next', d) && next <= next'
    ensures SessionsOk(t', log', next')
  {
    forall e | e in t'.sessions && e != d
      ensures SessionOk(t', log', next', e)
    {
      OtherSameLog(t, log, t', log', d, sid, e, t.sessions[e].data.id);
      OtherOne(t, log, next, t', log', next', e);
    }
  }

  lemma OtherOne(t: Table, log: Log, next: nat, t': Table, log': Log, next': nat, e: string)
    requires SessionsOk(t, log, next) && e in t.sessions && e in t'.sessions && t'.sessions[e] == t.sessions[e]
    requires SameTurns(t, t', e) && SameLog(t, log, log', e, t.sessions[e].data.id) && next <= next'
    ensures SessionOk(t', log', next', e)
  {
    assert SessionOk(t, log, next, e);
    OtherSession(t, log, next, t', log', next', e);
  }

  lemma OtherLog(t: Table, log: Log, next: nat, t': Table, log': Log, next': nat, d: string, sid: nat)
    requires LogOk(t, log, next) && TurnsMove(t, t', d) && OnlySession(t, t', d) && LogMoves(log, log', d, sid)
    requires next <= next' && Evolves(t, t')
    requires sid < next' && sid in log'.submitted && sid in log'.spoken && SubmittedOk(t', log', sid)
    requires sid in log.spoken || log'.spoken[sid] == []
    ensures LogOk(t', log', next')
  {
    hide Faithful, SubmittedOk, TurnStep;
    forall k | k in log'.submitted
      ensures k < next' && SubmittedOk(t', log', k)
    {
      if k != sid { OtherSubmitted(t, log, t', log', k); }
    }
    forall x | x in log'.told
      ensures ToldOk(t', log', x)
    {
      ToldStays(t, log, t', log', x);
    }
  }

  // ----- Submit -----

  // A Submit adds its turn, and decides the interrupted turn it replaces.
  ghost predicate SubmitMoves(t: Table, t': Table, x: Receipt, u: Turn, prev: Option<Row<Turn>>) {
    && x !in t.turns && x in t'.turns && t'.turns[x].data == u
    && (forall y :: y in t'.turns ==> y == x || y in t.turns)
    && (forall y :: y in t.turns ==> y in t'.turns && TurnStep(t.turns[y], t'.turns[y]))
    && (forall y :: y in t.turns && !(prev.Some? && prev.value.data.id == y) ==> t'.turns[y] == t.turns[y])
    && (prev.Some? ==>
          var y := prev.value.data.id;
          y in t.turns && t.turns[y] == prev.value && t'.turns[y].data == Interrupted(t.turns[y].data))
  }

  lemma SubmitTurns(t: Table, t': Table, tx: map<Receipt, Change<Turn>>, x: Receipt, u: Turn, prev: Option<Row<Turn>>, expires: int)
    requires tx == map[x := Changed(None, u, expires)]
                   + if prev.None? then map[]
                     else map[prev.value.data.id := Changed(prev, Interrupted(prev.value.data), prev.value.expires)]
    requires Matches(t.turns, tx) && t'.turns == Apply(t.turns, tx)
    requires prev.Some? ==> prev.value.data.id != x && Faithful(t.turns, prev.value.data.id, prev.value) && Active(prev.value.data.state)
    ensures SubmitMoves(t, t', x, u, prev)
  {
    var c := Changed(None, u, expires);
    if prev.Some? {
      ApplyPair(t.turns, x, c, prev.value.data.id, Changed(prev, Interrupted(prev.value.data), prev.value.expires));
    } else {
      assert tx == map[x := c];
      ApplyPut(t.turns, x, c);
    }
  }

  // Turn y of a session on which a Submit commits is as before, or was interrupted.
  ghost predicate KeptOrInterrupted(t: Table, t': Table, y: Receipt)
    requires y in t.turns
  {
    && y in t'.turns && t'.turns[y].data.sessionId == t.turns[y].data.sessionId
    && (t'.turns[y] == t.turns[y] || (Active(t.turns[y].data.state) && t'.turns[y].data == Interrupted(t.turns[y].data)))
  }

  lemma SubmitReplyOk(t: Table, log: Log, t': Table, log': Log, d: string, sid: nat, r: Reply)
    requires ReplyOk(t, log, d, sid, r) && log'.heard == log.heard
    requires forall y :: y in t.turns && y.device == d ==> KeptOrInterrupted(t, t', y)
    ensures ReplyOk(t', log', d, sid, r)
  {
  }

  lemma FreshReplyOk(t: Table, log: Log, d: string, sid: nat, x: Receipt)
    requires Owned(t, d, sid, x) && t.turns[x].data.state == Pending && x !in log.heard
    ensures ReplyOk(t, log, d, sid, Reply(x, Pending, "", 0))
  {
  }

  lemma SubmitHistoryOk(t: Table, t': Table, d: string, sid: nat, x: Receipt)
    requires HistoryOk(t, d, sid, x) && forall y :: y in t.turns && y.device == d ==> KeptOrInterrupted(t, t', y)
    ensures HistoryOk(t', d, sid, x)
  {
  }

  // The session after Submit: its queue gains one undecided answer.
  lemma SubmitSessionOk(t: Table, log: Log, next: nat, t': Table, log': Log, d: string, x: Receipt)
    requires d in t.sessions && d in t'.sessions && SessionOk(t, log, next, d) && LogOk(t, log, next)
    requires |t.sessions[d].data.replies| < MAX_PENDING_REPLIES
    requires t'.sessions[d].data == SubmittedSession(t.sessions[d].data, x)
    requires x !in t.turns && Owned(t', d, t.sessions[d].data.id, x) && t'.turns[x].data.state == Pending
    requires forall y :: y in t.turns && y.device == d ==> KeptOrInterrupted(t, t', y)
    requires log' == log.(submitted := log.submitted[t.sessions[d].data.id := log.submitted[t.sessions[d].data.id] + [x]],
                          cleared := log.cleared - {d})
    ensures SessionOk(t', log', next, d)
  {
    hide SubmittedOk, ToldOk, TurnOk, ReplyOk, HistoryOk;
    var s, s' := t.sessions[d].data, t'.sessions[d].data;
    assert x !in log.heard;
    forall i | 0 <= i < |s'.replies|
      ensures ReplyOk(t', log', d, s.id, s'.replies[i])
    {
      if i < |s.replies| {
        SubmitReplyOk(t, log, t', log', d, s.id, s.replies[i]);
      } else {
        FreshReplyOk(t', log', d, s.id, x);
      }
    }
    forall i | 0 <= i < |s'.history|
      ensures HistoryOk(t', d, s.id, s'.history[i].receipt)
    {
      SubmitHistoryOk(t, t', d, s.id, s.history[i].receipt);
    }
    assert Receipts(s'.replies) == Receipts(s.replies) + [x];
    assert log'.submitted[s.id] == log'.spoken[s.id] + Receipts(s'.replies);
  }

  lemma SubmitOrder(t: Table, log: Log, t': Table, log': Log, sid: nat, x: Receipt)
    requires sid in log.submitted && sid in log.spoken && SubmittedOk(t, log, sid) && Evolves(t, t')
    requires x !in t.turns && x in t'.turns && t'.turns[x].data.sessionId == sid
    requires sid in log'.submitted && sid in log'.spoken
    requires log'.submitted[sid] == log.submitted[sid] + [x] && log'.spoken[sid] == log.spoken[sid]
    ensures SubmittedOk(t', log', sid)
  {
    var a, b := log.submitted[sid], log'.submitted[sid];
    forall i, j | 0 <= i < j < |b|
      ensures b[i] != b[j]
    {
      assert a[i] in t.turns;
      if j < |a| { assert a[i] != a[j]; }
    }
    forall i | 0 <= i < |b|
      ensures b[i] in t'.turns && t'.turns[b[i]].data.sessionId == sid
    {
      if i < |a| { assert a[i] in t.turns && TurnStep(t.turns[a[i]], t'.turns[a[i]]); }
    }
  }

  // After a Submit only the new turn of this Echo is undecided.
  lemma SubmitTurnsOk(t: Table, log: Log, t': Table, log': Log, d: string, x: Receipt, u: Turn, prev: Option<Row<Turn>>)
    requires TurnsOk(t, log) && d in t.sessions && d in t'.sessions && log'.claimed == log.claimed
    requires SubmitMoves(t, t', x, u, prev) && PrevOk(t, t.sessions[d].data.lastTurn, prev)
    requires t'.sessions[d].data.lastTurn == Some(x) && t'.sessions[d].data.id == u.sessionId
    requires x.device == d && x !in log.claimed && u.id == x && u.ident.device == d && Active(u.state)
    ensures forall y :: y in t'.turns && y.device == d ==> TurnOk(t', log', y)
  {
    forall y | y in t'.turns && y.device == d
      ensures TurnOk(t', log', y)
    {
      if y != x { assert TurnOk(t, log, y); }
    }
  }

  lemma SubmitKeeps(t: Table, log: Log, next: nat, p: Proc, expires: int)
    requires TableInv(t, log, next) && p.SubmitCommit? && SnapOk(t, p.a.id.device, p.row) && PrevOk(t, p.row.data.lastTurn, p.prev)
    requires |p.row.data.replies| < MAX_PENDING_REPLIES
    requires TxMatches(t, SubmitTx(p, expires)) && (p.prev.Some? ==> p.prev.value.data.id != ReceiptOf(p.a))
    ensures
      var t' := TxApply(t, SubmitTx(p, expires));
      TableInv(t', SubmitLog(log, p), next) && Evolves(t, t')
  {
    hide TableInv, Grows, SubmitMoves, SubmittedTurn, SubmittedSession, Evolves, Apply, Matches, SubmitLog;
    var tx := SubmitTx(p, expires);
    var t', d, x := TxApply(t, tx), p.a.id.device, ReceiptOf(p.a);
    SubmitTurns(t, t', tx.turns, x, SubmittedTurn(p.a, p.settings, p.row.data.id, p.now), p.prev, Unix(p.now) + RECOVERY_WINDOW);
    PutSession(t, d, p.row, SubmittedSession(p.row.data, x), expires);
    SubmitTable(t, log, next, t', p);
  }

  // What a Submit finds at its own session and receipt.
  lemma SubmitFacts(t: Table, log: Log, next: nat, d: string, x: Receipt)
    requires TableInv(t, log, next) && d in t.sessions && x !in t.turns
    ensures TurnsOk(t, log) && SessionsOk(t, log, next) && UniqueIds(t) && LogOk(t, log, next) && SessionOk(t, log, next, d)
    ensures
      var sid := t.sessions[d].data.id;
      && sid < next && sid in log.submitted && sid in log.spoken && SubmittedOk(t, log, sid)
      && (forall e :: e in t.sessions && e != d ==> t.sessions[e].data.id != sid)
      && x !in log.claimed && x !in log.heard
      && (t.sessions[d].data.lastTurn.Some? ==> t.sessions[d].data.lastTurn.value.device == d)
  {
    hide ReplyOk, HistoryOk, ToldOk, SubmittedOk, TurnOk;
    var sid := t.sessions[d].data.id;
    assert SessionOk(t, log, next, d);
    assert sid in log.submitted && SubmittedOk(t, log, sid);
    forall e | e in t.sessions && e != d
      ensures t.sessions[e].data.id != sid
    {
    }
  }

  lemma SubmitFrame(t: Table, t': Table, d: string, x: Receipt, u: Turn, prev: Option<Row<Turn>>)
    requires SubmitMoves(t, t', x, u, prev) && Grows(t.sessions, t'.sessions)
    requires x.device == d && (prev.Some? ==> prev.value.data.id.device == d)
    ensures TurnsMove(t, t', d) && Evolves(t, t')
  {
  }

  lemma SubmittedTable(t: Table, log: Log, next: nat)
    requires TurnsOk(t, log) && SessionsOk(t, log, next) && UniqueIds(t) && LogOk(t, log, next)
    ensures TableInv(t, log, next)
  {
  }

  lemma SubmitInterrupts(t: Table, t': Table, d: string, x: Receipt, u: Turn, prev: Option<Row<Turn>>)
    requires SubmitMoves(t, t', x, u, prev) && (prev.Some? ==> Active(prev.value.data.state))
    ensures forall y :: y in t.turns && y.device == d ==> KeptOrInterrupted(t, t', y)
  {
  }

  lemma SubmitTable(t: Table, log: Log, next: nat, t': Table, p: Proc)
    requires TableInv(t, log, next) && p.SubmitCommit? && Grows(t.sessions, t'.sessions)
    requires
      var d, x := p.a.id.device, ReceiptOf(p.a);
      && d in t.sessions && d in t'.sessions && t.sessions[d] == p.row && OnlySession(t, t', d)
      && t'.sessions[d].data == SubmittedSession(p.row.data, x) && |p.row.data.replies| < MAX_PENDING_REPLIES
      && SubmitMoves(t, t', x, SubmittedTurn(p.a, p.settings, p.row.data.id, p.now), p.prev)
      && PrevOk(t, p.row.data.lastTurn, p.prev)
    ensures TableInv(t', SubmitLog(log, p), next) && Evolves(t, t')
  {
    hide TableInv, TurnsOk, SessionsOk, SessionOk, LogOk, UniqueIds, SubmittedOk, TurnStep, Faithful;
    var log', d, x, sid := SubmitLog(log, p), p.a.id.device, ReceiptOf(p.a), p.row.data.id;
    var u := SubmittedTurn(p.a, p.settings, sid, p.now);
    SubmitFacts(t, log, next, d, x);
    SubmitFrame(t, t', d, x, u, p.prev);
    SubmitInterrupts(t, t', d, x, u, p.prev);
    SubmitSessionOk(t, log, next, t', log', d, x);
    SubmitTurnsOk(t, log, t', log', d, x, u, p.prev);
    OtherTurns(t, log, t', log', d);
    SubmitLogMoves(log, p);
    OtherSessions(t, log, next, t', log', next, d, sid);
    SameIdsUnique(t, t', d);
    SubmitOrder(t, log, t', log', sid, x);
    OtherLog(t, log, next, t', log', next, d, sid);
    SubmittedTable(t', log', next);
  }

  lemma SubmitLogMoves(log: Log, p: Proc)
    requires p.SubmitCommit?
    ensures LogMoves(log, SubmitLog(log, p), p.a.id.device, p.row.data.id)
  {
  }
}
