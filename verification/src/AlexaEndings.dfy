// Reset and finish: the two commits that decide a turn and may give up the lock.
module AlexaEndings {
  import opened Prelude
  import opened Store
  import opened Conversation
  import opened Trimming
  import opened AlexaProtocol
  import opened AlexaSafety
  import opened AlexaSteps
  import opened AlexaCommits
  import opened AlexaWrites

  // ----- Reset -----

  // At most one turn row changed: the one read as undecided.
  ghost predicate DecidesOnly(t: Table, t': Table, row: Option<Row<Turn>>, v: Option<Turn>) {
    && t'.turns.Keys == t.turns.Keys
    && (forall y :: y in t.turns ==> TurnStep(t.turns[y], t'.turns[y]))
    && (forall y :: y in t.turns && !(row.Some? && row.value.data.id == y) ==> t'.turns[y] == t.turns[y])
    && (row.Some? ==> v.Some? && row.value.data.id in t.turns && t.turns[row.value.data.id] == row.value
                      && t'.turns[row.value.data.id].data == v.value)
  }

  lemma DecideTurns(t: Table, t': Table, tx: map<Receipt, Change<Turn>>, row: Option<Row<Turn>>, v: Option<Turn>)
    requires row.Some? ==> v.Some? && Faithful(t.turns, row.value.data.id, row.value) && Advances(row.value.data, v.value)
    requires tx == if row.None? then map[] else map[row.value.data.id := Changed(row, v.value, row.value.expires)]
    requires Matches(t.turns, tx) && t'.turns == Apply(t.turns, tx)
    ensures DecidesOnly(t, t', row, v)
  {
    if row.Some? { PutTurn(t, row.value.data.id, row.value, v.value); } else { ApplyNone(t.turns); }
  }

  function Cancels(active: Option<Row<Turn>>): Option<Turn> {
    if active.None? then None else Some(CancelledTurn(active.value.data))
  }

  // After a Reset every turn of this Echo is decided and holds no input.
  lemma ResetTurnsOk(t: Table, log: Log, t': Table, log': Log, d: string, active: Option<Row<Turn>>)
    requires TurnsOk(t, log) && log'.claimed == log.claimed && DecidesOnly(t, t', active, Cancels(active))
    requires d in t.sessions ==> PrevOk(t, t.sessions[d].data.lastTurn, active)
    requires d !in t.sessions ==> active.None?
    ensures forall y :: y in t'.turns && y.device == d ==>
              TurnOk(t', log', y) && !Active(t'.turns[y].data.state) && t'.turns[y].data.input == ""
  {
    forall y | y in t'.turns && y.device == d
      ensures TurnOk(t', log', y) && !Active(t'.turns[y].data.state) && t'.turns[y].data.input == ""
    {
      assert TurnOk(t, log, y);
    }
  }

  lemma FreshSession(t: Table, log: Log, t': Table, log': Log, next: nat, d: string)
    requires d in t'.sessions && t'.sessions[d].data.id == next && Blank(t'.sessions[d].data)
    requires log' == ResetLog(log, d, next)
    ensures SessionOk(t', log', next + 1, d)
  {
    assert Receipts(t'.sessions[d].data.replies) == [];
  }

  lemma ResetLogMoves(log: Log, d: string, next: nat)
    requires next !in log.submitted && next !in log.spoken
    ensures LogMoves(log, ResetLog(log, d, next), d, next)
  {
  }

  lemma FreshId(t: Table, log: Log, t': Table, d: string, next: nat)
    requires SessionsOk(t, log, next) && UniqueIds(t) && OnlySession(t, t', d) && t'.sessions[d].data.id == next
    ensures UniqueIds(t') && forall e :: e in t.sessions && e != d ==> t.sessions[e].data.id != next
  {
    forall e | e in t.sessions
      ensures t.sessions[e].data.id < next
    {
      assert SessionOk(t, log, next, e);
    }
  }

  lemma ResetMoves(t: Table, t': Table, d: string, active: Option<Row<Turn>>)
    requires DecidesOnly(t, t', active, Cancels(active)) && (active.Some? ==> active.value.data.id.device == d)
    ensures TurnsMove(t, t', d)
  {
  }

  lemma ResetTable(t: Table, log: Log, next: nat, t': Table, d: string, active: Option<Row<Turn>>)
    requires TableInv(t, log, next) && OnlySession(t, t', d) && Evolves(t, t')
    requires t'.sessions[d].data.id == next && Blank(t'.sessions[d].data)
    requires DecidesOnly(t, t', active, Cancels(active)) && (active.Some? ==> active.value.data.id.device == d)
    requires d in t.sessions ==> PrevOk(t, t.sessions[d].data.lastTurn, active)
    requires d !in t.sessions ==> active.None?
    ensures TableInv(t', ResetLog(log, d, next), next + 1)
  {
    hide SessionOk, TurnOk, ToldOk, PrevOk, TurnStep, DecidesOnly;
    var log' := ResetLog(log, d, next);
    ResetTurnsOk(t, log, t', log', d, active);
    ResetMoves(t, t', d, active);
    OtherTurns(t, log, t', log', d);
    FreshSession(t, log, t', log', next, d);
    assert next !in log.submitted && next !in log.spoken;
    ResetLogMoves(log, d, next);
    FreshId(t, log, t', d, next);
    OtherSessions(t, log, next, t', log', next + 1, d, next);
    OtherLog(t, log, next, t', log', next + 1, d, next);
  }

  lemma ResetPut(t: Table, t': Table, d: string, old_: Option<Row<Session>>, v: Session, expires: int)
    requires old_.Some? ==> Faithful(t.sessions, d, old_.value)
    requires Matches(t.sessions, map[d := Changed(old_, v, expires)])
    requires t'.sessions == Apply(t.sessions, map[d := Changed(old_, v, expires)])
    ensures OnlySession(t, t', d) && t'.sessions[d].data == v && Grows(t.sessions, t'.sessions)
    ensures Get(t.sessions, d) == old_
  {
    ApplyPut(t.sessions, d, Changed(old_, v, expires));
    if old_.Some? { PutSession(t, d, old_.value, v, expires); }
  }

  lemma ResetActive(t: Table, d: string, old_: Option<Row<Session>>, active: Option<Row<Turn>>)
    requires if old_.Some? then SnapOk(t, d, old_.value) && PrevOk(t, old_.value.data.lastTurn, active) else active.None?
    ensures active.Some? ==>
              && Faithful(t.turns, active.value.data.id, active.value) && active.value.data.id.device == d
              && Advances(active.value.data, CancelledTurn(active.value.data))
  {
  }

  lemma ResetKeeps(t: Table, log: Log, next: nat, p: Proc)
    requires TableInv(t, log, next) && p.ResetCommit? && Blank(p.blank)
    requires if p.old_.Some? then SnapOk(t, p.id.device, p.old_.value) && PrevOk(t, p.old_.value.data.lastTurn, p.active) else p.active.None?
    requires TxMatches(t, ResetTx(p, next))
    ensures
      var t' := TxApply(t, ResetTx(p, next));
      TableInv(t', ResetLog(log, p.id.device, next), next + 1) && Evolves(t, t')
  {
    var tx, d, v := ResetTx(p, next), p.id.device, p.blank.(id := next);
    var t' := TxApply(t, tx);
    ResetPut(t, t', d, p.old_, v, p.expires);
    ResetActive(t, d, p.old_, p.active);
    DecideTurns(t, t', tx.turns, p.active, Cancels(p.active));
    ResetTable(t, log, next, t', d, p.active);
  }

  // ----- finish -----

  lemma {:induction false} MarkedReplies(replies: seq<Reply>, x: Receipt, state: Status, text: string)
    requires NoDuplicates(Receipts(replies))
    ensures |MarkReply(replies, x, state, text)| == |replies|
    ensures forall i :: 0 <= i < |replies| ==>
              MarkReply(replies, x, state, text)[i] ==
              if replies[i].receipt == x then replies[i].(state := state, text := text) else replies[i]
  {
    if replies != [] {
      var rest := replies[1..];
      assert Receipts(rest) == Receipts(replies)[1..];
      if replies[0].receipt == x {
        forall i | 0 < i < |replies|
          ensures replies[i].receipt != x
        {
          assert Receipts(replies)[0] != Receipts(replies)[i];
        }
      } else {
        MarkedReplies(rest, x, state, text);
        forall i | 0 <= i < |replies|
          ensures MarkReply(replies, x, state, text)[i] ==
                  if replies[i].receipt == x then replies[i].(state := state, text := text) else replies[i]
        {
          if i > 0 { assert rest[i - 1] == replies[i]; }
        }
      }
    }
  }

  // The queue after finish: the entry of x, if there is one, carries the turn's ending.
  ghost predicate Settled(a: seq<Reply>, b: seq<Reply>, x: Receipt, status: Status) {
    && |b| == |a|
    && (forall i :: 0 <= i < |a| && a[i].receipt != x ==> b[i] == a[i])
    && (forall i :: 0 <= i < |a| && a[i].receipt == x ==>
          b[i].receipt == x && b[i].state == status && b[i].offset == a[i].offset)
  }

  lemma FinishSettles(env: Env, replies: seq<Reply>, x: Receipt, e: Ending)
    requires NoDuplicates(Receipts(replies)) && !Active(e.status)
    ensures
      var (after, kept) := FinishReplies(env, replies, x, e);
      && Settled(replies, after, x, kept.status) && !Active(kept.status)
      && (kept.status == Complete ==> e.status == Complete) && kept.result == e.result
  {
    var text := if e.status == Complete then env.safe(e.result.text) else env.say(Failure(e.reason));
    MarkedReplies(replies, x, e.status, text);
    MarkedReplies(replies, x, Failed, env.say(Failure(ReplyLimit)));
  }

  // What finish may have added to the history.
  lemma FinishHistory(env: Env, s: Session, x: Receipt, e: Ending, i: nat)
    requires i < |FinishedSession(env, s, x, e).history|
    ensures
      var h := FinishedSession(env, s, x, e).history;
      || (exists j :: 0 <= j < |s.history| && s.history[j].receipt == h[i].receipt)
      || (h[i].receipt == x && FinishReplies(env, s.replies, x, e).1.status == Complete)
  {
    var (replies, kept) := FinishReplies(env, s.replies, x, e);
    if kept.status == Complete && kept.result.messages != [] {
      var all := s.history + [Exchange(x, kept.result.messages)];
      TrimmedKeepsExchanges(env.historyBytes, all, i);
      var j :| 0 <= j < |all| && KeptOf(Trimmed(env.historyBytes, all)[i], all[j]);
      if j < |s.history| { assert s.history[j].receipt == all[j].receipt; }
    } else {
      assert s.history[i].receipt == FinishedSession(env, s, x, e).history[i].receipt;
    }
  }

  lemma SettledReplies(t: Table, log: Log, t': Table, d: string, sid: nat, a: seq<Reply>, b: seq<Reply>, x: Receipt)
    requires x in t.turns && Active(t.turns[x].data.state) && x in t'.turns && !Active(t'.turns[x].data.state)
    requires t'.turns == t.turns[x := t'.turns[x]] && TurnStep(t.turns[x], t'.turns[x])
    requires forall i :: 0 <= i < |a| ==> ReplyOk(t, log, d, sid, a[i])
    requires Settled(a, b, x, t'.turns[x].data.state)
    ensures forall i :: 0 <= i < |b| ==> ReplyOk(t', log, d, sid, b[i])
    ensures Receipts(b) == Receipts(a)
  {
    forall i | 0 <= i < |b|
      ensures ReplyOk(t', log, d, sid, b[i]) && b[i].receipt == a[i].receipt
    {
      assert ReplyOk(t, log, d, sid, a[i]);
    }
  }

  lemma SettledHistory(t: Table, log: Log, next: nat, t': Table, env: Env, d: string, x: Receipt, e: Ending, i: nat)
    requires d in t.sessions && SessionOk(t, log, next, d) && t.sessions[d].data.lastTurn == Some(x)
    requires x in t.turns && x in t'.turns && t'.turns == t.turns[x := t'.turns[x]] && TurnStep(t.turns[x], t'.turns[x])
    requires Active(t.turns[x].data.state)
    requires t'.turns[x].data.state == FinishReplies(env, t.sessions[d].data.replies, x, e).1.status
    requires i < |FinishedSession(env, t.sessions[d].data, x, e).history|
    ensures HistoryOk(t', d, t.sessions[d].data.id, FinishedSession(env, t.sessions[d].data, x, e).history[i].receipt)
  {
    var s := t.sessions[d].data;
    var y := FinishedSession(env, s, x, e).history[i].receipt;
    FinishHistory(env, s, x, e, i);
    if j :| 0 <= j < |s.history| && s.history[j].receipt == y {
      assert HistoryOk(t, d, s.id, s.history[j].receipt);
    }
  }

  lemma FinishSessionOk(t: Table, log: Log, next: nat, t': Table, env: Env, d: string, x: Receipt, e: Ending)
    requires d in t.sessions && d in t'.sessions && SessionOk(t, log, next, d) && LogOk(t, log, next) && !Active(e.status)
    requires t.sessions[d].data.lastTurn == Some(x) && Active(t.turns[x].data.state)
    requires x in t'.turns && t'.turns == t.turns[x := t'.turns[x]] && TurnStep(t.turns[x], t'.turns[x])
    requires t'.sessions[d].data == FinishedSession(env, t.sessions[d].data, x, e)
    requires t'.turns[x].data.state == FinishReplies(env, t.sessions[d].data.replies, x, e).1.status
    ensures SessionOk(t', log, next, d)
  {
    var s, s' := t.sessions[d].data, t'.sessions[d].data;
    Distinct(t, log, next, d);
    FinishSettles(env, s.replies, x, e);
    SettledReplies(t, log, t', d, s.id, s.replies, s'.replies, x);
    forall i | 0 <= i < |s'.history|
      ensures HistoryOk(t', d, s.id, s'.history[i].receipt)
    {
      SettledHistory(t, log, next, t', env, d, x, e, i);
    }
    SettledShape(t, log, next, t', d, s, s');
  }

  lemma SettledShape(t: Table, log: Log, next: nat, t': Table, d: string, s: Session, s': Session)
    requires d in t.sessions && d in t'.sessions && t.sessions[d].data == s && t'.sessions[d].data == s' && SessionOk(t, log, next, d)
    requires s.lastTurn.Some? && s.lastTurn.value in t'.turns
    requires t'.turns[s.lastTurn.value].data.sessionId == t.turns[s.lastTurn.value].data.sessionId
    requires s'.id == s.id && s'.lastTurn == s.lastTurn && s'.lastSpeech == s.lastSpeech
    requires Receipts(s'.replies) == Receipts(s.replies)
    requires forall i :: 0 <= i < |s'.replies| ==> ReplyOk(t', log, d, s.id, s'.replies[i])
    requires forall i :: 0 <= i < |s'.history| ==> HistoryOk(t', d, s.id, s'.history[i].receipt)
    ensures SessionOk(t', log, next, d)
  {
    hide ReplyOk, HistoryOk;
    if s'.replies != [] {
      assert Receipts(s'.replies)[|s'.replies| - 1] == Receipts(s.replies)[|s.replies| - 1];
    }
  }

  lemma FinishTurnsOk(t: Table, log: Log, t': Table, d: string, x: Receipt)
    requires TurnsOk(t, log) && x in t.turns && x in t'.turns && t'.turns == t.turns[x := t'.turns[x]]
    requires TurnStep(t.turns[x], t'.turns[x]) && !Active(t'.turns[x].data.state) && t'.turns[x].data.input == ""
    requires OnlySession(t, t', d) && d in t.sessions
    requires t'.sessions[d].data.lastTurn == t.sessions[d].data.lastTurn && t'.sessions[d].data.id == t.sessions[d].data.id
    ensures TurnsOk(t', log)
  {
    forall y | y in t'.turns
      ensures TurnOk(t', log, y)
    {
      assert TurnOk(t, log, y);
    }
  }

  lemma FinishOthers(t: Table, log: Log, next: nat, t': Table, d: string, x: Receipt)
    requires SessionsOk(t, log, next) && x in t.turns && x in t'.turns && t'.turns == t.turns[x := t'.turns[x]] && x.device == d
    requires OnlySession(t, t', d) && SessionOk(t', log, next, d)
    ensures SessionsOk(t', log, next)
  {
    forall e | e in t'.sessions && e != d
      ensures SessionOk(t', log, next, e)
    {
      OtherOne(t, log, next, t', log, next, e);
    }
  }

  lemma FinishTable(t: Table, log: Log, next: nat, t': Table, env: Env, d: string, x: Receipt, e: Ending)
    requires TableInv(t, log, next) && Evolves(t, t') && OnlySession(t, t', d) && d in t.sessions && !Active(e.status)
    requires t.sessions[d].data.lastTurn == Some(x) && x in t.turns && Active(t.turns[x].data.state) && x.device == d
    requires x in t'.turns && t'.turns == t.turns[x := t'.turns[x]]
    requires t'.sessions[d].data == FinishedSession(env, t.sessions[d].data, x, e)
    requires t'.turns[x].data == FinishedTurn(env, t.turns[x].data, t.sessions[d].data, e) && t.turns[x].data.id == x
    ensures TableInv(t', log, next)
  {
    assert SessionOk(t, log, next, d);
    Distinct(t, log, next, d);
    FinishSettles(env, t.sessions[d].data.replies, x, e);
    assert TurnStep(t.turns[x], t'.turns[x]);
    FinishSessionOk(t, log, next, t', env, d, x, e);
    FinishTurnsOk(t, log, t', d, x);
    FinishOthers(t, log, next, t', d, x);
    SameIdsUnique(t, t', d);
    LogStays(t, log, t', next);
  }

  lemma DistinctAt(t: Table, log: Log, next: nat, d: string)
    requires TableInv(t, log, next) && d in t.sessions
    ensures NoDuplicates(Receipts(t.sessions[d].data.replies))
  {
    assert SessionOk(t, log, next, d);
    Distinct(t, log, next, d);
  }

  lemma FinishKeeps(t: Table, log: Log, next: nat, env: Env, p: Proc, expires: int)
    requires TableInv(t, log, next) && p.FinishCommit? && MayFinish(t, p.mine, p.e) && Targets(t, p.mine, p.row)
    requires TxMatches(t, FinishTx(env, p, expires))
    ensures
      var t' := TxApply(t, FinishTx(env, p, expires));
      TableInv(t', log, next) && Evolves(t, t')
  {
    hide SessionOk, TableInv, FinishReplies, FinishedSession, SubmittedOk, ToldOk, ReplyOk;
    var tx, u, d, x := FinishTx(env, p, expires), p.mine.data, p.mine.data.ident.device, p.mine.data.id;
    var t' := TxApply(t, tx);
    PutSession(t, d, p.row, FinishedSession(env, p.row.data, x, p.e), expires);
    DistinctAt(t, log, next, d);
    FinishSettles(env, p.row.data.replies, x, p.e);
    PutTurn(t, x, p.mine, FinishedTurn(env, u, p.row.data, p.e));
    assert Evolves(t, t');
    FinishTable(t, log, next, t', env, d, x, p.e);
  }
}
