// Speech: one commit moves the answer cursor on, whatever else is happening.
module AlexaSpeaks {
  import opened Prelude
  import opened Store
  import opened Conversation
  import opened AlexaProtocol
  import opened AlexaSafety
  import opened AlexaSteps
  import opened AlexaCommits

  // The head answer of session s, as it may be decided: undecided answers get a short
  // notice, decided ones keep their stored text.
  ghost predicate Decision(s: Session, state: Status, text: string) {
    && s.replies != []
    && !Active(state)
    && (if s.replies[0].state == Pending then |text| <= CHUNK && s.replies[0].offset == 0 && s.replies[0].text == ""
        else state == s.replies[0].state && text == s.replies[0].text)
    && (s.replies[0].offset == 0 || s.replies[0].offset < |text|)
  }

  lemma HeardPiece(env: Env, text: string, offset: nat)
    requires offset == 0 || offset < |text|
    ensures
      var end := ChunkEnd(env.space, text, offset);
      && text[..offset] + Piece(env, text, offset) == text[..end]
      && (end >= |text| ==> text[..end] == text)
      && (offset == 0 && |text| <= CHUNK ==> end == |text|)
      && end <= |text| && (end < |text| ==> offset < end)
  {
    var end := ChunkEnd(env.space, text, offset);
    if offset < |text| { assert text[..offset] + text[offset..end] == text[..end]; }
  }

  lemma SpokenReplies(t: Table, log: Log, next: nat, t': Table, log': Log, env: Env, d: string, state: Status, text: string)
    requires d in t.sessions && d in t'.sessions && t'.turns == t.turns
    requires SessionOk(t, log, next, d) && LogOk(t, log, next) && Decision(t.sessions[d].data, state, text)
    requires t'.sessions[d].data == SpokenSession(env, t.sessions[d].data, state, text)
    requires log' == SpokenLog(env, log, t.sessions[d].data, text)
    ensures forall i :: 0 <= i < |t'.sessions[d].data.replies| ==>
              ReplyOk(t', log', d, t.sessions[d].data.id, t'.sessions[d].data.replies[i])
  {
    hide ReplyOk, HistoryOk, LogOk, Decision, Piece, ChunkText;
    var s, s' := t.sessions[d].data, t'.sessions[d].data;
    DecisionHasHead(s, state, text);
    var head := s.replies[0];
    var more := ChunkEnd(env.space, text, head.offset) < |text|;
    Distinct(t, log, next, d);
    assert ReplyOk(t, log, d, s.id, head);
    forall i | 0 <= i < |s'.replies|
      ensures ReplyOk(t', log', d, s.id, s'.replies[i])
    {
      if more && i == 0 {
        SpokenHead(t, log, t', log', env, d, s, state, text);
      } else {
        var j := if more then i else i + 1;
        assert s'.replies[i] == s.replies[j];
        assert ReplyOk(t, log, d, s.id, s.replies[j]);
        assert Receipts(s.replies)[0] != Receipts(s.replies)[j];
        assert Heard(log', s.replies[j].receipt) == Heard(log, s.replies[j].receipt);
        SameReply(t, log, t', log', d, s.id, s.replies[j]);
      }
    }
  }

  lemma DecisionHasHead(s: Session, state: Status, text: string)
    requires Decision(s, state, text)
    ensures s.replies != []
  {
  }

  // The head stays queued, read a chunk further.
  lemma SpokenHead(t: Table, log: Log, t': Table, log': Log, env: Env, d: string, s: Session, state: Status, text: string)
    requires t'.turns == t.turns && Decision(s, state, text) && ReplyOk(t, log, d, s.id, s.replies[0])
    requires ChunkEnd(env.space, text, s.replies[0].offset) < |text| && log' == SpokenLog(env, log, s, text)
    ensures ReplyOk(t', log', d, s.id, SpokenSession(env, s, state, text).replies[0])
  {
    HeardPiece(env, text, s.replies[0].offset);
  }

  lemma SameReply(t: Table, log: Log, t': Table, log': Log, d: string, sid: nat, r: Reply)
    requires t'.turns == t.turns && ReplyOk(t, log, d, sid, r) && Heard(log', r.receipt) == Heard(log, r.receipt)
    ensures ReplyOk(t', log', d, sid, r)
  {
  }

  lemma SpokenOrder(s: Session, s': Session, log: Log, log': Log, env: Env, state: Status, text: string)
    requires s.replies != [] && s' == SpokenSession(env, s, state, text) && log' == SpokenLog(env, log, s, text)
    requires s.id in log.submitted && s.id in log.spoken && log.submitted[s.id] == log.spoken[s.id] + Receipts(s.replies)
    ensures log'.submitted == log.submitted && s.id in log'.spoken
    ensures log'.submitted[s.id] == log'.spoken[s.id] + Receipts(s'.replies)
    ensures s'.replies != [] ==> s'.replies[|s'.replies| - 1].receipt == s.replies[|s.replies| - 1].receipt
    ensures log.spoken[s.id] <= log'.spoken[s.id] <= log.submitted[s.id]
  {
    hide ChunkEnd, ChunkText, Piece, Receipts;
    var head := s.replies[0];
    if ChunkEnd(env.space, text, head.offset) < |text| {
      SameReceipts(s.replies, s'.replies);
      assert log'.spoken[s.id] == log.spoken[s.id];
    } else {
      FirstReceipt(s.replies);
      assert s'.replies == s.replies[1..];
      assert log'.spoken[s.id] == log.spoken[s.id] + [head.receipt];
      TakeHead(log.spoken[s.id], head.receipt, Receipts(s'.replies));
    }
  }

  lemma SameReceipts(a: seq<Reply>, b: seq<Reply>)
    requires |a| == |b| && forall i :: 0 <= i < |a| ==> a[i].receipt == b[i].receipt
    ensures Receipts(a) == Receipts(b)
  {
  }

  lemma FirstReceipt(a: seq<Reply>)
    requires a != []
    ensures Receipts(a) == [a[0].receipt] + Receipts(a[1..])
  {
  }

  lemma TakeHead(told: seq<Receipt>, x: Receipt, queue: seq<Receipt>)
    ensures told + ([x] + queue) == (told + [x]) + queue
    ensures told <= told + [x] <= told + ([x] + queue)
  {
  }

  lemma SpokenSessionOk(t: Table, log: Log, next: nat, t': Table, log': Log, env: Env, d: string, state: Status, text: string)
    requires d in t.sessions && d in t'.sessions && t'.turns == t.turns && NoticesFit(env)
    requires SessionOk(t, log, next, d) && LogOk(t, log, next) && Decision(t.sessions[d].data, state, text)
    requires t'.sessions[d].data == SpokenSession(env, t.sessions[d].data, state, text)
    requires log' == SpokenLog(env, log, t.sessions[d].data, text)
    ensures SessionOk(t', log', next, d)
  {
    hide ReplyOk, HistoryOk, LogOk, ChunkEnd;
    var s, s' := t.sessions[d].data, t'.sessions[d].data;
    SpokenReplies(t, log, next, t', log', env, d, state, text);
    SpokenOrder(s, s', log, log', env, state, text);
    forall i | 0 <= i < |s'.history|
      ensures HistoryOk(t', d, s'.id, s'.history[i].receipt)
    {
      assert HistoryOk(t, d, s.id, s.history[i].receipt);
      SameHistory(t, t', d, s.id, s.history[i].receipt);
    }
  }

  lemma SameHistory(t: Table, t': Table, d: string, sid: nat, x: Receipt)
    requires t'.turns == t.turns && HistoryOk(t, d, sid, x)
    ensures HistoryOk(t', d, sid, x)
  {
  }

  lemma HeadIsOwned(t: Table, log: Log, next: nat, d: string)
    requires d in t.sessions && SessionOk(t, log, next, d) && t.sessions[d].data.replies != []
    ensures t.sessions[d].data.replies[0].receipt in t.turns && t.sessions[d].data.id in log.spoken
  {
    assert ReplyOk(t, log, d, t.sessions[d].data.id, t.sessions[d].data.replies[0]);
  }

  lemma SpokenLogOk(t: Table, log: Log, next: nat, log': Log, env: Env, d: string, state: Status, text: string)
    requires d in t.sessions
    requires SessionOk(t, log, next, d) && LogOk(t, log, next) && Decision(t.sessions[d].data, state, text)
    requires log' == SpokenLog(env, log, t.sessions[d].data, text)
    ensures LogOk(t, log', next)
  {
    hide HistoryOk, Heard, SessionOk, ReplyOk, ToldOk, SubmittedOk, SpokenSession, SpokenLog;
    var s := t.sessions[d].data;
    HeadIsOwned(t, log, next, d);
    SpokenLogMoves(log, env, s, text);
    SpokenHeard(log, env, s, text);
    SpokenSubmitted(t, log, next, log', env, d, state, text);
    forall y | y in log'.told
      ensures ToldOk(t, log', y)
    {
      SpokenTold(t, log, next, log', env, d, state, text, y);
    }
  }

  lemma SubmittedStays(t: Table, a: Log, b: Log, sid: nat)
    requires sid in a.submitted && sid in a.spoken && SubmittedOk(t, a, sid)
    requires sid in b.submitted && sid in b.spoken && b.submitted[sid] == a.submitted[sid]
    requires b.spoken[sid] == a.spoken[sid] || b.spoken[sid] <= b.submitted[sid]
    ensures SubmittedOk(t, b, sid)
  {
  }

  lemma SpokenSubmitted(t: Table, log: Log, next: nat, log': Log, env: Env, d: string, state: Status, text: string)
    requires d in t.sessions
    requires SessionOk(t, log, next, d) && LogOk(t, log, next) && Decision(t.sessions[d].data, state, text)
    requires log' == SpokenLog(env, log, t.sessions[d].data, text)
    ensures forall sid :: sid in log'.submitted <==> sid in log'.spoken
    ensures forall sid :: sid in log'.submitted ==> sid < next && SubmittedOk(t, log', sid)
  {
    hide ReplyOk, HistoryOk, ToldOk, SubmittedOk, SpokenSession, SpokenLog, Heard, ChunkEnd, ChunkText;
    var s := t.sessions[d].data;
    SpokenOrder(s, SpokenSession(env, s, state, text), log, log', env, state, text);
    SpokenLogMoves(log, env, s, text);
    forall sid | sid in log'.submitted
      ensures sid < next && SubmittedOk(t, log', sid)
    {
      assert SubmittedOk(t, log, sid);
      SubmittedStays(t, log, log', sid);
    }
  }

  // Only answer x of session sid was delivered further.
  ghost predicate Spoke(a: Log, b: Log, sid: nat, x: Receipt) {
    && b.claimed == a.claimed && b.submitted == a.submitted && b.cleared == a.cleared && b.runs == a.runs
    && (forall y :: y != x ==> Heard(b, y) == Heard(a, y) && (y in b.told <==> y in a.told) && (y in a.told ==> b.told[y] == a.told[y]))
    && (forall k :: k != sid && k in a.spoken ==> k in b.spoken && b.spoken[k] == a.spoken[k])
    && sid in a.spoken && sid in b.spoken && a.spoken[sid] <= b.spoken[sid] && b.spoken.Keys == a.spoken.Keys
  }

  lemma HeardElsewhere(a: Log, b: Log, x: Receipt, heard: string)
    requires b.heard == a.heard[x := heard]
    ensures forall y :: y != x ==> Heard(b, y) == Heard(a, y)
  {
  }

  lemma SpokenHeard(log: Log, env: Env, s: Session, text: string)
    requires s.replies != []
    ensures SpokenLog(env, log, s, text).heard == log.heard[s.replies[0].receipt := Heard(log, s.replies[0].receipt) + Piece(env, text, s.replies[0].offset)]
  {
    hide ChunkEnd, Piece, Past;
    var x := s.replies[0].receipt;
    var heard := log.heard[x := Heard(log, x) + Piece(env, text, s.replies[0].offset)];
    if ChunkEnd(env.space, text, s.replies[0].offset) < |text| { assert SpokenLog(env, log, s, text) == log.(heard := heard); }
  }

  lemma SpokenMovesOn(log: Log, env: Env, s: Session, text: string)
    requires s.replies != [] && s.id in log.spoken
    ensures
      var x, log' := s.replies[0].receipt, SpokenLog(env, log, s, text);
      && log'.claimed == log.claimed && log'.submitted == log.submitted && log'.cleared == log.cleared && log'.runs == log.runs
      && (log'.told == log.told || log'.told == log.told[x := text])
      && (log'.spoken == log.spoken || log'.spoken == log.spoken[s.id := log.spoken[s.id] + [x]])
  {
    hide ChunkEnd, Piece, Heard;
  }

  lemma SpokenLogMoves(log: Log, env: Env, s: Session, text: string)
    requires s.replies != [] && s.id in log.spoken
    ensures Spoke(log, SpokenLog(env, log, s, text), s.id, s.replies[0].receipt)
  {
    hide Piece, Heard, SpokenLog;
    var x, log' := s.replies[0].receipt, SpokenLog(env, log, s, text);
    SpokenMovesOn(log, env, s, text);
    SpokenHeard(log, env, s, text);
    HeardElsewhere(log, log', x, Heard(log, x) + Piece(env, text, s.replies[0].offset));
    if log'.spoken != log.spoken { assert log'.spoken[s.id] == log.spoken[s.id] + [x]; }
  }

  lemma SpokenTold(t: Table, log: Log, next: nat, log': Log, env: Env, d: string, state: Status, text: string, y: Receipt)
    requires d in t.sessions
    requires SessionOk(t, log, next, d) && LogOk(t, log, next) && Decision(t.sessions[d].data, state, text)
    requires log' == SpokenLog(env, log, t.sessions[d].data, text) && y in log'.told
    ensures ToldOk(t, log', y)
  {
    hide Heard, NoDuplicates;
    var s := t.sessions[d].data;
    var x := s.replies[0].receipt;
    hide ReplyOk, SubmittedOk, HistoryOk, ToldOk, ChunkEnd, SpokenLog;
    SpokenLogMoves(log, env, s, text);
    if y != x {
      assert ToldOk(t, log, y);
      Refl(t);
      ToldStays(t, log, t, log', y);
    } else {
      HeadIsUntold(t, log, next, d);
      ToldNow(t, log, next, log', env, d, state, text);
    }
  }

  lemma HeadIsUntold(t: Table, log: Log, next: nat, d: string)
    requires d in t.sessions && SessionOk(t, log, next, d) && LogOk(t, log, next) && t.sessions[d].data.replies != []
    ensures t.sessions[d].data.replies[0].receipt !in log.told
  {
    var s := t.sessions[d].data;
    Distinct(t, log, next, d);
    assert s.replies[0].receipt == Receipts(s.replies)[0];
    assert ReplyOk(t, log, d, s.id, s.replies[0]);
    assert s.replies[0].receipt in log.told ==> ToldOk(t, log, s.replies[0].receipt);
  }

  lemma ToldNow(t: Table, log: Log, next: nat, log': Log, env: Env, d: string, state: Status, text: string)
    requires d in t.sessions && SessionOk(t, log, next, d) && Decision(t.sessions[d].data, state, text)
    requires log' == SpokenLog(env, log, t.sessions[d].data, text)
    requires t.sessions[d].data.replies[0].receipt !in log.told && t.sessions[d].data.replies[0].receipt in log'.told
    ensures ToldOk(t, log', t.sessions[d].data.replies[0].receipt)
  {
    var s := t.sessions[d].data;
    assert ReplyOk(t, log, d, s.id, s.replies[0]);
    HeardPiece(env, text, s.replies[0].offset);
    assert log'.spoken[s.id][|log.spoken[s.id]|] == s.replies[0].receipt;
  }

  lemma SpokenTurns(t: Table, log: Log, t': Table, log': Log, d: string)
    requires TurnsOk(t, log) && t'.turns == t.turns && d in t.sessions && d in t'.sessions && log'.claimed == log.claimed
    requires t'.sessions == t.sessions[d := t'.sessions[d]]
    requires t'.sessions[d].data.lastTurn == t.sessions[d].data.lastTurn && t'.sessions[d].data.id == t.sessions[d].data.id
    ensures TurnsOk(t', log')
  {
    forall x | x in t'.turns
      ensures TurnOk(t', log', x)
    {
      assert TurnOk(t, log, x);
    }
  }

  lemma SpokenOthers(t: Table, log: Log, next: nat, t': Table, log': Log, d: string, sid: nat, x: Receipt)
    requires SessionsOk(t, log, next) && UniqueIds(t) && d in t.sessions && d in t'.sessions
    requires t'.turns == t.turns && t'.sessions == t.sessions[d := t'.sessions[d]]
    requires t.sessions[d].data.id == sid && x.device == d && Spoke(log, log', sid, x)
    requires SessionOk(t', log', next, d)
    ensures SessionsOk(t', log', next)
  {
    forall e | e in t'.sessions
      ensures SessionOk(t', log', next, e)
    {
      if e != d {
        assert SessionOk(t, log, next, e);
        OtherSession(t, log, next, t', log', next, e);
      }
    }
  }

  lemma SpeechKeeps(t: Table, log: Log, next: nat, env: Env, d: string, row: Row<Session>, state: Status, text: string, expires: int)
    requires TableInv(t, log, next) && SnapOk(t, d, row) && NoticesFit(env) && Decision(row.data, state, text)
    requires TxMatches(t, SessionTx(d, row, SpokenSession(env, row.data, state, text), expires))
    ensures
      var t' := TxApply(t, SessionTx(d, row, SpokenSession(env, row.data, state, text), expires));
      TableInv(t', SpokenLog(env, log, row.data, text), next) && Evolves(t, t')
  {
    hide SessionsOk, TurnsOk, LogOk, SpokenSession, SpokenLog;
    var s' := SpokenSession(env, row.data, state, text);
    var t' := TxApply(t, SessionTx(d, row, s', expires));
    PutSession(t, d, row, s', expires);
    ApplyNone(t.turns);
    assert t'.turns == t.turns && t'.sessions == t.sessions[d := t'.sessions[d]];
    SpeechTable(t, log, next, t', SpokenLog(env, log, row.data, text), env, d, state, text);
  }

  lemma SpeechTable(t: Table, log: Log, next: nat, t': Table, log': Log, env: Env, d: string, state: Status, text: string)
    requires TableInv(t, log, next) && NoticesFit(env) && Evolves(t, t')
    requires d in t.sessions && d in t'.sessions && Decision(t.sessions[d].data, state, text)
    requires t'.turns == t.turns && t'.sessions == t.sessions[d := t'.sessions[d]]
    requires t'.sessions[d].data == SpokenSession(env, t.sessions[d].data, state, text)
    requires log' == SpokenLog(env, log, t.sessions[d].data, text)
    ensures TableInv(t', log', next)
  {
    var s := t.sessions[d].data;
    var x := s.replies[0].receipt;
    assert SessionOk(t, log, next, d);
    assert x.device == d by { assert ReplyOk(t, log, d, s.id, s.replies[0]); }
    SpokenLogMoves(log, env, s, text);
    SpokenTurns(t, log, t', log', d);
    SpokenSessionOk(t, log, next, t', log', env, d, state, text);
    SpokenOthers(t, log, next, t', log', d, s.id, x);
    SameIdsUnique(t, t', d);
    SpokenLogOk(t, log, next, log', env, d, state, text);
    LogStays(t, log', t', next);
  }
}
