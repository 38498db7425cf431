// What every step of the Alexa protocol keeps, with no assumption about timing,
// delivery order or how many requests and workers run at once.
module AlexaSafety {
  import opened Prelude
  import opened Store
  import opened Conversation
  import opened AlexaProtocol

  // ----- How the table may change -----

  function Rank(s: Status): nat { if s == Pending then 0 else if s == Running then 1 else 2 }

  // A turn keeps its identity, moves forward only, and is frozen once decided.
  ghost predicate TurnStep(a: Row<Turn>, b: Row<Turn>) {
    && a.version <= b.version && (a.version == b.version ==> a == b)
    && b.expires == a.expires
    && b.data.id == a.data.id && b.data.ident == a.data.ident && b.data.sessionId == a.data.sessionId
    && b.data.settings == a.data.settings && b.data.deadline == a.data.deadline
    && Rank(a.data.state) <= Rank(b.data.state)
    && (!Active(a.data.state) ==> a == b)
  }

  ghost predicate Evolves(a: Table, b: Table) {
    && Grows(a.sessions, b.sessions)
    && (forall x :: x in a.turns ==> x in b.turns && TurnStep(a.turns[x], b.turns[x]))
  }

  lemma Refl(t: Table)
    ensures Evolves(t, t)
  {
  }

  // ----- What a reachable table looks like -----

  ghost predicate Owned(t: Table, d: string, sid: nat, x: Receipt) {
    x in t.turns && x.device == d && t.turns[x].data.sessionId == sid
  }

  ghost predicate TurnOk(t: Table, log: Log, x: Receipt)
    requires x in t.turns
  {
    var u := t.turns[x].data;
    && u.id == x && u.ident.device == x.device
    && (!Active(u.state) ==> u.input == "")
    && (Active(u.state) ==> x.device in t.sessions && t.sessions[x.device].data.lastTurn == Some(x)
                            && t.sessions[x.device].data.id == u.sessionId)
    && (u.state == Pending ==> x !in log.claimed)
  }

  ghost predicate ReplyOk(t: Table, log: Log, d: string, sid: nat, r: Reply) {
    && Owned(t, d, sid, r.receipt)
    && var u := t.turns[r.receipt].data;
       && (r.state == Pending ==> r.text == "" && r.offset == 0
                                  && (Active(u.state) || (u.state == Failed && u.failure == WorkerInterrupted)))
       && (r.state != Pending ==> !Active(r.state) && u.state == r.state)
       && (r.offset == 0 || r.offset < |r.text|)
       && Heard(log, r.receipt) == r.text[..r.offset]
  }

  ghost predicate HistoryOk(t: Table, d: string, sid: nat, x: Receipt) {
    Owned(t, d, sid, x) && t.turns[x].data.state == Complete
  }

  ghost predicate Blank(s: Session) {
    s.lastTurn.None? && s.history == [] && s.replies == [] && s.lastSpeech == ""
  }

  ghost predicate SessionOk(t: Table, log: Log, next: nat, d: string)
    requires d in t.sessions
  {
    var s := t.sessions[d].data;
    && s.id < next
    && (s.lastTurn.Some? ==> Owned(t, d, s.id, s.lastTurn.value))
    && |s.replies| <= MAX_PENDING_REPLIES
    && |s.lastSpeech| <= CHUNK
    && (s.replies != [] ==> s.lastTurn == Some(s.replies[|s.replies| - 1].receipt))
    && (forall i :: 0 <= i < |s.replies| ==> ReplyOk(t, log, d, s.id, s.replies[i]))
    && (forall i :: 0 <= i < |s.history| ==> HistoryOk(t, d, s.id, s.history[i].receipt))
    && s.id in log.submitted && s.id in log.spoken
    && log.submitted[s.id] == log.spoken[s.id] + Receipts(s.replies)
    && (d in log.cleared ==> Blank(s))
  }

  ghost predicate UniqueIds(t: Table) {
    forall d, e :: d in t.sessions && e in t.sessions && d != e ==> t.sessions[d].data.id != t.sessions[e].data.id
  }

  ghost predicate LogOk(t: Table, log: Log, next: nat) {
    && NoDuplicates(log.runs)
    && (forall i :: 0 <= i < |log.runs| ==> log.runs[i] in log.claimed)
    && (forall x :: x in log.claimed ==> x in t.turns)
    && (forall sid :: sid in log.submitted <==> sid in log.spoken)
    && (forall sid :: sid in log.submitted ==> sid < next && SubmittedOk(t, log, sid))
    && (forall x :: x in log.told ==> ToldOk(t, log, x))
    && (forall x :: x in log.heard ==> x in t.turns)
    && (forall d :: d in log.cleared ==> d in t.sessions)
  }

  ghost predicate SubmittedOk(t: Table, log: Log, sid: nat)
    requires sid in log.submitted && sid in log.spoken
  {
    && NoDuplicates(log.submitted[sid])
    && log.spoken[sid] <= log.submitted[sid]
    && (forall i :: 0 <= i < |log.submitted[sid]| ==>
          log.submitted[sid][i] in t.turns && t.turns[log.submitted[sid][i]].data.sessionId == sid)
  }

  ghost predicate ToldOk(t: Table, log: Log, x: Receipt) {
    && x in log.told && x in t.turns && t.turns[x].data.sessionId in log.spoken
    && x in log.spoken[t.turns[x].data.sessionId]
    && Heard(log, x) == log.told[x]
  }

  ghost predicate TurnsOk(t: Table, log: Log) {
    forall x :: x in t.turns ==> TurnOk(t, log, x)
  }

  ghost predicate SessionsOk(t: Table, log: Log, next: nat) {
    forall d :: d in t.sessions ==> SessionOk(t, log, next, d)
  }

  ghost predicate TableInv(t: Table, log: Log, next: nat) {
    match t case Table(_, _, _) => TurnsOk(t, log) && SessionsOk(t, log, next) && UniqueIds(t) && LogOk(t, log, next)
  }

  // ----- What each program counter knows about the rows it has read -----

  ghost predicate SnapOk(t: Table, d: string, row: Row<Session>) {
    && Faithful(t.sessions, d, row)
    && (row.data.lastTurn.Some? ==> Owned(t, d, row.data.id, row.data.lastTurn.value))
  }

  // The last turn as read: undecided (kept as prev), or already decided.
  ghost predicate PrevOk(t: Table, last: Option<Receipt>, prev: Option<Row<Turn>>) {
    && (prev.Some? ==> last.Some? && Faithful(t.turns, last.value, prev.value) && prev.value.data.id == last.value
                       && Active(prev.value.data.state))
    && (prev.None? && last.Some? ==> last.value in t.turns && !Active(t.turns[last.value].data.state))
  }

  // While the session row read is still stored, the head is decided the way it may be.
  ghost predicate DecidedOk(t: Table, d: string, row: Row<Session>, state: Status, text: string) {
    && row.data.replies != []
    && (Current(t.sessions, d, row) ==>
          var head := row.data.replies[0];
          if Active(head.state) then !Active(state) && |text| <= CHUNK else state == head.state && text == head.text)
  }

  ghost predicate Mine(t: Table, log: Log, pid: nat, mine: Row<Turn>) {
    && Faithful(t.turns, mine.data.id, mine) && mine.data.state == Running
    && mine.data.ident.device == mine.data.id.device
    && mine.data.id in log.claimed && log.claimed[mine.data.id] == pid
  }

  ghost predicate MayFinish(t: Table, mine: Row<Turn>, e: Ending) {
    && Faithful(t.turns, mine.data.id, mine) && Active(mine.data.state) && !Active(e.status)
    && mine.data.ident.device == mine.data.id.device
  }

  ghost predicate SubmitOk(t: Table, clock: nat, p: Proc) {
    match p
    case SubmitLock(a, _, row) => SnapOk(t, a.id.device, row) && |row.data.replies| < MAX_PENDING_REPLIES
    case SubmitNow(a, _, row, _) => SnapOk(t, a.id.device, row) && |row.data.replies| < MAX_PENDING_REPLIES
    case SubmitPrevious(a, _, row, _, now) =>
      SnapOk(t, a.id.device, row) && |row.data.replies| < MAX_PENDING_REPLIES && now <= clock && row.data.lastTurn.Some?
    case SubmitCommit(a, _, row, _, now, prev) =>
      && SnapOk(t, a.id.device, row) && |row.data.replies| < MAX_PENDING_REPLIES && now <= clock
      && PrevOk(t, row.data.lastTurn, prev)
    case _ => true
  }

  ghost predicate ResetOk(t: Table, p: Proc) {
    match p
    case ResetTurn(id, row, blank, _, _) => SnapOk(t, id.device, row) && Blank(blank)
    case ResetLock(id, row, blank, _, _, active) =>
      SnapOk(t, id.device, row) && Blank(blank) && PrevOk(t, row.data.lastTurn, active)
    case ResetCommit(id, old_, blank, _, _, active, _) =>
      && Blank(blank)
      && (if old_.Some? then SnapOk(t, id.device, old_.value) && PrevOk(t, old_.value.data.lastTurn, active) else active.None?)
    case ResumeCommit(id, _, row) => SnapOk(t, id.device, row)
    case _ => true
  }

  ghost predicate SpeechOk(t: Table, p: Proc) {
    match p
    case SpeechRepeat(id, _, row, _) => SnapOk(t, id.device, row)
    case SpeechTurn(id, _, row, _) => SnapOk(t, id.device, row) && row.data.replies != [] && Active(row.data.replies[0].state)
    case SpeechView(id, _, row, turn, _) =>
      && SnapOk(t, id.device, row) && row.data.replies != [] && Active(row.data.replies[0].state)
      && Faithful(t.turns, row.data.replies[0].receipt, turn) && turn.data.id == row.data.replies[0].receipt
      && (!Active(turn.data.state) ==> t.turns[turn.data.id] == turn)
      && (Current(t.sessions, id.device, row) && !Active(turn.data.state) ==>
            turn.data.state == Failed && turn.data.failure == WorkerInterrupted)
    case SpeechCommit(id, _, row, state, text, _) => SnapOk(t, id.device, row) && DecidedOk(t, id.device, row, state, text)
    case _ => true
  }

  ghost predicate ExecuteOk(t: Table, log: Log, pid: nat, p: Proc) {
    match p
    case ExecClaim(x, row) => Faithful(t.turns, x, row) && row.data.id == x && row.data.state == Pending && row.data.ident.device == x.device
    case CheckTurn(mine, done) => Mine(t, log, pid, mine) && (done.None? ==> mine.data.id !in log.runs)
    case CheckSession(mine, done) => Mine(t, log, pid, mine) && (done.None? ==> mine.data.id !in log.runs)
    case ExecHistory(mine) => Mine(t, log, pid, mine) && mine.data.id !in log.runs
    case ExecRun(mine, _) => Mine(t, log, pid, mine) && mine.data.id !in log.runs
    case _ => true
  }

  ghost predicate FinishOk(t: Table, p: Proc) {
    match p
    case FinishRead(mine, e, _) => MayFinish(t, mine, e)
    case FinishLock(mine, e, _, row) => MayFinish(t, mine, e) && Targets(t, mine, row)
    case FinishCommit(mine, e, _, row, _) => MayFinish(t, mine, e) && Targets(t, mine, row)
    case _ => true
  }

  ghost predicate ProcOk(t: Table, log: Log, clock: nat, pid: nat, p: Proc) {
    if IsSubmit(p) then SubmitOk(t, clock, p)
    else if IsReset(p) then ResetOk(t, p)
    else if IsSpeech(p) then SpeechOk(t, p)
    else if IsExecute(p) then ExecuteOk(t, log, pid, p)
    else FinishOk(t, p)
  }

  ghost predicate Targets(t: Table, mine: Row<Turn>, row: Row<Session>) {
    && SnapOk(t, mine.data.ident.device, row)
    && row.data.id == mine.data.sessionId && row.data.lastTurn == Some(mine.data.id)
  }

  ghost predicate Inv(s: Sys) {
    match s case Sys(_, table, _, nextSession, log) => TableInv(table, log, nextSession) && ProcsOk(s)
  }

  ghost predicate ProcsOk(s: Sys) {
    forall pid :: pid in s.procs ==> ProcOk(s.table, s.log, s.clock, pid, s.procs[pid])
  }

  // ----- A process's knowledge survives every change other processes can make -----

  // What process pid claimed stays its own, and only pid runs it.
  ghost predicate LogKeeps(a: Log, b: Log, pid: nat) {
    forall x :: x in a.claimed && a.claimed[x] == pid ==>
      x in b.claimed && b.claimed[x] == pid && (x in b.runs ==> x in a.runs)
  }

  lemma SnapStays(a: Table, b: Table, d: string, row: Row<Session>)
    requires SnapOk(a, d, row) && Evolves(a, b)
    ensures SnapOk(b, d, row)
    ensures Current(b.sessions, d, row) ==> Current(a.sessions, d, row)
  {
    FaithfulStays(a.sessions, b.sessions, d, row);
  }

  lemma TurnSnapStays(a: Table, b: Table, x: Receipt, row: Row<Turn>)
    requires Faithful(a.turns, x, row) && Evolves(a, b)
    ensures Faithful(b.turns, x, row)
  {
    assert TurnStep(a.turns[x], b.turns[x]);
  }

  lemma PrevStays(a: Table, b: Table, last: Option<Receipt>, prev: Option<Row<Turn>>)
    requires PrevOk(a, last, prev) && Evolves(a, b)
    ensures PrevOk(b, last, prev)
  {
    if prev.Some? { TurnSnapStays(a, b, last.value, prev.value); }
    else if last.Some? { assert TurnStep(a.turns[last.value], b.turns[last.value]); }
  }

  lemma SubmitStays(a: Table, ca: nat, b: Table, cb: nat, p: Proc)
    requires SubmitOk(a, ca, p) && Evolves(a, b) && ca <= cb
    ensures SubmitOk(b, cb, p)
  {
    hide SnapOk, PrevOk, Evolves;
    if p.SubmitLock? || p.SubmitNow? || p.SubmitPrevious? || p.SubmitCommit? { SnapStays(a, b, p.a.id.device, p.row); }
    if p.SubmitCommit? { PrevStays(a, b, p.row.data.lastTurn, p.prev); }
  }

  lemma ResetStays(a: Table, b: Table, p: Proc)
    requires ResetOk(a, p) && Evolves(a, b)
    ensures ResetOk(b, p)
  {
    hide SnapOk, PrevOk, Evolves;
    if p.ResetTurn? || p.ResetLock? || p.ResumeCommit? { SnapStays(a, b, p.id.device, p.row); }
    if p.ResetLock? { PrevStays(a, b, p.row.data.lastTurn, p.active); }
    if p.ResetCommit? && p.old_.Some? {
      SnapStays(a, b, p.id.device, p.old_.value);
      PrevStays(a, b, p.old_.value.data.lastTurn, p.active);
    }
  }

  lemma SpeechStays(a: Table, b: Table, p: Proc)
    requires SpeechOk(a, p) && Evolves(a, b)
    ensures SpeechOk(b, p)
  {
    hide SnapOk, DecidedOk, Evolves, Current, Faithful;
    if p.SpeechRepeat? || p.SpeechTurn? || p.SpeechView? || p.SpeechCommit? {
      SnapStays(a, b, p.id.device, p.row);
      CurrentBefore(a, b, p.id.device, p.row);
    }
    if p.SpeechView? {
      TurnSnapStays(a, b, p.row.data.replies[0].receipt, p.turn);
      DecidedStays(a, b, p.row.data.replies[0].receipt, p.turn);
    }
    if p.SpeechCommit? { DecisionStays(a, b, p.id.device, p.row, p.state, p.text); }
  }

  // A row that is current now and was read before was current all along.
  lemma CurrentBefore(a: Table, b: Table, d: string, row: Row<Session>)
    requires SnapOk(a, d, row) && Evolves(a, b)
    ensures Current(b.sessions, d, row) ==> Current(a.sessions, d, row)
  {
  }

  lemma DecidedStays(a: Table, b: Table, x: Receipt, turn: Row<Turn>)
    requires Faithful(a.turns, x, turn) && Evolves(a, b) && turn.data.id == x
    ensures x in a.turns && x in b.turns
    ensures !Active(turn.data.state) && a.turns[x] == turn ==> b.turns[x] == turn
  {
    assert TurnStep(a.turns[x], b.turns[x]);
  }

  lemma DecisionStays(a: Table, b: Table, d: string, row: Row<Session>, state: Status, text: string)
    requires DecidedOk(a, d, row, state, text) && (Current(b.sessions, d, row) ==> Current(a.sessions, d, row))
    ensures DecidedOk(b, d, row, state, text)
  {
  }

  lemma MineStays(a: Table, la: Log, b: Table, lb: Log, pid: nat, mine: Row<Turn>)
    requires Mine(a, la, pid, mine) && Evolves(a, b) && LogKeeps(la, lb, pid)
    ensures Mine(b, lb, pid, mine) && (mine.data.id in lb.runs ==> mine.data.id in la.runs)
  {
    TurnSnapStays(a, b, mine.data.id, mine);
  }

  lemma ExecuteStays(a: Table, la: Log, b: Table, lb: Log, pid: nat, p: Proc)
    requires ExecuteOk(a, la, pid, p) && Evolves(a, b) && LogKeeps(la, lb, pid)
    ensures ExecuteOk(b, lb, pid, p)
  {
    hide Mine, LogKeeps, Evolves, Faithful;
    if p.ExecClaim? { TurnSnapStays(a, b, p.x, p.pending); }
    if p.CheckTurn? || p.CheckSession? || p.ExecHistory? || p.ExecRun? { MineStays(a, la, b, lb, pid, p.mine); }
  }

  lemma FinishStays(a: Table, b: Table, p: Proc)
    requires FinishOk(a, p) && Evolves(a, b)
    ensures FinishOk(b, p)
  {
    hide SnapOk, Evolves, Faithful;
    if IsFinish(p) { TurnSnapStays(a, b, p.mine.data.id, p.mine); }
    if p.FinishLock? || p.FinishCommit? { SnapStays(a, b, p.mine.data.ident.device, p.row); }
  }

  lemma ProcStays(a: Table, la: Log, ca: nat, b: Table, lb: Log, cb: nat, pid: nat, p: Proc)
    requires ProcOk(a, la, ca, pid, p) && Evolves(a, b) && LogKeeps(la, lb, pid) && ca <= cb
    ensures ProcOk(b, lb, cb, pid, p)
  {
    hide SubmitOk, ResetOk, SpeechOk, ExecuteOk, FinishOk, Evolves, LogKeeps;
    if IsSubmit(p) { SubmitStays(a, ca, b, cb, p); }
    else if IsReset(p) { ResetStays(a, b, p); }
    else if IsSpeech(p) { SpeechStays(a, b, p); }
    else if IsExecute(p) { ExecuteStays(a, la, b, lb, pid, p); }
    else { FinishStays(a, b, p); }
  }

  // Process pid moved; the rest of the system kept what it knew.
  ghost predicate OthersStay(s: Sys, s': Sys, pid: nat) {
    && s.clock <= s'.clock && Evolves(s.table, s'.table)
    && (forall q :: q in s'.procs && q != pid ==> q in s.procs && s'.procs[q] == s.procs[q] && LogKeeps(s.log, s'.log, q))
  }

  lemma Assemble(s: Sys, s': Sys, pid: nat)
    requires ProcsOk(s) && OthersStay(s, s', pid)
    requires pid in s'.procs ==> ProcOk(s'.table, s'.log, s'.clock, pid, s'.procs[pid])
    ensures ProcsOk(s')
  {
    forall q | q in s'.procs
      ensures ProcOk(s'.table, s'.log, s'.clock, q, s'.procs[q])
    {
      if q != pid { ProcStays(s.table, s.log, s.clock, s'.table, s'.log, s'.clock, q, s.procs[q]); }
    }
  }
}
