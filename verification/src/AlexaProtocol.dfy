// internal/alexa/service.go and speech.go as one system: any number of skill
// requests and queue workers of one owner, each a program counter plus the rows it
// has read so far. A step is one read, one commit or one local decision, so every
// interleaving, duplicate delivery and crash is some sequence of actions.
module AlexaProtocol {
  import opened Prelude
  import opened Store
  import opened Conversation
  import opened Trimming

  datatype LockKey = TheLock

  // The rows of one owner, by kind: SESSION#<device>, TURN#<receipt> and LOCK.
  datatype Table = Table(
    sessions: map<string, Row<Session>>, turns: map<Receipt, Row<Turn>>, lock: map<LockKey, Row<Receipt>>)

  datatype Tx = Tx(
    sessions: map<string, Change<Session>>, turns: map<Receipt, Change<Turn>>, lock: map<LockKey, Change<Receipt>>)

  predicate TxMatches(t: Table, tx: Tx) {
    Matches(t.sessions, tx.sessions) && Matches(t.turns, tx.turns) && Matches(t.lock, tx.lock)
  }

  function TxApply(t: Table, tx: Tx): Table {
    Table(Apply(t.sessions, tx.sessions), Apply(t.turns, tx.turns), Apply(t.lock, tx.lock))
  }

  datatype Ask = Ask(id: Identity, request: string, ask: string, text: string)

  function ReceiptOf(a: Ask): Receipt { Receipt(a.id.device, a.request) }

  datatype Ending = Ending(result: RunResult, status: Status, reason: Reason)

  const NO_RESULT := RunResult("", [], false)

  datatype Proc =
    // Submit
    | SubmitPrior(a: Ask)
    | SubmitSession(a: Ask, settings: int, launched: bool)
    | SubmitLock(a: Ask, settings: int, row: Row<Session>)
    | SubmitNow(a: Ask, settings: int, row: Row<Session>, held: Option<Row<Receipt>>)
    | SubmitPrevious(a: Ask, settings: int, row: Row<Session>, held: Option<Row<Receipt>>, now: nat)
    | SubmitCommit(a: Ask, settings: int, row: Row<Session>, held: Option<Row<Receipt>>, now: nat, prev: Option<Row<Turn>>)
    | SubmitPublish(x: Receipt)
    | SubmitUnpublished(x: Receipt)
    // Reset; next is the Submit that launched it, if one did
    | ResetSession(id: Identity, ask: string, start: bool, next: Option<(Ask, int)>)
    | ResetTurn(id: Identity, row: Row<Session>, blank: Session, expires: int, next: Option<(Ask, int)>)
    | ResetLock(id: Identity, row: Row<Session>, blank: Session, expires: int, next: Option<(Ask, int)>, active: Option<Row<Turn>>)
    | ResetCommit(id: Identity, old_: Option<Row<Session>>, blank: Session, expires: int, next: Option<(Ask, int)>,
                  active: Option<Row<Turn>>, held: Option<Row<Receipt>>)
    // Resume
    | ResumeRead(id: Identity, ask: string)
    | ResumeCommit(id: Identity, ask: string, row: Row<Session>)
    // Speech
    | SpeechRead(id: Identity, again: bool, attempt: nat)
    | SpeechRepeat(id: Identity, again: bool, row: Row<Session>, attempt: nat)
    | SpeechTurn(id: Identity, again: bool, row: Row<Session>, attempt: nat)
    | SpeechView(id: Identity, again: bool, row: Row<Session>, turn: Row<Turn>, attempt: nat)
    | SpeechCommit(id: Identity, again: bool, row: Row<Session>, state: Status, text: string, attempt: nat)
    // Execute
    | ExecRead(x: Receipt)
    | ExecClaim(x: Receipt, pending: Row<Turn>)
    | CheckTurn(mine: Row<Turn>, done: Option<RunResult>)
    | CheckSession(mine: Row<Turn>, done: Option<RunResult>)
    | ExecHistory(mine: Row<Turn>)
    | ExecRun(mine: Row<Turn>, context: seq<Message>)   // the runner gets context and then the request
    // finish, called by Execute and by a Submit that could not publish
    | FinishRead(mine: Row<Turn>, e: Ending, attempt: nat)
    | FinishLock(mine: Row<Turn>, e: Ending, attempt: nat, row: Row<Session>)
    | FinishCommit(mine: Row<Turn>, e: Ending, attempt: nat, row: Row<Session>, held: Option<Row<Receipt>>)

  // What the world answers during one step: the account checks, settings, the clock
  // reading used for a session expiry, the queue, the model run and the commit's owner fence.
  datatype Choice = Choice(
    authorized: bool, settings: int, stamp: nat, published: bool, result: RunResult, runError: Option<Reason>, fence: bool)

  datatype Action =
    | Tick(ms: nat)
    | Start(pid: nat, entry: Proc)
    | Advance(pid: nat, ch: Choice)
    | Crash(pid: nat)

  // What has happened, for stating properties; no step reads it.
  datatype Log = Log(
    claimed: map<Receipt, nat>,           // the worker that claimed each receipt
    runs: seq<Receipt>,                   // every invocation of Run
    answers: map<Receipt, RunResult>,     // what each invocation answered
    errors: map<Receipt, Option<Reason>>, // and the error it ended with, if any
    submitted: map<nat, seq<Receipt>>,    // per session id, receipts in commit order
    spoken: map<nat, seq<Receipt>>,       // per session id, answers that left the queue
    heard: map<Receipt, string>,          // text delivered so far for each answer
    told: map<Receipt, string>,           // the stored text of each answer that left the queue
    cleared: set<string>)                 // Echos reset since their last committed Submit

  datatype Sys = Sys(clock: nat, table: Table, procs: map<nat, Proc>, nextSession: nat, log: Log)

  const INIT := Sys(0, Table(map[], map[], map[]), map[], 0, Log(map[], [], map[], map[], map[], map[], map[], map[], {}))

  function Unix(ms: nat): int { ms / 1000 }

  function Stamp(s: Sys, ch: Choice): nat { if ch.stamp <= s.clock then ch.stamp else s.clock }

  function Window(s: Sys, ch: Choice): int { Unix(Stamp(s, ch)) + RECOVERY_WINDOW }

  function To(s: Sys, pid: nat, p: Proc): Sys { s.(procs := s.procs[pid := p]) }

  function Stop(s: Sys, pid: nat): Sys { s.(procs := s.procs - {pid}) }

  predicate Begins(p: Proc) {
    match p
    case SubmitPrior(a) => a.text != "" && a.request != "" && a.ask != ""
    case ResetSession(_, _, _, next) => next.None?
    case ResumeRead(_, _) => true
    case SpeechRead(_, _, attempt) => attempt == 0
    case ExecRead(_) => true
    case _ => false
  }

  function Step(env: Env, s: Sys, a: Action): Sys {
    match a
    case Tick(ms) => s.(clock := s.clock + ms)
    case Start(pid, entry) => if pid !in s.procs && Begins(entry) then To(s, pid, entry) else s
    case Crash(pid) => Stop(s, pid)
    case Advance(pid, ch) =>
      if pid !in s.procs then s
      else
        var p := s.procs[pid];
        if IsSubmit(p) then StepSubmit(s, pid, p, ch)
        else if IsReset(p) then StepReset(s, pid, p, ch)
        else if IsSpeech(p) then StepSpeech(env, s, pid, p, ch)
        else if IsExecute(p) then StepExecute(env, s, pid, p, ch)
        else StepFinish(env, s, pid, p, ch)
  }

  function Run(env: Env, s: Sys, actions: seq<Action>): Sys {
    if actions == [] then s else Step(env, Run(env, s, actions[..|actions| - 1]), actions[|actions| - 1])
  }

  predicate IsSubmit(p: Proc) {
    p.SubmitPrior? || p.SubmitSession? || p.SubmitLock? || p.SubmitNow? || p.SubmitPrevious? || p.SubmitCommit?
    || p.SubmitPublish? || p.SubmitUnpublished?
  }

  predicate IsReset(p: Proc) {
    p.ResetSession? || p.ResetTurn? || p.ResetLock? || p.ResetCommit? || p.ResumeRead? || p.ResumeCommit?
  }

  predicate IsSpeech(p: Proc) {
    p.SpeechRead? || p.SpeechRepeat? || p.SpeechTurn? || p.SpeechView? || p.SpeechCommit?
  }

  predicate IsExecute(p: Proc) {
    p.ExecRead? || p.ExecClaim? || p.CheckTurn? || p.CheckSession? || p.ExecHistory? || p.ExecRun?
  }

  predicate IsFinish(p: Proc) { p.FinishRead? || p.FinishLock? || p.FinishCommit? }

  predicate ValidSession(s: Sys, row: Option<Row<Session>>, id: Identity) {
    row.Some? && row.value.expires > Unix(s.clock) && row.value.data.grant == id.grant
    && row.value.data.generation == id.generation
  }

  function Receipts(replies: seq<Reply>): (r: seq<Receipt>)
    ensures |r| == |replies|
    ensures forall i :: 0 <= i < |replies| ==> r[i] == replies[i].receipt
  {
    seq(|replies|, i requires 0 <= i < |replies| => replies[i].receipt)
  }

  // ----- Submit -----

  function SubmittedTurn(a: Ask, settings: int, session: nat, now: nat): Turn {
    Turn(a.id, ReceiptOf(a), session, a.text, Pending, NoReason, settings, now + WORKER_BUDGET)
  }

  function SubmittedSession(s: Session, x: Receipt): Session {
    s.(lastTurn := Some(x), replies := s.replies + [Reply(x, Pending, "", 0)])
  }

  function Interrupted(t: Turn): Turn {
    t.(input := "", state := Failed, failure := WorkerInterrupted)
  }

  function SubmitTx(p: Proc, expires: int): Tx
    requires p.SubmitCommit?
  {
    var x := ReceiptOf(p.a);
    Tx(map[p.a.id.device := Changed(Some(p.row), SubmittedSession(p.row.data, x), expires)],
       map[x := Changed(None, SubmittedTurn(p.a, p.settings, p.row.data.id, p.now), Unix(p.now) + RECOVERY_WINDOW)]
       + if p.prev.None? then map[]
         else map[p.prev.value.data.id := Changed(p.prev, Interrupted(p.prev.value.data), p.prev.value.expires)],
       map[TheLock := Changed(p.held, x, Unix(p.now + LOCK_BUDGET))])
  }

  function StepSubmit(s: Sys, pid: nat, p: Proc, ch: Choice): Sys
    requires IsSubmit(p)
  {
    match p
    case SubmitPrior(_) => SubmitPriorStep(s, pid, p, ch)
    case SubmitSession(_, _, _) => SubmitSessionStep(s, pid, p)
    case SubmitLock(_, _, _) => SubmitLockStep(s, pid, p)
    case SubmitNow(_, _, _, _) => SubmitNowStep(s, pid, p)
    case SubmitPrevious(_, _, _, _, _) => SubmitPreviousStep(s, pid, p)
    case SubmitCommit(_, _, _, _, _, _) => SubmitCommitStep(s, pid, p, ch)
    case SubmitPublish(_) => SubmitPublishStep(s, pid, p, ch)
    case SubmitUnpublished(_) => SubmitUnpublishedStep(s, pid, p)
  }

  function SubmitPriorStep(s: Sys, pid: nat, p: Proc, ch: Choice): Sys
    requires p.SubmitPrior?
  {
    var a := p.a;
    if ReceiptOf(a) in s.table.turns then Stop(s, pid)   // the earlier turn is only viewed
    else To(s, pid, SubmitSession(a, ch.settings, false))
  }

  function SubmitSessionStep(s: Sys, pid: nat, p: Proc): Sys
    requires p.SubmitSession?
  {
    var a, settings, launched := p.a, p.settings, p.launched;
    var row := Get(s.table.sessions, a.id.device);
    if !launched && (row.None? || row.value.expires <= Unix(s.clock) || row.value.data.ask != a.ask
                     || row.value.data.grant != a.id.grant || row.value.data.generation != a.id.generation)
    then To(s, pid, ResetSession(a.id, a.ask, true, Some((a, settings))))
    else if row.None? || |row.value.data.replies| >= MAX_PENDING_REPLIES then Stop(s, pid)
    else To(s, pid, SubmitLock(a, settings, row.value))
  }

  function SubmitLockStep(s: Sys, pid: nat, p: Proc): Sys
    requires p.SubmitLock?
  {
    var a, settings, row := p.a, p.settings, p.row;
    var held := Get(s.table.lock, TheLock);
    if held.Some? && held.value.expires > Unix(s.clock) then Stop(s, pid)
    else To(s, pid, SubmitNow(a, settings, row, held))
  }

  function SubmitNowStep(s: Sys, pid: nat, p: Proc): Sys
    requires p.SubmitNow?
  {
    var a, settings, row, held := p.a, p.settings, p.row, p.held;
    if row.data.lastTurn.None? then To(s, pid, SubmitCommit(a, settings, row, held, s.clock, None))
    else To(s, pid, SubmitPrevious(a, settings, row, held, s.clock))
  }

  function SubmitPreviousStep(s: Sys, pid: nat, p: Proc): Sys
    requires p.SubmitPrevious?
  {
    var a, settings, row, held, now := p.a, p.settings, p.row, p.held, p.now;
    var prev := if row.data.lastTurn.Some? then Get(s.table.turns, row.data.lastTurn.value) else None;
    if prev.None? || !Active(prev.value.data.state) then To(s, pid, SubmitCommit(a, settings, row, held, now, None))
    else if prev.value.data.deadline > now then Stop(s, pid)
    else To(s, pid, SubmitCommit(a, settings, row, held, now, prev))
  }

  function SubmitCommitStep(s: Sys, pid: nat, p: Proc, ch: Choice): Sys
    requires p.SubmitCommit?
  {
    var a, row, now, prev := p.a, p.row, p.now, p.prev;
    var tx := SubmitTx(p, Unix(now) + RECOVERY_WINDOW);
    // One transaction may not name a row twice.
    if (prev.Some? && prev.value.data.id == ReceiptOf(a)) || !TxMatches(s.table, tx) || !ch.fence then Stop(s, pid)
    else
      To(s.(table := TxApply(s.table, tx), log := SubmitLog(s.log, p)), pid, SubmitPublish(ReceiptOf(a)))
  }

  function SubmitLog(log: Log, p: Proc): Log
    requires p.SubmitCommit?
  {
    var sid := p.row.data.id;
    log.(submitted := log.submitted[sid := Past(log.submitted, sid) + [ReceiptOf(p.a)]],
         cleared := log.cleared - {p.a.id.device})
  }

  function SubmitPublishStep(s: Sys, pid: nat, p: Proc, ch: Choice): Sys
    requires p.SubmitPublish?
  {
    var x := p.x;
    if ch.published then Stop(s, pid) else To(s, pid, SubmitUnpublished(x))
  }

  function SubmitUnpublishedStep(s: Sys, pid: nat, p: Proc): Sys
    requires p.SubmitUnpublished?
  {
    var x := p.x;
    if x in s.table.turns && s.table.turns[x].data.state == Pending
    then To(s, pid, FinishRead(s.table.turns[x], Ending(NO_RESULT, Failed, QueueUnavailable), 0))
    else Stop(s, pid)
  }

  function Past<V>(m: map<nat, seq<V>>, k: nat): seq<V> { if k in m then m[k] else [] }

  // ----- Reset and Resume -----

  function CancelledTurn(t: Turn): Turn { t.(state := Cancelled, input := "", failure := Stopped) }

  function ResetTx(p: Proc, sid: nat): Tx
    requires p.ResetCommit?
  {
    Tx(map[p.id.device := Changed(p.old_, p.blank.(id := sid), p.expires)],
       if p.active.None? then map[]
       else map[p.active.value.data.id := Changed(p.active, CancelledTurn(p.active.value.data), p.active.value.expires)],
       if p.held.None? then map[] else map[TheLock := Change(p.held, None)])
  }

  function BlankSession(id: Identity, ask: string, clock: nat): Session {
    Session(0, ask, id.grant, id.generation, None, [], clock, 0, [], "", None, Pending, false)
  }

  function StepReset(s: Sys, pid: nat, p: Proc, ch: Choice): Sys
    requires IsReset(p)
  {
    match p
    case ResetSession(_, _, _, _) => ResetSessionStep(s, pid, p)
    case ResetTurn(_, _, _, _, _) => ResetTurnStep(s, pid, p)
    case ResetLock(_, _, _, _, _, _) => ResetLockStep(s, pid, p)
    case ResetCommit(_, _, _, _, _, _, _) => ResetCommitStep(s, pid, p, ch)
    case ResumeRead(_, _) => ResumeReadStep(s, pid, p)
    case ResumeCommit(_, _, _) => ResumeCommitStep(s, pid, p, ch)
  }

  function ResetSessionStep(s: Sys, pid: nat, p: Proc): Sys
    requires p.ResetSession?
  {
    var id, ask, start, next := p.id, p.ask, p.start, p.next;
    var row := Get(s.table.sessions, id.device);
    var blank := BlankSession(id, ask, s.clock);
    var expires := Unix(s.clock) + if start then RECOVERY_WINDOW else 0;
    if row.Some? && row.value.data.lastTurn.Some? then To(s, pid, ResetTurn(id, row.value, blank, expires, next))
    else To(s, pid, ResetCommit(id, row, blank, expires, next, None, None))
  }

  function ResetTurnStep(s: Sys, pid: nat, p: Proc): Sys
    requires p.ResetTurn?
  {
    var id, row, blank, expires, next := p.id, p.row, p.blank, p.expires, p.next;
    var active := if row.data.lastTurn.Some? then Get(s.table.turns, row.data.lastTurn.value) else None;
    var cancel := if active.Some? && Active(active.value.data.state) then active else None;
    To(s, pid, ResetLock(id, row, blank, expires, next, cancel))
  }

  function ResetLockStep(s: Sys, pid: nat, p: Proc): Sys
    requires p.ResetLock?
  {
    var id, row, blank, expires, next, active := p.id, p.row, p.blank, p.expires, p.next, p.active;
    var held := Get(s.table.lock, TheLock);
    var drop := if held.Some? && Some(held.value.data) == row.data.lastTurn then held else None;
    To(s, pid, ResetCommit(id, Some(row), blank, expires, next, active, drop))
  }

  function ResetCommitStep(s: Sys, pid: nat, p: Proc, ch: Choice): Sys
    requires p.ResetCommit?
  {
    var id, next := p.id, p.next;
    // The new session's random id is only seen once committed, so it is drawn here.
    var sid := s.nextSession;
    var tx := ResetTx(p, sid);
    if !TxMatches(s.table, tx) || !ch.fence then Stop(s, pid)
    else
      var log := ResetLog(s.log, id.device, sid);
      var after := s.(table := TxApply(s.table, tx), nextSession := sid + 1, log := log);
      if next.None? then Stop(after, pid) else To(after, pid, SubmitSession(next.value.0, next.value.1, true))
  }

  function ResetLog(log: Log, device: string, sid: nat): Log {
    log.(submitted := log.submitted[sid := []], spoken := log.spoken[sid := []], cleared := log.cleared + {device})
  }

  function ResumeReadStep(s: Sys, pid: nat, p: Proc): Sys
    requires p.ResumeRead?
  {
    var id, ask := p.id, p.ask;
    var row := Get(s.table.sessions, id.device);
    if !ValidSession(s, row, id) then Stop(s, pid) else To(s, pid, ResumeCommit(id, ask, row.value))
  }

  function ResumeCommitStep(s: Sys, pid: nat, p: Proc, ch: Choice): Sys
    requires p.ResumeCommit?
  {
    var id, ask, row := p.id, p.ask, p.row;
    var tx := SessionTx(id.device, row, row.data.(ask := ask), Window(s, ch));
    if !TxMatches(s.table, tx) || !ch.fence then Stop(s, pid)
    else Stop(s.(table := TxApply(s.table, tx)), pid)
  }

  function SessionTx(device: string, before: Row<Session>, after: Session, expires: int): Tx {
    Tx(map[device := Changed(Some(before), after, expires)], map[], map[])
  }

  // ----- Speech -----

  // The session once the head reply, decided as (state, text), has been spoken one chunk further.
  function SpokenSession(env: Env, s: Session, state: Status, text: string): Session
    requires s.replies != []
  {
    var head := s.replies[0];
    var end := ChunkEnd(env.space, text, head.offset);
    var more := end < |text|;
    s.(replies := if more then [Reply(head.receipt, state, text, end)] + s.replies[1..] else s.replies[1..],
       lastSpeech := ChunkText(env, text, head.offset), lastSpeechReceipt := Some(head.receipt),
       lastSpeechState := state, lastSpeechMore := more)
  }

  function Heard(log: Log, x: Receipt): string { if x in log.heard then log.heard[x] else "" }

  // The part of text delivered when the cursor moves on from offset.
  function Piece(env: Env, text: string, offset: nat): string {
    var end := ChunkEnd(env.space, text, offset);
    if offset < |text| then text[offset..end] else ""
  }

  // Delivery, recorded: the piece is heard, and an answer read to its end leaves the queue.
  function SpokenLog(env: Env, log: Log, s: Session, text: string): Log
    requires s.replies != []
  {
    var head := s.replies[0];
    var heard := log.heard[head.receipt := Heard(log, head.receipt) + Piece(env, text, head.offset)];
    if ChunkEnd(env.space, text, head.offset) < |text| then log.(heard := heard)
    else log.(heard := heard, spoken := log.spoken[s.id := Past(log.spoken, s.id) + [head.receipt]],
              told := log.told[head.receipt := text])
  }

  function Retry(s: Sys, pid: nat, id: Identity, again: bool, attempt: nat): Sys {
    if attempt + 1 < 3 then To(s, pid, SpeechRead(id, again, attempt + 1)) else Stop(s, pid)
  }

  function StepSpeech(env: Env, s: Sys, pid: nat, p: Proc, ch: Choice): Sys
    requires IsSpeech(p)
  {
    match p
    case SpeechRead(_, _, _) => SpeechReadStep(s, pid, p)
    case SpeechRepeat(_, _, _, _) => SpeechRepeatStep(s, pid, p, ch)
    case SpeechTurn(_, _, _, _) => SpeechTurnStep(env, s, pid, p, ch)
    case SpeechView(_, _, _, _, _) => SpeechViewStep(env, s, pid, p)
    case SpeechCommit(_, _, _, _, _, _) => SpeechCommitStep(env, s, pid, p, ch)
  }

  function SpeechReadStep(s: Sys, pid: nat, p: Proc): Sys
    requires p.SpeechRead?
  {
    var id, again, attempt := p.id, p.again, p.attempt;
    var row := Get(s.table.sessions, id.device);
    if !ValidSession(s, row, id) then Stop(s, pid)
    else
      var session := row.value.data;
      if again && session.lastSpeech != "" then To(s, pid, SpeechRepeat(id, again, row.value, attempt))
      else if session.replies == [] then Stop(s, pid)
      else if Active(session.replies[0].state) then To(s, pid, SpeechTurn(id, again, row.value, attempt))
      else To(s, pid, SpeechCommit(id, again, row.value, session.replies[0].state, session.replies[0].text, attempt))
  }

  function SpeechRepeatStep(s: Sys, pid: nat, p: Proc, ch: Choice): Sys
    requires p.SpeechRepeat?
  {
    var id, again, row, attempt := p.id, p.again, p.row, p.attempt;
    var tx := SessionTx(id.device, row, row.data, Window(s, ch));
    if !TxMatches(s.table, tx) then Retry(s, pid, id, again, attempt)
    else if !ch.fence then Stop(s, pid)
    else Stop(s.(table := TxApply(s.table, tx)), pid)
  }

  function SpeechTurnStep(env: Env, s: Sys, pid: nat, p: Proc, ch: Choice): Sys
    requires p.SpeechTurn?
  {
    var id, again, row, attempt := p.id, p.again, p.row, p.attempt;
    if row.data.replies == [] || !ch.authorized then Stop(s, pid)
    else
      var turn := Get(s.table.turns, row.data.replies[0].receipt);
      if turn.None? then To(s, pid, SpeechCommit(id, again, row, Failed, env.say(ExpiredAnswer), attempt))
      else if turn.value.data.ident != id then Stop(s, pid)
      else if turn.value.expires <= Unix(s.clock) then To(s, pid, SpeechCommit(id, again, row, Failed, env.say(ExpiredAnswer), attempt))
      else if Active(turn.value.data.state) && turn.value.data.deadline <= s.clock
      then To(s, pid, SpeechCommit(id, again, row, Failed, env.safe(env.say(TimedOut)), attempt))
      else To(s, pid, SpeechView(id, again, row, turn.value, attempt))
  }

  function SpeechViewStep(env: Env, s: Sys, pid: nat, p: Proc): Sys
    requires p.SpeechView?
  {
    var id, again, row, turn, attempt := p.id, p.again, p.row, p.turn, p.attempt;
    var now := Get(s.table.sessions, id.device);
    if !ValidSession(s, now, id) || now.value.data.id != turn.data.sessionId
    then To(s, pid, SpeechCommit(id, again, row, Failed, env.say(ExpiredAnswer), attempt))
    else if Active(turn.data.state) then Stop(s, pid)
    else To(s, pid, SpeechCommit(id, again, row, turn.data.state, env.safe(ViewText(env, turn.data, now.value.data)), attempt))
  }

  function SpeechCommitStep(env: Env, s: Sys, pid: nat, p: Proc, ch: Choice): Sys
    requires p.SpeechCommit?
  {
    var id, again, row, state, text, attempt := p.id, p.again, p.row, p.state, p.text, p.attempt;
    if row.data.replies == [] then Stop(s, pid)
    else
      var after := SpokenSession(env, row.data, state, text);
      var tx := SessionTx(id.device, row, after, Window(s, ch));
      if !TxMatches(s.table, tx) then Retry(s, pid, id, again, attempt)
      else if !ch.fence then Stop(s, pid)
      else
        Stop(s.(table := TxApply(s.table, tx), log := SpokenLog(env, s.log, row.data, text)), pid)
  }

  // ----- Execute -----

  // Only the new exchange is kept: the request, sent after context, and what followed it.
  function NewMessages(result: RunResult, context: nat): RunResult {
    result.(messages := if |result.messages| > context then result.messages[context..] else [])
  }

  function ClaimTx(x: Receipt, row: Row<Turn>): Tx {
    Tx(map[], map[x := Changed(Some(row), row.data.(state := Running), row.expires)], map[])
  }

  function StepExecute(env: Env, s: Sys, pid: nat, p: Proc, ch: Choice): Sys
    requires IsExecute(p)
  {
    match p
    case ExecRead(_) => ExecReadStep(s, pid, p)
    case ExecClaim(_, _) => ExecClaimStep(s, pid, p, ch)
    case CheckTurn(_, _) => CheckTurnStep(s, pid, p, ch)
    case CheckSession(_, _) => CheckSessionStep(env, s, pid, p)
    case ExecHistory(_) => ExecHistoryStep(s, pid, p)
    case ExecRun(_, _) => ExecRunStep(s, pid, p, ch)
  }

  function ExecReadStep(s: Sys, pid: nat, p: Proc): Sys
    requires p.ExecRead?
  {
    var x := p.x;
    var row := Get(s.table.turns, x);
    if row.None? || row.value.expires <= Unix(s.clock) || row.value.data.id != x || row.value.data.state != Pending
    then Stop(s, pid)
    else if row.value.data.deadline <= s.clock
    then To(s, pid, FinishRead(row.value, Ending(NO_RESULT, Failed, WorkerInterrupted), 0))
    else To(s, pid, ExecClaim(x, row.value))
  }

  function ExecClaimStep(s: Sys, pid: nat, p: Proc, ch: Choice): Sys
    requires p.ExecClaim?
  {
    var x, row := p.x, p.pending;
    var tx := ClaimTx(x, row);
    if !TxMatches(s.table, tx) || !ch.fence then Stop(s, pid)
    else
      var log := s.log.(claimed := s.log.claimed[x := pid]);
      To(s.(table := TxApply(s.table, tx), log := log), pid, CheckTurn(tx.turns[x].after.value, None))
  }

  function CheckTurnStep(s: Sys, pid: nat, p: Proc, ch: Choice): Sys
    requires p.CheckTurn?
  {
    var mine, done := p.mine, p.done;
    if s.clock >= mine.data.deadline || !ch.authorized || ch.settings != mine.data.settings
       || mine.data.id !in s.table.turns || s.table.turns[mine.data.id].data.state != Running
    then To(s, pid, FinishRead(mine, Ending(NO_RESULT, Cancelled, SettingsChanged), 0))
    else To(s, pid, CheckSession(mine, done))
  }

  function CheckSessionStep(env: Env, s: Sys, pid: nat, p: Proc): Sys
    requires p.CheckSession?
  {
    var mine, done := p.mine, p.done;
    var row := Get(s.table.sessions, mine.data.ident.device);
    if !ValidSession(s, row, mine.data.ident) || row.value.data.id != mine.data.sessionId
       || row.value.data.lastTurn != Some(mine.data.id)
    then To(s, pid, FinishRead(mine, Ending(NO_RESULT, Cancelled, SettingsChanged), 0))
    else if done.None? then To(s, pid, ExecHistory(mine))
    else if Trim(env.space, done.value.text) == "" || done.value.limited
    then To(s, pid, FinishRead(mine, Ending(done.value, Failed, ExecutionFailed), 0))
    else To(s, pid, FinishRead(mine, Ending(done.value, Complete, NoReason), 0))
  }

  function ExecHistoryStep(s: Sys, pid: nat, p: Proc): Sys
    requires p.ExecHistory?
  {
    var mine := p.mine;
    var row := Get(s.table.sessions, mine.data.ident.device);
    To(s, pid, ExecRun(mine, if row.Some? then Flatten(row.value.data.history) else []))
  }

  function RunLog(log: Log, x: Receipt, result: RunResult, error: Option<Reason>): Log {
    log.(runs := log.runs + [x], answers := log.answers[x := result], errors := log.errors[x := error])
  }

  function ExecRunStep(s: Sys, pid: nat, p: Proc, ch: Choice): Sys
    requires p.ExecRun?
  {
    var mine := p.mine;
    var result := NewMessages(ch.result, |p.context|);
    var after := s.(log := RunLog(s.log, mine.data.id, result, ch.runError));
    if ch.runError.Some?
    then To(after, pid, FinishRead(mine, Ending(result, Failed,
           if ch.runError.value.UsageLimit? then ch.runError.value else ExecutionFailed), 0))
    else To(after, pid, CheckTurn(mine, Some(result)))
  }

  // ----- finish -----

  predicate Queued(replies: seq<Reply>, x: Receipt) {
    exists i :: 0 <= i < |replies| && replies[i].receipt == x
  }

  function MarkReply(replies: seq<Reply>, x: Receipt, state: Status, text: string): seq<Reply> {
    if replies == [] then []
    else if replies[0].receipt == x then [replies[0].(state := state, text := text)] + replies[1..]
    else [replies[0]] + MarkReply(replies[1..], x, state, text)
  }

  // The queue and the ending, which turns into a failure when the answer is too large to keep.
  function FinishReplies(env: Env, replies: seq<Reply>, x: Receipt, e: Ending): (seq<Reply>, Ending) {
    if !Queued(replies, x) then (replies, e)
    else
      var text := if e.status == Complete then env.safe(e.result.text) else env.say(Failure(e.reason));
      var marked := MarkReply(replies, x, e.status, text);
      if env.bytes(text) > MAX_CONTEXT_BYTES || env.queueBytes(marked) > MAX_REPLY_QUEUE_BYTES
      then (MarkReply(replies, x, Failed, env.say(Failure(ReplyLimit))), e.(status := Failed, reason := ReplyLimit))
      else (marked, e)
  }

  function FinishedSession(env: Env, s: Session, x: Receipt, e: Ending): Session {
    var (replies, kept) := FinishReplies(env, s.replies, x, e);
    if kept.status == Complete && kept.result.messages != []
    then s.(replies := replies, turns := s.turns + 1,
            history := Trimmed(env.historyBytes, s.history + [Exchange(x, kept.result.messages)]))
    else s.(replies := replies)
  }

  function FinishedTurn(env: Env, t: Turn, s: Session, e: Ending): Turn {
    var kept := FinishReplies(env, s.replies, t.id, e).1;
    t.(input := "", state := kept.status, failure := kept.reason)
  }

  function FinishTx(env: Env, p: Proc, expires: int): Tx
    requires p.FinishCommit?
  {
    var t := p.mine.data;
    Tx(map[t.ident.device := Changed(Some(p.row), FinishedSession(env, p.row.data, t.id, p.e), expires)],
       map[t.id := Changed(Some(p.mine), FinishedTurn(env, t, p.row.data, p.e), p.mine.expires)],
       if p.held.None? then map[] else map[TheLock := Change(p.held, None)])
  }

  function StepFinish(env: Env, s: Sys, pid: nat, p: Proc, ch: Choice): Sys
    requires IsFinish(p)
  {
    match p
    case FinishRead(_, _, _) => FinishReadStep(s, pid, p)
    case FinishLock(_, _, _, _) => FinishLockStep(s, pid, p)
    case FinishCommit(_, _, _, _, _) => FinishCommitStep(env, s, pid, p, ch)
  }

  function FinishReadStep(s: Sys, pid: nat, p: Proc): Sys
    requires p.FinishRead?
  {
    var mine, e, attempt := p.mine, p.e, p.attempt;
    var row := Get(s.table.sessions, mine.data.ident.device);
    if row.None? || row.value.data.id != mine.data.sessionId || row.value.data.lastTurn != Some(mine.data.id)
    then Stop(s, pid)   // superseded
    else To(s, pid, FinishLock(mine, e, attempt, row.value))
  }

  function FinishLockStep(s: Sys, pid: nat, p: Proc): Sys
    requires p.FinishLock?
  {
    var mine, e, attempt, row := p.mine, p.e, p.attempt, p.row;
    var held := Get(s.table.lock, TheLock);
    var drop := if held.Some? && held.value.data == mine.data.id then held else None;
    To(s, pid, FinishCommit(mine, e, attempt, row, drop))
  }

  function FinishCommitStep(env: Env, s: Sys, pid: nat, p: Proc, ch: Choice): Sys
    requires p.FinishCommit?
  {
    var mine, e, attempt := p.mine, p.e, p.attempt;
    var tx := FinishTx(env, p, Window(s, ch));
    if !TxMatches(s.table, tx)
    then if attempt + 1 < 3 then To(s, pid, FinishRead(mine, e, attempt + 1)) else Stop(s, pid)
    else if !ch.fence then Stop(s, pid)
    else Stop(s.(table := TxApply(s.table, tx)), pid)
  }
}
