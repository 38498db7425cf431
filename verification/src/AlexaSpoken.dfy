// What Speech says, and when: an undecided answer stays in the queue while its turn may still
// be worked on, and what is said of a request is its own answer or the notice that is due.
module AlexaSpoken {
  import opened Prelude
  import opened Store
  import opened Conversation
  import opened AlexaProtocol
  import opened AlexaSafety
  import opened AlexaSteps
  import opened AlexaCommits
  import opened AlexaTheorems
  import opened AlexaResults
  import opened AlexaAnswers
  import opened AlexaLock
  import opened AlexaMoments

  // ----- Why a process is about to speak -----

  ghost predicate Speaking(s: Sys, pid: nat, row: Row<Session>, id: Identity, state: Status, text: string) {
    && pid in s.procs && s.procs[pid].SpeechCommit?
    && s.procs[pid].row == row && s.procs[pid].id == id && s.procs[pid].state == state && s.procs[pid].text == text
  }

  // An answer already decided is said as it is stored.
  ghost predicate StoredDecided(s: Sys, id: Identity, row: Row<Session>, state: Status, text: string) {
    && Get(s.table.sessions, id.device) == Some(row) && row.data.replies != []
    && !Active(row.data.replies[0].state) && state == row.data.replies[0].state && text == row.data.replies[0].text
  }

  // The row of the head's turn lapsed, or its time is up.
  ghost predicate TurnOver(env: Env, s: Sys, row: Row<Session>, state: Status, text: string) {
    && row.data.replies != [] && state == Failed
    && var x := row.data.replies[0].receipt;
       || x !in s.table.turns
       || (s.table.turns[x].expires <= Unix(s.clock) && text == env.say(ExpiredAnswer))
       || (Active(s.table.turns[x].data.state) && s.table.turns[x].data.deadline <= s.clock && text == env.safe(env.say(TimedOut)))
  }

  // The session to view it in is gone.
  ghost predicate ViewLost(s: Sys, id: Identity, turn: Row<Turn>) {
    var d := id.device;
    !(&& d in s.table.sessions && s.table.sessions[d].expires > Unix(s.clock) && s.table.sessions[d].data.grant == id.grant
      && s.table.sessions[d].data.generation == id.generation && s.table.sessions[d].data.id == turn.data.sessionId)
  }

  // The turn that was read is viewed in the session as it is now.
  ghost predicate Viewed(env: Env, s: Sys, p: Proc, state: Status, text: string) {
    && p.SpeechView?
    && if ViewLost(s, p.id, p.turn) then state == Failed && text == env.say(ExpiredAnswer)
       else
         && !Active(p.turn.data.state) && state == p.turn.data.state && p.id.device in s.table.sessions
         && text == env.safe(ViewText(env, p.turn.data, s.table.sessions[p.id.device].data))
  }

  ghost predicate SpeechReason(env: Env, s: Sys, p: Proc, row: Row<Session>, id: Identity, state: Status, text: string) {
    if p.SpeechRead? then p.id == id && StoredDecided(s, id, row, state, text)
    else if p.SpeechTurn? then p.id == id && p.row == row && TurnOver(env, s, row, state, text)
    else p.SpeechView? && p.id == id && p.row == row && Viewed(env, s, p, state, text)
  }

  lemma SpeakingHasReason(env: Env, s: Sys, pid: nat, p: Proc, ch: Choice, row: Row<Session>, id: Identity, state: Status, text: string)
    requires NoticesFit(env) && Inv(s) && pid in s.procs && p == s.procs[pid]
    requires Speaking(Step(env, s, Advance(pid, ch)), pid, row, id, state, text)
    ensures SpeechReason(env, s, p, row, id, state, text)
  {
    hide Inv, StepSubmit, StepReset, StepSpeech, StepExecute, StepFinish, SpeechReason;
    if IsSubmit(p) { SubmitSpeaksNot(s, pid, p, ch); }
    else if IsReset(p) { ResetSpeaksNot(s, pid, p, ch); }
    else if IsSpeech(p) { SpeechSpeaks(env, s, pid, p, ch, row, id, state, text); }
    else if IsExecute(p) { ExecuteSpeaksNot(env, s, pid, p, ch); }
    else { FinishSpeaksNot(env, s, pid, p, ch); }
  }

  ghost predicate NoSpeech(s: Sys, pid: nat) { pid in s.procs ==> !IsSpeech(s.procs[pid]) }

  lemma SubmitSpeaksNot(s: Sys, pid: nat, p: Proc, ch: Choice)
    requires IsSubmit(p)
    ensures NoSpeech(StepSubmit(s, pid, p, ch), pid)
  {
    hide TxApply, TxMatches, SubmitTx, SubmitLog;
  }

  lemma ResetSpeaksNot(s: Sys, pid: nat, p: Proc, ch: Choice)
    requires IsReset(p)
    ensures NoSpeech(StepReset(s, pid, p, ch), pid)
  {
    hide TxApply, TxMatches, ResetTx, SessionTx, BlankSession, ResetLog;
  }

  lemma ExecuteSpeaksNot(env: Env, s: Sys, pid: nat, p: Proc, ch: Choice)
    requires IsExecute(p)
    ensures NoSpeech(StepExecute(env, s, pid, p, ch), pid)
  {
    hide TxApply, TxMatches, ClaimTx, NewMessages, Trim;
  }

  lemma FinishSpeaksNot(env: Env, s: Sys, pid: nat, p: Proc, ch: Choice)
    requires IsFinish(p)
    ensures NoSpeech(StepFinish(env, s, pid, p, ch), pid)
  {
    hide TxApply, TxMatches, FinishTx;
  }

  lemma SpeechSpeaks(env: Env, s: Sys, pid: nat, p: Proc, ch: Choice, row: Row<Session>, id: Identity, state: Status, text: string)
    requires IsSpeech(p) && Speaking(StepSpeech(env, s, pid, p, ch), pid, row, id, state, text)
    ensures SpeechReason(env, s, p, row, id, state, text)
  {
    hide SpeechReadStep, SpeechTurnStep, SpeechViewStep, SpeechRepeatStep, SpeechCommitStep, SpeechReason;
    if p.SpeechRead? { ReadSpeaks(env, s, pid, p, row, id, state, text); }
    else if p.SpeechTurn? { TurnSpeaks(env, s, pid, p, ch, row, id, state, text); }
    else if p.SpeechView? { ViewSpeaks(env, s, pid, p, row, id, state, text); }
    else { CommitSpeaksNot(env, s, pid, p, ch); }
  }

  lemma ReadSpeaks(env: Env, s: Sys, pid: nat, p: Proc, row: Row<Session>, id: Identity, state: Status, text: string)
    requires p.SpeechRead? && Speaking(SpeechReadStep(s, pid, p), pid, row, id, state, text)
    ensures SpeechReason(env, s, p, row, id, state, text)
  {
  }

  lemma TurnSpeaks(env: Env, s: Sys, pid: nat, p: Proc, ch: Choice, row: Row<Session>, id: Identity, state: Status, text: string)
    requires p.SpeechTurn? && Speaking(SpeechTurnStep(env, s, pid, p, ch), pid, row, id, state, text)
    ensures SpeechReason(env, s, p, row, id, state, text)
  {
  }

  lemma ViewSpeaks(env: Env, s: Sys, pid: nat, p: Proc, row: Row<Session>, id: Identity, state: Status, text: string)
    requires p.SpeechView? && Speaking(SpeechViewStep(env, s, pid, p), pid, row, id, state, text)
    ensures SpeechReason(env, s, p, row, id, state, text)
  {
    hide ViewText;
  }

  lemma CommitSpeaksNot(env: Env, s: Sys, pid: nat, p: Proc, ch: Choice)
    ensures p.SpeechRepeat? ==> (var t := SpeechRepeatStep(s, pid, p, ch); pid in t.procs ==> t.procs[pid].SpeechRead?)
    ensures p.SpeechCommit? ==> (var t := SpeechCommitStep(env, s, pid, p, ch); pid in t.procs ==> t.procs[pid].SpeechRead?)
  {
    hide TxApply, TxMatches, SessionTx, SpokenSession, SpokenLog;
  }

  // ----- Where its rows were read -----

  // A process that looks into the head's turn, with the session row it read.
  ghost predicate Looking(s: Sys, pid: nat, row: Row<Session>, id: Identity) {
    && pid in s.procs && (s.procs[pid].SpeechTurn? || s.procs[pid].SpeechView?)
    && s.procs[pid].row == row && s.procs[pid].id == id
  }

  // ... which was there, unexpired and for this grant, with an undecided head.
  ghost predicate ReadOpen(s: Sys, p: Proc, row: Row<Session>, id: Identity) {
    && p.SpeechRead? && p.id == id && Get(s.table.sessions, id.device) == Some(row)
    && row.expires > Unix(s.clock) && row.data.grant == id.grant && row.data.generation == id.generation
    && row.data.replies != [] && Active(row.data.replies[0].state)
  }

  lemma LookingHasRead(env: Env, s: Sys, pid: nat, p: Proc, ch: Choice, row: Row<Session>, id: Identity)
    requires NoticesFit(env) && Inv(s) && pid in s.procs && p == s.procs[pid] && Looking(Step(env, s, Advance(pid, ch)), pid, row, id)
    ensures Looking(s, pid, row, id) || ReadOpen(s, p, row, id)
  {
    hide Inv, StepSubmit, StepReset, StepSpeech, StepExecute, StepFinish, ReadOpen;
    if IsSubmit(p) { SubmitSpeaksNot(s, pid, p, ch); }
    else if IsReset(p) { ResetSpeaksNot(s, pid, p, ch); }
    else if IsSpeech(p) { SpeechLooks(env, s, pid, p, ch, row, id); }
    else if IsExecute(p) { ExecuteSpeaksNot(env, s, pid, p, ch); }
    else { FinishSpeaksNot(env, s, pid, p, ch); }
  }

  lemma SpeechLooks(env: Env, s: Sys, pid: nat, p: Proc, ch: Choice, row: Row<Session>, id: Identity)
    requires IsSpeech(p) && pid in s.procs && p == s.procs[pid] && Looking(StepSpeech(env, s, pid, p, ch), pid, row, id)
    ensures Looking(s, pid, row, id) || ReadOpen(s, p, row, id)
  {
    hide SpeechRepeatStep, SpeechCommitStep, ViewText;
    CommitSpeaksNot(env, s, pid, p, ch);
  }

  lemma {:induction false} WhereItRead(env: Env, actions: seq<Action>, n: nat, pid: nat, row: Row<Session>, id: Identity) returns (k: nat)
    requires NoticesFit(env) && n <= |actions| && Looking(At(env, actions, n), pid, row, id)
    ensures k < n && pid in At(env, actions, k).procs && ReadOpen(At(env, actions, k), At(env, actions, k).procs[pid], row, id)
  {
    hide At, Inv, Said, Step, ReadOpen;
    HowItGotThere(env, actions, n, pid);
    AtNext(env, actions, n - 1);
    var s, a := At(env, actions, n - 1), actions[n - 1];
    if Advanced(env, actions, n, pid) { LookingHasRead(env, s, pid, s.procs[pid], a.ch, row, id); }
    if Looking(s, pid, row, id) { k := WhereItRead(env, actions, n - 1, pid, row, id); } else { k := n - 1; }
  }

  lemma {:induction false} WhyItSpeaks(env: Env, actions: seq<Action>, n: nat, pid: nat, row: Row<Session>, id: Identity,
                                       state: Status, text: string) returns (k: nat)
    requires NoticesFit(env) && n <= |actions| && Speaking(At(env, actions, n), pid, row, id, state, text)
    ensures k < n && pid in At(env, actions, k).procs
    ensures SpeechReason(env, At(env, actions, k), At(env, actions, k).procs[pid], row, id, state, text)
  {
    hide At, Inv, Said, Step, SpeechReason;
    HowItGotThere(env, actions, n, pid);
    AtNext(env, actions, n - 1);
    var s, a := At(env, actions, n - 1), actions[n - 1];
    if Advanced(env, actions, n, pid) {
      SpeakingHasReason(env, s, pid, s.procs[pid], a.ch, row, id, state, text);
      k := n - 1;
    } else {
      k := WhyItSpeaks(env, actions, n - 1, pid, row, id, state, text);
    }
  }

  // A process about to view the head's turn, as it read it.
  ghost predicate Viewing(s: Sys, pid: nat, row: Row<Session>, id: Identity, turn: Row<Turn>) {
    Looking(s, pid, row, id) && s.procs[pid].SpeechView? && s.procs[pid].turn == turn
  }

  ghost predicate TurnRead(s: Sys, p: Proc, row: Row<Session>, id: Identity, turn: Row<Turn>) {
    p.SpeechTurn? && p.row == row && p.id == id && row.data.replies != [] && Get(s.table.turns, row.data.replies[0].receipt) == Some(turn)
  }

  lemma ViewingHasRead(env: Env, s: Sys, pid: nat, p: Proc, ch: Choice, row: Row<Session>, id: Identity, turn: Row<Turn>)
    requires NoticesFit(env) && Inv(s) && pid in s.procs && p == s.procs[pid] && Viewing(Step(env, s, Advance(pid, ch)), pid, row, id, turn)
    ensures TurnRead(s, p, row, id, turn)
  {
    hide Inv, StepSubmit, StepReset, StepSpeech, StepExecute, StepFinish, TurnRead;
    if IsSubmit(p) { SubmitSpeaksNot(s, pid, p, ch); }
    else if IsReset(p) { ResetSpeaksNot(s, pid, p, ch); }
    else if IsSpeech(p) { SpeechViewing(env, s, pid, p, ch, row, id, turn); }
    else if IsExecute(p) { ExecuteSpeaksNot(env, s, pid, p, ch); }
    else { FinishSpeaksNot(env, s, pid, p, ch); }
  }

  lemma SpeechViewing(env: Env, s: Sys, pid: nat, p: Proc, ch: Choice, row: Row<Session>, id: Identity, turn: Row<Turn>)
    requires IsSpeech(p) && pid in s.procs && p == s.procs[pid] && Viewing(StepSpeech(env, s, pid, p, ch), pid, row, id, turn)
    ensures TurnRead(s, p, row, id, turn)
  {
    hide SpeechRepeatStep, SpeechCommitStep, ViewText;
    CommitSpeaksNot(env, s, pid, p, ch);
  }

  lemma {:induction false} WhereItViewed(env: Env, actions: seq<Action>, n: nat, pid: nat, row: Row<Session>, id: Identity,
                                         turn: Row<Turn>) returns (k: nat)
    requires NoticesFit(env) && n <= |actions| && Viewing(At(env, actions, n), pid, row, id, turn)
    ensures k < n && pid in At(env, actions, k).procs && TurnRead(At(env, actions, k), At(env, actions, k).procs[pid], row, id, turn)
  {
    hide At, Inv, Said, Step, TurnRead;
    HowItGotThere(env, actions, n, pid);
    AtNext(env, actions, n - 1);
    var s, a := At(env, actions, n - 1), actions[n - 1];
    if Advanced(env, actions, n, pid) {
      ViewingHasRead(env, s, pid, s.procs[pid], a.ch, row, id, turn);
      k := n - 1;
    } else {
      k := WhereItViewed(env, actions, n - 1, pid, row, id, turn);
    }
  }

  // ----- Rows that are still there were there in between -----

  lemma RowBetween(a: Table, b: Table, c: Table, d: string, row: Row<Session>)
    requires Evolves(a, b) && Evolves(b, c) && Get(a.sessions, d) == Some(row) && Get(c.sessions, d) == Some(row)
    ensures Get(b.sessions, d) == Some(row)
  {
  }

  lemma StillThere(env: Env, actions: seq<Action>, j: nat, k: nat, n: nat, d: string, row: Row<Session>)
    requires NoticesFit(env) && j <= k <= n <= |actions|
    requires Get(At(env, actions, j).table.sessions, d) == Some(row) && Get(At(env, actions, n).table.sessions, d) == Some(row)
    ensures Get(At(env, actions, k).table.sessions, d) == Some(row)
  {
    hide At, Evolves;
    AllOnwards(env, actions, j, k);
    AllOnwards(env, actions, k, n);
    RowBetween(At(env, actions, j).table, At(env, actions, k).table, At(env, actions, n).table, d, row);
  }

  // The head of a stored queue names a turn of that session.
  lemma HeadHasTurn(s: Sys, d: string, row: Row<Session>)
    requires Inv(s) && Get(s.table.sessions, d) == Some(row) && row.data.replies != []
    ensures
      var x := row.data.replies[0].receipt;
      x in s.table.turns && s.table.turns[x].data.sessionId == row.data.id && s.table.turns[x].data.id == x
    ensures
      var x, head := row.data.replies[0].receipt, row.data.replies[0];
      Active(head.state) && !Active(s.table.turns[x].data.state) ==>
        s.table.turns[x].data.state == Failed && s.table.turns[x].data.failure == WorkerInterrupted
  {
    assert SessionOk(s.table, s.log, s.nextSession, d);
    assert ReplyOk(s.table, s.log, d, row.data.id, row.data.replies[0]);
    assert TurnOk(s.table, s.log, row.data.replies[0].receipt);
  }

  // ----- What is due -----

  // The turn's row or the session's is kept no longer.
  ghost predicate Lapsed(s: Sys, row: Row<Session>, x: Receipt)
    requires x in s.table.turns
  {
    s.table.turns[x].expires <= Unix(s.clock) || row.expires <= Unix(s.clock)
  }

  // The notice that is due for the undecided head of row: it lapsed, its time is up, or it was
  // found interrupted.
  ghost predicate Due(env: Env, s: Sys, row: Row<Session>, state: Status, text: string) {
    && row.data.replies != [] && state == Failed
    && var x := row.data.replies[0].receipt;
       && x in s.table.turns
       && ((Lapsed(s, row, x) && text == env.say(ExpiredAnswer))
           || (s.table.turns[x].data.deadline <= s.clock && text == env.say(TimedOut))
           || (s.table.turns[x].data.state == Failed && s.table.turns[x].data.failure == WorkerInterrupted
               && text == env.say(Failure(WorkerInterrupted))))
  }

  // x's turn at moment n is the later of the one at moment k.
  lemma TurnLater(env: Env, actions: seq<Action>, k: nat, n: nat, x: Receipt)
    requires NoticesFit(env) && k <= n <= |actions| && x in At(env, actions, k).table.turns
    ensures
      var s, t := At(env, actions, k), At(env, actions, n);
      && x in t.table.turns && TurnStep(s.table.turns[x], t.table.turns[x]) && s.clock <= t.clock
  {
    hide At, TurnStep;
    AllOnwards(env, actions, k, n);
  }

  lemma DueIfTurnOver(env: Env, actions: seq<Action>, j: nat, k: nat, n: nat, d: string, row: Row<Session>, state: Status, text: string)
    requires NoticesFit(env) && j <= k <= n <= |actions| && TurnOver(env, At(env, actions, k), row, state, text)
    requires Get(At(env, actions, j).table.sessions, d) == Some(row) && Get(At(env, actions, n).table.sessions, d) == Some(row)
    ensures Due(env, At(env, actions, n), row, state, text)
  {
    hide At, Inv;
    var x := row.data.replies[0].receipt;
    StillThere(env, actions, j, k, n, d, row);
    ReachedAt(env, actions, k);
    HeadHasTurn(At(env, actions, k), d, row);
    TurnLater(env, actions, k, n, x);
  }

  lemma ReachedAt(env: Env, actions: seq<Action>, k: nat)
    requires NoticesFit(env) && k <= |actions|
    ensures Inv(At(env, actions, k))
  {
    Reachable(env, actions[..k]);
  }

  lemma DueIfViewed(env: Env, actions: seq<Action>, j: nat, k: nat, n: nat, pid: nat, row: Row<Session>, id: Identity, state: Status,
                    text: string)
    requires NoticesFit(env) && j <= k <= n <= |actions| && pid in At(env, actions, k).procs && pid in At(env, actions, j).procs
    requires Looking(At(env, actions, k), pid, row, id) && Viewed(env, At(env, actions, k), At(env, actions, k).procs[pid], state, text)
    requires ReadOpen(At(env, actions, j), At(env, actions, j).procs[pid], row, id)
    requires Get(At(env, actions, n).table.sessions, id.device) == Some(row)
    ensures Due(env, At(env, actions, n), row, state, text)
  {
    hide At, Inv, ViewText;
    var s, x := At(env, actions, k), row.data.replies[0].receipt;
    var turn := s.procs[pid].turn;
    StillThere(env, actions, j, k, n, id.device, row);
    ReachedAt(env, actions, k);
    HeadHasTurn(s, id.device, row);
    var i := WhereItViewed(env, actions, k, pid, row, id, turn);
    TurnLater(env, actions, i, k, x);
    TurnLater(env, actions, k, n, x);
    if !ViewLost(s, id, turn) { InterruptedView(env, s, id.device, turn.data); }
  }

  // ----- What one Speech writes -----

  // The next part of text, from the cursor on: up to end, trimmed, or that there is no more.
  ghost predicate NextPart(env: Env, text: string, start: nat, end: nat, said: string) {
    && ChunkEnds(env.space, text, start, end)
    && said == if start >= |text| then env.say(FullAnswer) else Trim(env.space, text[start..end])
  }

  ghost predicate SpokenTo(env: Env, a: Session, b: Session, state: Status, text: string, end: nat)
    requires a.replies != []
  {
    var head := a.replies[0];
    && NextPart(env, text, head.offset, end, b.lastSpeech)
    && b.replies == (if end < |text| then [Reply(head.receipt, state, text, end)] else []) + a.replies[1..]
    && b.lastSpeechReceipt == Some(head.receipt) && b.lastSpeechState == state && (b.lastSpeechMore <==> end < |text|)
  }

  // The session after Speech said the next part of (state, text) for its head.
  ghost predicate SpokenOn(env: Env, a: Session, b: Session, state: Status, text: string) {
    && a.replies != [] && (exists end: nat :: SpokenTo(env, a, b, state, text, end))
    && b == a.(replies := b.replies, lastSpeech := b.lastSpeech, lastSpeechReceipt := b.lastSpeechReceipt,
               lastSpeechState := b.lastSpeechState, lastSpeechMore := b.lastSpeechMore)
  }

  lemma SpokenIsExact(env: Env, a: Session, state: Status, text: string)
    requires a.replies != []
    ensures SpokenOn(env, a, SpokenSession(env, a, state, text), state, text)
  {
    var b, head := SpokenSession(env, a, state, text), a.replies[0];
    var end := ChunkEnd(env.space, text, head.offset);
    assert SpokenTo(env, a, b, state, text, end);
  }

  lemma SpeechWrites(env: Env, s: Sys, pid: nat, p: Proc, ch: Choice)
    requires NoticesFit(env) && Inv(s) && pid in s.procs && p == s.procs[pid] && p.SpeechCommit? && p.row.data.replies != []
    requires Passes(env, s, p, ch)
    ensures
      var d, t' := p.id.device, Step(env, s, Advance(pid, ch)).table;
      && Get(s.table.sessions, d) == Some(p.row) && t'.turns == s.table.turns && t'.lock == s.table.lock
      && d in t'.sessions && SpokenOn(env, p.row.data, t'.sessions[d].data, p.state, p.text)
      && (forall e :: e in s.table.sessions && e != d ==> e in t'.sessions && t'.sessions[e] == s.table.sessions[e])
  {
    hide Inv, Step, ProcOk, Apply, Matches, SpokenSession, SpokenOn;
    InvProcAt(s, pid);
    SpeakerKnows(s, pid, p);
    CommitSteps(env, s, pid, p, ch);
    SpokenIsExact(env, p.row.data, p.state, p.text);
    PutSession(s.table, p.id.device, p.row, SpokenSession(env, p.row.data, p.state, p.text), Window(s, ch));
    ApplyNone(s.table.turns);
    ApplyNone(s.table.lock);
  }

  lemma SpeakerKnows(s: Sys, pid: nat, p: Proc)
    requires p.SpeechCommit? && ProcOk(s.table, s.log, s.clock, pid, p)
    ensures Faithful(s.table.sessions, p.id.device, p.row)
  {
    hide SubmitOk, ResetOk, ExecuteOk, FinishOk, Faithful, Owned, DecidedOk;
  }

  // ----- Main result -----

  // What is said of the head x of row, decided as (state, text): the stored answer when x was
  // decided, which is x's own model run's when x is complete; otherwise a notice, and of an
  // undecided x only the one that is due.
  ghost predicate SaysWhatIsDue(env: Env, s: Sys, row: Row<Session>, state: Status, text: string) {
    && row.data.replies != []
    && var head := row.data.replies[0];
       && (!Active(head.state) ==> state == head.state && text == head.text)
       && (if head.state == Complete then OwnAnswer(env, s.log, head.receipt, text) else AlexaAnswers.Notice(env, text))
       && (Active(head.state) ==> Due(env, s, row, state, text))
  }

  // Over every run: Speech says, and moves on or takes off the queue, the next part of its head's
  // answer as it was decided, and says of an undecided one only the notice that is due, never
  // while its turn may still be worked on. It changes no turn and no other Echo's session.
  lemma SpeechSaysWhatIsDue(env: Env, actions: seq<Action>, n: nat)
    requires NoticesFit(env) && n < |actions| && actions[n].Advance? && actions[n].pid in At(env, actions, n).procs
    requires
      var s, p := At(env, actions, n), At(env, actions, n).procs[actions[n].pid];
      p.SpeechCommit? && p.row.data.replies != [] && Passes(env, s, p, actions[n].ch)
    ensures
      var s, t, p := At(env, actions, n), At(env, actions, n + 1).table, At(env, actions, n).procs[actions[n].pid];
      var d := p.id.device;
      && Get(s.table.sessions, d) == Some(p.row) && SaysWhatIsDue(env, s, p.row, p.state, p.text)
      && d in t.sessions && SpokenOn(env, p.row.data, t.sessions[d].data, p.state, p.text)
      && t.turns == s.table.turns && t.lock == s.table.lock
      && (forall e :: e in s.table.sessions && e != d ==> e in t.sessions && t.sessions[e] == s.table.sessions[e])
  {
    hide At, Inv, Said, Step, Passes, SpokenOn, SpeechReason, Due, ProcOk;
    var s, pid := At(env, actions, n), actions[n].pid;
    var p := s.procs[pid];
    AtNext(env, actions, n);
    SpeechWrites(env, s, pid, p, actions[n].ch);
    var k := WhyItSpeaks(env, actions, n, pid, p.row, p.id, p.state, p.text);
    ReasonDecides(env, actions, k, n, pid, p.row, p.id, p.state, p.text);
    StoredIsOwn(env, s, p.id.device, p.row);
    if Active(p.row.data.replies[0].state) { DueIsNotice(env, s, p.row, p.state, p.text); }
  }

  lemma DueIsNotice(env: Env, s: Sys, row: Row<Session>, state: Status, text: string)
    requires Due(env, s, row, state, text)
    ensures AlexaAnswers.Notice(env, text)
  {
  }

  lemma ReasonDecides(env: Env, actions: seq<Action>, k: nat, n: nat, pid: nat, row: Row<Session>, id: Identity, state: Status, text: string)
    requires NoticesFit(env) && k < n <= |actions| && pid in At(env, actions, k).procs && row.data.replies != []
    requires SpeechReason(env, At(env, actions, k), At(env, actions, k).procs[pid], row, id, state, text)
    requires Get(At(env, actions, n).table.sessions, id.device) == Some(row)
    ensures
      var head := row.data.replies[0];
      if Active(head.state) then Due(env, At(env, actions, n), row, state, text) else state == head.state && text == head.text
  {
    hide At, Due, Viewed, TurnOver, ReadOpen;
    var p := At(env, actions, k).procs[pid];
    if !p.SpeechRead? {
      var j := WhereItRead(env, actions, k, pid, row, id);
      OpenedRow(At(env, actions, j), At(env, actions, j).procs[pid], row, id);
      if p.SpeechTurn? { DueIfTurnOver(env, actions, j, k, n, id.device, row, state, text); }
      else { DueIfViewed(env, actions, j, k, n, pid, row, id, state, text); }
    }
  }

  lemma OpenedRow(s: Sys, p: Proc, row: Row<Session>, id: Identity)
    requires ReadOpen(s, p, row, id)
    ensures Get(s.table.sessions, id.device) == Some(row) && row.data.replies != [] && Active(row.data.replies[0].state)
  {
  }

  lemma StoredIsOwn(env: Env, s: Sys, d: string, row: Row<Session>)
    requires Said(env, s) && Get(s.table.sessions, d) == Some(row) && row.data.replies != []
    ensures
      var head := row.data.replies[0];
      && (head.state == Complete ==> OwnAnswer(env, s.log, head.receipt, head.text))
      && (head.state == Failed || head.state == Cancelled ==> AlexaAnswers.Notice(env, head.text))
  {
    hide ToldSaid, ProcSaid, ExchangeSaid;
    assert SessionSaid(env, s.log, row.data);
    assert ReplySaid(env, s.log, row.data.replies[0]);
  }
}
