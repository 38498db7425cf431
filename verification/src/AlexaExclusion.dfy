// Owner mutual exclusion through the LOCK row: proved outright for one Echo. For many Echos,
// whose LOCK row is matched by version alone, exactly when every live turn holds the lock,
// which is enough for one live turn; AlexaOneLive says exactly when there is at most one.
module AlexaExclusion {
  import opened Prelude
  import opened Store
  import opened Conversation
  import opened AlexaProtocol
  import opened AlexaSafety
  import opened AlexaSteps
  import opened AlexaTheorems
  import opened AlexaResults
  import opened AlexaLock

  lemma OneHolder(s: Sys)
    requires LiveTurnsHoldLock(s.table, s.clock)
    ensures AtMostOneLive(s.table, s.clock)
  {
    forall x, y | Live(s.table, s.clock, x) && Live(s.table, s.clock, y)
      ensures x == y
    {
      assert Holder(s.table, x) && Holder(s.table, y);
    }
  }

  // ----- Many Echos, under row identity -----

  ghost predicate RowIdentity(env: Env, actions: seq<Action>) {
    forall i :: 0 <= i < |actions| ==> LockIsTheRowRead(env, Run(env, INIT, actions[..i]), actions[i])
  }

  lemma {:induction false} LockInvThroughout(env: Env, actions: seq<Action>)
    requires NoticesFit(env) && RowIdentity(env, actions)
    ensures LockInv(Run(env, INIT, actions))
  {
    hide Inv, LockInv, LockIsTheRowRead;
    if actions == [] {
      InitLock();
    } else {
      var before := actions[..|actions| - 1];
      forall i | 0 <= i < |before|
        ensures LockIsTheRowRead(env, Run(env, INIT, before[..i]), before[i])
      {
        assert before[..i] == actions[..i];
      }
      LockInvThroughout(env, before);
      Reachable(env, before);
      LockStep(env, Run(env, INIT, before), actions[|actions| - 1]);
    }
  }

  lemma InitLock()
    ensures LockInv(INIT)
  {
  }

  // Provided each commit that matched a LOCK row matched the row its process read, every
  // live turn of an owner holds the unexpired lock, which outlasts it, so there is one at most.
  lemma LiveTurnsHoldTheLock(env: Env, actions: seq<Action>)
    requires NoticesFit(env) && RowIdentity(env, actions)
    ensures
      var s := Run(env, INIT, actions);
      && AtMostOneLive(s.table, s.clock)
      && forall x :: Live(s.table, s.clock, x) ==>
           Holder(s.table, x) && s.table.lock[TheLock].expires * 1000 > s.clock
  {
    var s := Run(env, INIT, actions);
    LockInvThroughout(env, actions);
    OneHolder(s);
    forall x | Live(s.table, s.clock, x)
      ensures Holder(s.table, x) && s.table.lock[TheLock].expires * 1000 > s.clock
    {
      assert Holder(s.table, x);
    }
  }

  // ----- Many Echos, exactly -----

  ghost predicate LockHeldAt(s: Sys) { LiveTurnsHoldLock(s.table, s.clock) }

  ghost predicate NoneRobbed(env: Env, actions: seq<Action>) {
    forall i :: 0 <= i < |actions| ==> !Robs(env, Run(env, INIT, actions[..i]), actions[i])
  }

  lemma {:induction false} UnrobbedThroughout(env: Env, actions: seq<Action>)
    requires NoticesFit(env) && NoneRobbed(env, actions)
    ensures LockInv(Run(env, INIT, actions))
  {
    hide Inv, LockInv, Robs;
    if actions == [] {
      InitLock();
    } else {
      var before := actions[..|actions| - 1];
      forall i | 0 <= i < |before|
        ensures !Robs(env, Run(env, INIT, before[..i]), before[i])
      {
        assert before[..i] == actions[..i];
      }
      UnrobbedThroughout(env, before);
      Reachable(env, before);
      assert Run(env, INIT, before) == Run(env, INIT, actions[..|before|]);
      UnrobbedStep(env, Run(env, INIT, before), actions[|actions| - 1]);
    }
  }

  lemma {:induction false} HeldThroughout(env: Env, actions: seq<Action>)
    requires NoticesFit(env)
    ensures AllHeldOk(Run(env, INIT, actions))
  {
    hide Inv, AllHeldOk, Step;
    if actions == [] {
      InitLock();
    } else {
      Reachable(env, actions[..|actions| - 1]);
      HeldThroughout(env, actions[..|actions| - 1]);
      HeldKeeps(env, Run(env, INIT, actions[..|actions| - 1]), actions[|actions| - 1]);
    }
  }

  lemma RobberyShows(env: Env, actions: seq<Action>, i: nat)
    requires NoticesFit(env) && i < |actions| && Robs(env, Run(env, INIT, actions[..i]), actions[i])
    requires LockHeldAt(Run(env, INIT, actions[..i]))
    ensures !LockHeldAt(Run(env, INIT, actions[..i + 1]))
  {
    hide Inv, AllHeldOk, LiveTurnsHoldLock, Robs, Step;
    Reachable(env, actions[..i]);
    HeldThroughout(env, actions[..i]);
    HeldThroughout(env, actions[..i + 1]);
    assert actions[..i + 1][..i] == actions[..i];
    LockStepExactly(env, Run(env, INIT, actions[..i]), actions[i]);
  }

  // Over whole runs: every live turn holds the lock throughout if and only if no commit of the
  // run overwrote or deleted a LOCK row naming a live turn that it did not decide. Then there
  // is never more than one.
  lemma ExclusionExactly(env: Env, actions: seq<Action>)
    requires NoticesFit(env)
    ensures (forall n :: 0 <= n <= |actions| ==> LockHeldAt(Run(env, INIT, actions[..n]))) <==> NoneRobbed(env, actions)
    ensures NoneRobbed(env, actions) ==>
              forall n :: 0 <= n <= |actions| ==> AtMostOneLive(Run(env, INIT, actions[..n]).table, Run(env, INIT, actions[..n]).clock)
  {
    hide Run, Robs, LiveTurnsHoldLock, AtMostOneLive;
    if NoneRobbed(env, actions) {
      forall n | 0 <= n <= |actions|
        ensures LockHeldAt(Run(env, INIT, actions[..n]))
        ensures AtMostOneLive(Run(env, INIT, actions[..n]).table, Run(env, INIT, actions[..n]).clock)
      {
        forall i | 0 <= i < n
          ensures !Robs(env, Run(env, INIT, actions[..n][..i]), actions[..n][i])
        {
          assert actions[..n][..i] == actions[..i];
        }
        UnrobbedThroughout(env, actions[..n]);
        OneHolder(Run(env, INIT, actions[..n]));
      }
    } else {
      var i :| 0 <= i < |actions| && Robs(env, Run(env, INIT, actions[..i]), actions[i]);
      if LockHeldAt(Run(env, INIT, actions[..i])) { RobberyShows(env, actions, i); }
    }
  }

  // ----- Exactly when one commit keeps it -----

  // From any good state, a Submit that commits while its own turn can still run leaves
  // one live turn if and only if the LOCK row it overwrote did not name a live turn.
  lemma SubmitKeepsExclusion(env: Env, s: Sys, pid: nat, ch: Choice)
    requires NoticesFit(env) && Inv(s) && LockInv(s) && pid in s.procs && s.procs[pid].SubmitCommit?
    requires SubmitCommitStep(s, pid, s.procs[pid], ch) != Stop(s, pid) && s.procs[pid].now + WORKER_BUDGET > s.clock
    ensures
      AtMostOneLive(Step(env, s, Advance(pid, ch)).table, s.clock)
      <==> !(TheLock in s.table.lock && Live(s.table, s.clock, s.table.lock[TheLock].data))
  {
    hide Inv, TxApply, SubmitTx, TxMatches, LiveTurnsHoldLock;
    var p, t, t' := s.procs[pid], s.table, Step(env, s, Advance(pid, ch)).table;
    var x := ReceiptOf(p.a);
    InvProcAt(s, pid);
    StepKeeps(env, s, Advance(pid, ch));
    SubmitAddsTurn(t, p, Unix(p.now) + RECOVERY_WINDOW);
    assert Live(t', s.clock, x);
    if TheLock in t.lock && Live(t, s.clock, t.lock[TheLock].data) {
      var y := t.lock[TheLock].data;
      assert y in t.turns && t'.turns[y] == t.turns[y];
      assert Live(t', s.clock, y);
    } else {
      forall y | Live(t', s.clock, y)
        ensures y == x
      {
        if y != x { StayedLive(s, t', y); }
      }
    }
  }

  lemma StayedLive(s: Sys, t': Table, y: Receipt)
    requires LiveTurnsHoldLock(s.table, s.clock) && Evolves(s.table, t') && Live(t', s.clock, y) && y in s.table.turns
    ensures TheLock in s.table.lock && Live(s.table, s.clock, s.table.lock[TheLock].data)
  {
    LiveWasLive(s.table, t', s.clock, y);
    assert Holder(s.table, y);
  }

  // ----- One Echo: the session row is in every transaction -----

  ghost predicate AtEcho(p: Proc, d: string) {
    match p
    case SubmitPrior(a) => a.id.device == d
    case SubmitSession(a, _, _) => a.id.device == d
    case SubmitLock(a, _, _) => a.id.device == d
    case SubmitNow(a, _, _, _) => a.id.device == d
    case SubmitPrevious(a, _, _, _, _) => a.id.device == d
    case SubmitCommit(a, _, _, _, _, _) => a.id.device == d
    case ResetSession(id, _, _, next) => id.device == d && NextAt(next, d)
    case ResetTurn(id, _, _, _, next) => id.device == d && NextAt(next, d)
    case ResetLock(id, _, _, _, next, _) => id.device == d && NextAt(next, d)
    case ResetCommit(id, _, _, _, next, _, _) => id.device == d && NextAt(next, d)
    case _ => true
  }

  ghost predicate NextAt(next: Option<(Ask, int)>, d: string) { next.Some? ==> next.value.0.id.device == d }

  // While the session row a process read is still stored, so is the lock row it read after it.
  ghost predicate LockFresh(t: Table, p: Proc) {
    match p
    case SubmitNow(a, _, row, held) => Unmoved(t, a.id.device, Some(row), held)
    case SubmitPrevious(a, _, row, held, _) => Unmoved(t, a.id.device, Some(row), held)
    case SubmitCommit(a, _, row, held, _, _) => Unmoved(t, a.id.device, Some(row), held)
    case ResetCommit(id, old_, _, _, _, _, held) => Unmoved(t, id.device, old_, held)
    case FinishCommit(mine, _, _, row, held) => Unmoved(t, mine.data.ident.device, Some(row), held)
    case _ => true
  }

  ghost predicate Unmoved(t: Table, d: string, row: Option<Row<Session>>, held: Option<Row<Receipt>>) {
    row.Some? && held.Some? && Current(t.sessions, d, row.value) ==> Get(t.lock, TheLock) == held
  }

  ghost predicate OneEcho(s: Sys, d: string) {
    && (forall e :: e in s.table.sessions ==> e == d)
    && (forall x :: x in s.table.turns ==> x.device == d)
    && (forall pid :: pid in s.procs ==> AtEcho(s.procs[pid], d) && LockFresh(s.table, s.procs[pid]))
  }

  // Every request is made by Echo d; queue messages may be anything.
  ghost predicate OnlyFrom(actions: seq<Action>, d: string) {
    forall i :: 0 <= i < |actions| && actions[i].Start? ==> AtEcho(actions[i].entry, d)
  }

  // The session row was written, so nothing read before is current any more.
  ghost predicate SessionBumped(t: Table, t': Table, d: string) {
    d in t.sessions ==> d in t'.sessions && t'.sessions[d].version > t.sessions[d].version
  }

  lemma UnmovedStays(t: Table, t': Table, d: string, row: Option<Row<Session>>, held: Option<Row<Receipt>>)
    requires Unmoved(t, d, row, held) && Evolves(t, t') && (t'.lock == t.lock || SessionBumped(t, t', d))
    requires row.Some? ==> Faithful(t.sessions, d, row.value)
    ensures Unmoved(t', d, row, held)
  {
    if row.Some? { FaithfulStays(t.sessions, t'.sessions, d, row.value); }
  }

  lemma SnapsKnown(t: Table, log: Log, clock: nat, pid: nat, p: Proc)
    requires ProcOk(t, log, clock, pid, p)
    ensures p.SubmitNow? || p.SubmitPrevious? || p.SubmitCommit? ==> Faithful(t.sessions, p.a.id.device, p.row)
    ensures p.ResetCommit? && p.old_.Some? ==> Faithful(t.sessions, p.id.device, p.old_.value)
    ensures p.FinishCommit? ==> p.mine.data.ident.device in t.sessions && Faithful(t.sessions, p.mine.data.ident.device, p.row)
  {
    hide SpeechOk, ExecuteOk, Owned, PrevOk, MayFinish;
  }

  lemma FreshStays(s: Sys, t': Table, d: string, pid: nat)
    requires Inv(s) && OneEcho(s, d) && Evolves(s.table, t') && pid in s.procs
    requires t'.lock == s.table.lock || SessionBumped(s.table, t', d)
    ensures LockFresh(t', s.procs[pid])
  {
    hide Inv, ProcOk, Evolves, Unmoved, Faithful, SessionBumped;
    InvProcAt(s, pid);
    var t, p := s.table, s.procs[pid];
    SnapsKnown(t, s.log, s.clock, pid, p);
    if p.SubmitNow? || p.SubmitPrevious? || p.SubmitCommit? { UnmovedStays(t, t', d, Some(p.row), p.held); }
    if p.ResetCommit? { UnmovedStays(t, t', d, p.old_, p.held); }
    if p.FinishCommit? { UnmovedStays(t, t', p.mine.data.ident.device, Some(p.row), p.held); }
  }

  // What every commit at Echo d leaves: still only d, and the lock moved only with d's session.
  ghost predicate StaysAt(t: Table, t': Table, d: string) {
    && (forall e :: e in t'.sessions ==> e == d)
    && (forall x :: x in t'.turns ==> x.device == d)
    && (t'.lock == t.lock || SessionBumped(t, t', d))
  }

  lemma StaysAtTx(t: Table, tx: Tx, d: string)
    requires forall e :: e in t.sessions || e in tx.sessions ==> e == d
    requires forall x :: x in t.turns || x in tx.turns ==> x.device == d
    requires TxMatches(t, tx) && (tx.lock == map[] || (d in tx.sessions && Puts(tx.sessions)))
    ensures StaysAt(t, TxApply(t, tx), d)
  {
    if tx.lock == map[] { ApplyNone(t.lock); }
    else { assert Holds(Get(t.sessions, d), tx.sessions[d]); }
  }

  lemma CommitStaysAt(env: Env, s: Sys, pid: nat, p: Proc, ch: Choice, d: string)
    requires NoticesFit(env) && Inv(s) && OneEcho(s, d) && pid in s.procs && p == s.procs[pid] && Commits(p)
    ensures StaysAt(s.table, Step(env, s, Advance(pid, ch)).table, d)
  {
    hide Inv, TxApply, TxMatches, StaysAt, Step, Asked;
    InvProcAt(s, pid);
    WritesAsked(env, s, pid, p, ch);
    var tx := Asked(env, s, p, ch);
    if TxMatches(s.table, tx) {
      AskedAt(env, s, pid, p, ch, d);
      StaysAtTx(s.table, tx, d);
    }
    Same(s.table, d);
  }

  lemma AskedAt(env: Env, s: Sys, pid: nat, p: Proc, ch: Choice, d: string)
    requires ProcOk(s.table, s.log, s.clock, pid, p) && AtEcho(p, d) && Commits(p)
    requires (forall e :: e in s.table.sessions ==> e == d) && (forall x :: x in s.table.turns ==> x.device == d)
    ensures
      var tx := Asked(env, s, p, ch);
      && (forall e :: e in tx.sessions ==> e == d) && (forall x :: x in tx.turns ==> x.device == d)
      && (tx.lock == map[] || (d in tx.sessions && Puts(tx.sessions)))
  {
    hide SpokenSession, FinishedSession, FinishedTurn;
  }

  lemma Same(t: Table, d: string)
    requires (forall e :: e in t.sessions ==> e == d) && (forall x :: x in t.turns ==> x.device == d)
    ensures StaysAt(t, t, d)
  {
  }

  // One process moved on at Echo d; a step that wrote is followed by no lock snapshot.
  ghost predicate Onward(s: Sys, s': Sys, pid: nat, d: string) {
    && (pid in s'.procs ==> AtEcho(s'.procs[pid], d))
    && (pid in s'.procs && s'.table == s.table ==> LockFresh(s.table, s'.procs[pid]))
    && (pid in s'.procs && s'.table != s.table ==> s'.procs[pid].SubmitPublish? || s'.procs[pid].SubmitSession? || s'.procs[pid].CheckTurn?)
    && (s'.procs == s.procs - {pid} || (pid in s'.procs && s'.procs == s.procs[pid := s'.procs[pid]]))
  }

  lemma SubmitOnward(env: Env, s: Sys, pid: nat, p: Proc, ch: Choice, d: string)
    requires IsSubmit(p) && AtEcho(p, d) && LockFresh(s.table, p)
    ensures Onward(s, StepSubmit(s, pid, p, ch), pid, d)
  {
    hide TxApply, TxMatches, SubmitTx, ResetTx, FinishTx, SpokenSession, SpokenLog, ChunkEnd, ClaimTx, SessionTx, ViewText;
  }

  lemma ResetOnward(env: Env, s: Sys, pid: nat, p: Proc, ch: Choice, d: string)
    requires IsReset(p) && AtEcho(p, d) && LockFresh(s.table, p)
    ensures Onward(s, StepReset(s, pid, p, ch), pid, d)
  {
    hide TxApply, TxMatches, SubmitTx, ResetTx, FinishTx, SpokenSession, SpokenLog, ChunkEnd, ClaimTx, SessionTx, ViewText;
  }

  // Processes that never read the lock.
  lemma Lockless(t: Table, p: Proc, d: string)
    requires IsSpeech(p) || IsExecute(p) || p.FinishRead?
    ensures AtEcho(p, d) && LockFresh(t, p)
  {
  }

  lemma SpeechOnward(env: Env, s: Sys, pid: nat, p: Proc, ch: Choice, d: string)
    requires IsSpeech(p) && AtEcho(p, d) && LockFresh(s.table, p)
    ensures Onward(s, StepSpeech(env, s, pid, p, ch), pid, d)
  {
    hide TxApply, TxMatches, SubmitTx, ResetTx, FinishTx, SpokenSession, SpokenLog, ChunkEnd, ClaimTx, SessionTx, ViewText, AtEcho, LockFresh;
    var s' := StepSpeech(env, s, pid, p, ch);
    if pid in s'.procs {
      assert IsSpeech(s'.procs[pid]);
      Lockless(s.table, s'.procs[pid], d);
    }
  }

  lemma ExecuteOnward(env: Env, s: Sys, pid: nat, p: Proc, ch: Choice, d: string)
    requires IsExecute(p) && AtEcho(p, d) && LockFresh(s.table, p)
    ensures Onward(s, StepExecute(env, s, pid, p, ch), pid, d)
  {
    hide TxApply, TxMatches, SubmitTx, ResetTx, FinishTx, SpokenSession, SpokenLog, ChunkEnd, ClaimTx, SessionTx, ViewText, AtEcho, LockFresh, Trim, NewMessages;
    var s' := StepExecute(env, s, pid, p, ch);
    if pid in s'.procs {
      assert IsExecute(s'.procs[pid]) || s'.procs[pid].FinishRead?;
      Lockless(s.table, s'.procs[pid], d);
    }
  }

  lemma FinishOnward(env: Env, s: Sys, pid: nat, p: Proc, ch: Choice, d: string)
    requires IsFinish(p) && AtEcho(p, d) && LockFresh(s.table, p)
    ensures Onward(s, StepFinish(env, s, pid, p, ch), pid, d)
  {
    hide TxApply, TxMatches, SubmitTx, ResetTx, FinishTx, SpokenSession, SpokenLog, ChunkEnd, ClaimTx, SessionTx, ViewText;
  }

  lemma AdvanceAtEcho(env: Env, s: Sys, pid: nat, p: Proc, ch: Choice, d: string)
    requires pid in s.procs && p == s.procs[pid] && AtEcho(p, d) && LockFresh(s.table, p)
    ensures Onward(s, Step(env, s, Advance(pid, ch)), pid, d)
  {
    hide Onward, AtEcho, LockFresh;
    if IsSubmit(p) { SubmitOnward(env, s, pid, p, ch, d); }
    else if IsReset(p) { ResetOnward(env, s, pid, p, ch, d); }
    else if IsSpeech(p) { SpeechOnward(env, s, pid, p, ch, d); }
    else if IsExecute(p) { ExecuteOnward(env, s, pid, p, ch, d); }
    else { FinishOnward(env, s, pid, p, ch, d); }
  }

  lemma OneEchoStep(env: Env, s: Sys, a: Action, d: string)
    requires NoticesFit(env) && Inv(s) && OneEcho(s, d) && (a.Start? ==> AtEcho(a.entry, d))
    ensures OneEcho(Step(env, s, a), d)
  {
    hide Inv, LockFresh, AtEcho, Evolves;
    if a.Advance? && a.pid in s.procs {
      var s' := Step(env, s, a);
      StepKeeps(env, s, a);
      AdvanceAtEcho(env, s, a.pid, s.procs[a.pid], a.ch, d);
      if Commits(s.procs[a.pid]) { CommitStaysAt(env, s, a.pid, s.procs[a.pid], a.ch, d); }
      else { ReadKeepsTable(env, s, a); }
      forall q | q in s'.procs
        ensures AtEcho(s'.procs[q], d) && LockFresh(s'.table, s'.procs[q])
      {
        if q != a.pid { FreshStays(s, s'.table, d, q); } else { JustMoved(s.table, s'.table, s'.procs[q]); }
      }
    } else if a.Start? {
      StartsFresh(s.table, a.entry);
    }
  }

  lemma StartsFresh(t: Table, p: Proc)
    ensures Begins(p) ==> LockFresh(t, p)
  {
  }

  lemma JustMoved(t: Table, t': Table, p: Proc)
    requires t == t' ==> LockFresh(t, p)
    requires t != t' ==> p.SubmitPublish? || p.SubmitSession? || p.CheckTurn?
    ensures LockFresh(t', p)
  {
  }

  lemma OneEchoMatches(env: Env, s: Sys, a: Action, d: string)
    requires Inv(s) && OneEcho(s, d) && LockInv(s)
    ensures LockIsTheRowRead(env, s, a)
  {
    hide Inv, LockInv, FinishedSession, FinishedTurn, BlankSession;
    if a.Advance? && a.pid in s.procs {
      var p := s.procs[a.pid];
      HeldAt(s, a.pid);
      match p
      case SubmitCommit(_, _, _, _, _, _) => CurrentWhenMatched(s.table, Asked(env, s, p, a.ch), p.a.id.device, Some(p.row));
      case ResetCommit(_, _, _, _, _, _, _) => CurrentWhenMatched(s.table, Asked(env, s, p, a.ch), p.id.device, p.old_);
      case FinishCommit(_, _, _, _, _) => CurrentWhenMatched(s.table, Asked(env, s, p, a.ch), p.mine.data.ident.device, Some(p.row));
      case _ =>
    }
  }

  lemma HeldAt(s: Sys, pid: nat)
    requires LockInv(s) && pid in s.procs
    ensures HeldOk(s.clock, s.procs[pid])
  {
  }

  lemma CurrentWhenMatched(t: Table, tx: Tx, e: string, row: Option<Row<Session>>)
    requires e in tx.sessions && tx.sessions[e].before == row
    ensures TxMatches(t, tx) && row.Some? ==> Current(t.sessions, e, row.value)
  {
    if TxMatches(t, tx) { assert Holds(Get(t.sessions, e), tx.sessions[e]); }
  }

  lemma {:induction false} OneEchoThroughout(env: Env, actions: seq<Action>, d: string)
    requires NoticesFit(env) && OnlyFrom(actions, d)
    ensures OneEcho(Run(env, INIT, actions), d) && LockInv(Run(env, INIT, actions))
  {
    hide Inv, LockInv, OneEcho, AtEcho, LockIsTheRowRead;
    if actions == [] {
      InitLock();
      InitEcho(d);
    } else {
      var before, a := actions[..|actions| - 1], actions[|actions| - 1];
      OneEchoThroughout(env, before, d);
      Reachable(env, before);
      OneEchoStep(env, Run(env, INIT, before), a, d);
      OneEchoMatches(env, Run(env, INIT, before), a, d);
      LockStep(env, Run(env, INIT, before), a);
    }
  }

  lemma InitEcho(d: string)
    ensures OneEcho(INIT, d)
  {
  }

  // With one Echo nothing is assumed: in every run, at most one turn is live, and it
  // holds an unexpired lock that outlasts it.
  lemma OneEchoHasOneLiveTurn(env: Env, actions: seq<Action>, d: string)
    requires NoticesFit(env) && OnlyFrom(actions, d)
    ensures
      var s := Run(env, INIT, actions);
      AtMostOneLive(s.table, s.clock) && forall x :: Live(s.table, s.clock, x) ==> Holder(s.table, x)
  {
    OneEchoThroughout(env, actions, d);
    OneHolder(Run(env, INIT, actions));
  }
}
