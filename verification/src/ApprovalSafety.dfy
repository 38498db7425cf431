// One shot per generation: what every interleaving of Prepare, Approve and row removal keeps.
module ApprovalSafety {
  import opened Approvals

  // A row as Prepare first writes it.
  ghost predicate Fresh(i: Intent) { ValidIntent(i) && i.version == 1 && i.id == IntentId(i.uid, i.id.request) }

  // b is a with its approval added.
  ghost predicate Approves(a: Intent, b: Intent) {
    && Fresh(a) && b.version == 2 && b.receipt.Some?
    && b == Approved(a, 1, b.receipt.value.request, b.receipt.value.approvedAt)
    && b.receipt.value.approvedAt < a.expires
  }

  ghost predicate Wrote(log: Log, i: Intent) { exists k :: 0 <= k < |log.writes| && log.writes[k] == i }

  // A generation is written at most once at each version, and approved only after it was prepared.
  ghost predicate WritesOk(s: Sys) {
    && (forall k :: 0 <= k < |s.log.writes| ==> WriteOk(s, k))
    && (forall j, k :: 0 <= j < k < |s.log.writes| ==>
          s.log.writes[j].generation != s.log.writes[k].generation || s.log.writes[j].version < s.log.writes[k].version)
  }

  ghost predicate WriteOk(s: Sys, k: nat)
    requires k < |s.log.writes|
  {
    var i := s.log.writes[k];
    && i.generation < s.next && ValidIntent(i) && (i.version == 1 ==> Fresh(i))
    && (i.version == 2 ==> exists j :: 0 <= j < k && Approves(s.log.writes[j], i))
  }

  // Each row is the last thing written for its generation.
  ghost predicate RowOk(s: Sys, k: Key)
    requires k in s.rows
  {
    var i := s.rows[k];
    && KeyOf(i) == k && Wrote(s.log, i)
    && (i.version == 1 ==> forall j :: 0 <= j < |s.log.writes| && s.log.writes[j].generation == i.generation ==> s.log.writes[j].version == 1)
  }

  ghost predicate ProcOk(s: Sys, pid: nat, p: Proc) {
    match p
    case PrepareLoad(uid, _, action, _) => uid != "" && !action.deploy
    case PrepareDraw(uid, _, action, _) => uid != "" && !action.deploy
    case PrepareReload(uid, _, action, _) => uid != "" && !action.deploy
    case PrepareSwap(i) =>
      && Fresh(i) && i.generation in s.log.drawn && s.log.drawn[i.generation] == pid
      && (forall j :: 0 <= j < |s.log.writes| ==> s.log.writes[j].generation != i.generation)
    case ApproveSwap(i, version, request) =>
      version == 1 && i.receipt.Some? && i.receipt.value.request == request && exists a :: Wrote(s.log, a) && Approves(a, i)
    case _ => true
  }

  ghost predicate SuccessOk(s: Sys, x: Success) {
    match x
    case Approval(version, hash, request, i) =>
      && Wrote(s.log, i) && i.version == 2 && i.hash == hash && i.receipt.Some?
      && i.receipt.value.request == request && i.receipt.value.version == version
    case Preparation(uid, request, action, source, i) =>
      Wrote(s.log, i) && i.id == IntentId(uid, request) && i.uid == uid && i.action == action && i.source == source
  }

  ghost predicate Inv(s: Sys) {
    match s case Sys(_, rows, procs, next, log) =>
      && WritesOk(s)
      && (forall k :: k in rows ==> RowOk(s, k))
      && (forall pid :: pid in procs ==> ProcOk(s, pid, procs[pid]))
      && (forall n :: 0 <= n < |log.successes| ==> SuccessOk(s, log.successes[n]))
      && (forall g :: g in log.drawn ==> g < next)
  }

  // ----- Writes -----

  // Two writes of one generation at one version are the same row.
  lemma SameWrite(s: Sys, a: Intent, b: Intent)
    requires WritesOk(s) && Wrote(s.log, a) && Wrote(s.log, b) && a.generation == b.generation && a.version == b.version
    ensures a == b
  {
  }

  lemma WroteValid(s: Sys, i: Intent)
    requires WritesOk(s) && Wrote(s.log, i)
    ensures ValidIntent(i) && i.generation < s.next && (i.version == 1 ==> Fresh(i))
  {
    var k :| 0 <= k < |s.log.writes| && s.log.writes[k] == i;
    assert WriteOk(s, k);
  }

  // The system after row i was written and process pid went on to rest (None: ended).
  function Written(s: Sys, i: Intent): Sys { Write(s, s.rows[KeyOf(i) := i], i) }

  ghost predicate NewGeneration(s: Sys, i: Intent) {
    Fresh(i) && i.generation < s.next && forall j :: 0 <= j < |s.log.writes| ==> s.log.writes[j].generation != i.generation
  }

  // The row it replaces is the one that was reviewed.
  ghost predicate ApprovesRow(s: Sys, i: Intent) {
    KeyOf(i) in s.rows && s.rows[KeyOf(i)].version == 1 && Approves(s.rows[KeyOf(i)], i)
  }

  lemma LogGrows(s: Sys, i: Intent, x: Intent)
    requires Wrote(s.log, x)
    ensures Wrote(Written(s, i).log, x)
  {
    var k :| 0 <= k < |s.log.writes| && s.log.writes[k] == x;
    assert Written(s, i).log.writes[k] == x;
  }

  lemma WrittenIsWrote(s: Sys, i: Intent)
    ensures Wrote(Written(s, i).log, i)
  {
    assert Written(s, i).log.writes[|s.log.writes|] == i;
  }

  // Version 1 rows have not been approved, so an approval is the first of its generation.
  lemma ApprovedOnce(s: Sys, i: Intent)
    requires Inv(s) && ApprovesRow(s, i)
    ensures forall j :: 0 <= j < |s.log.writes| && s.log.writes[j].generation == i.generation ==> s.log.writes[j].version == 1
  {
    assert RowOk(s, KeyOf(i));
  }

  lemma NewWriteOk(s: Sys, i: Intent)
    requires Inv(s) && (NewGeneration(s, i) || ApprovesRow(s, i))
    ensures WriteOk(Written(s, i), |s.log.writes|) && ValidIntent(i)
    ensures forall j :: 0 <= j < |s.log.writes| ==> s.log.writes[j].generation != i.generation || s.log.writes[j].version < i.version
  {
    var t, n := Written(s, i), |s.log.writes|;
    assert t.log.writes[n] == i && forall k :: 0 <= k < n ==> t.log.writes[k] == s.log.writes[k];
    if ApprovesRow(s, i) {
      ApprovedOnce(s, i);
      assert RowOk(s, KeyOf(i));
      WroteValid(s, s.rows[KeyOf(i)]);
      var j :| 0 <= j < n && s.log.writes[j] == s.rows[KeyOf(i)];
      assert Approves(t.log.writes[j], i);
    }
  }

  lemma OldWriteOk(s: Sys, i: Intent, k: nat)
    requires k < |s.log.writes| && WriteOk(s, k)
    ensures WriteOk(Written(s, i), k)
  {
    var t := Written(s, i);
    if s.log.writes[k].version == 2 {
      var j :| 0 <= j < k && Approves(s.log.writes[j], s.log.writes[k]);
      assert Approves(t.log.writes[j], t.log.writes[k]);
    }
  }

  lemma WriteKeepsWrites(s: Sys, i: Intent)
    requires Inv(s) && (NewGeneration(s, i) || ApprovesRow(s, i))
    ensures WritesOk(Written(s, i)) && ValidIntent(i)
  {
    hide RowOk, ProcOk, SuccessOk;
    var t, n := Written(s, i), |s.log.writes|;
    NewWriteOk(s, i);
    forall k | 0 <= k < n
      ensures WriteOk(t, k)
    {
      assert WriteOk(s, k);
      OldWriteOk(s, i, k);
    }
  }

  lemma WriteKeepsRows(s: Sys, i: Intent, k: Key)
    requires Inv(s) && (NewGeneration(s, i) || ApprovesRow(s, i)) && k in Written(s, i).rows
    ensures RowOk(Written(s, i), k)
  {
    var t := Written(s, i);
    if k == KeyOf(i) {
      WrittenIsWrote(s, i);
    } else {
      var r := s.rows[k];
      assert RowOk(s, k);
      LogGrows(s, i, r);
      if r.generation == i.generation && r.version == 1 {
        assert RowOk(s, KeyOf(i));
        WroteValid(s, r);
        SameWrite(s, r, s.rows[KeyOf(i)]);
      }
    }
  }

  lemma WriteKeepsProc(s: Sys, i: Intent, pid: nat, p: Proc)
    requires ProcOk(s, pid, p)
    requires p.PrepareSwap? ==> p.intent.generation != i.generation
    ensures ProcOk(Written(s, i), pid, p)
  {
    if p.ApproveSwap? {
      var a :| Wrote(s.log, a) && Approves(a, p.intent);
      LogGrows(s, i, a);
    }
  }

  lemma WriteKeepsSuccess(s: Sys, i: Intent, x: Success)
    requires SuccessOk(s, x)
    ensures SuccessOk(Written(s, i), x)
  {
    LogGrows(s, i, x.intent);
  }

  // Process pid, which holds the intent, writes it and stops.
  lemma WriteKeeps(s: Sys, i: Intent, pid: nat)
    requires Inv(s) && pid in s.procs
    requires (NewGeneration(s, i) && s.procs[pid] == PrepareSwap(i)) || ApprovesRow(s, i)
    ensures Inv(Stop(Written(s, i), pid)) && Wrote(Written(s, i).log, i)
  {
    var t := Stop(Written(s, i), pid);
    WriteKeepsWrites(s, i);
    WrittenIsWrote(s, i);
    forall k | 0 <= k < |t.log.writes|
      ensures WriteOk(t, k)
    {
      assert WriteOk(Written(s, i), k);
    }
    forall k | k in t.rows
      ensures RowOk(t, k)
    {
      WriteKeepsRows(s, i, k);
    }
    forall q | q in t.procs
      ensures ProcOk(t, q, t.procs[q])
    {
      assert ProcOk(s, q, s.procs[q]);
      OwnGeneration(s, i, pid, q);
      WriteKeepsProc(s, i, q, s.procs[q]);
    }
    forall n | 0 <= n < |t.log.successes|
      ensures SuccessOk(t, t.log.successes[n])
    {
      WriteKeepsSuccess(s, i, s.log.successes[n]);
    }
  }

  // No other process is about to write the generation that pid writes.
  lemma OwnGeneration(s: Sys, i: Intent, pid: nat, q: nat)
    requires Inv(s) && pid in s.procs && q in s.procs && q != pid
    requires (NewGeneration(s, i) && s.procs[pid] == PrepareSwap(i)) || ApprovesRow(s, i)
    ensures s.procs[q].PrepareSwap? ==> s.procs[q].intent.generation != i.generation
  {
    assert ProcOk(s, pid, s.procs[pid]) && ProcOk(s, q, s.procs[q]);
    if ApprovesRow(s, i) { assert RowOk(s, KeyOf(i)); }
  }

  // ----- Steps -----

  // Nothing was written: process pid moved to where it may be, or ended; rows were at most removed.
  ghost predicate Quiet(s: Sys, t: Sys, pid: nat) {
    && t.log.writes == s.log.writes && s.next <= t.next
    && (forall k :: k in t.rows ==> k in s.rows && t.rows[k] == s.rows[k])
    && (forall q :: q in t.procs && q != pid ==> q in s.procs && t.procs[q] == s.procs[q])
    && (forall g :: g in s.log.drawn ==> g in t.log.drawn && t.log.drawn[g] == s.log.drawn[g])
    && (forall g :: g in t.log.drawn ==> g < t.next)
    && s.log.successes <= t.log.successes
    && (forall n :: |s.log.successes| <= n < |t.log.successes| ==> SuccessOk(s, t.log.successes[n]))
    && (pid in t.procs ==> ProcOk(t, pid, t.procs[pid]))
  }

  lemma QuietKeeps(s: Sys, t: Sys, pid: nat)
    requires Inv(s) && Quiet(s, t, pid)
    ensures Inv(t)
  {
    forall k | 0 <= k < |t.log.writes|
      ensures WriteOk(t, k)
    {
      assert WriteOk(s, k);
    }
    forall k | k in t.rows
      ensures RowOk(t, k)
    {
      assert RowOk(s, k);
    }
    forall q | q in t.procs
      ensures ProcOk(t, q, t.procs[q])
    {
      if q != pid {
        assert ProcOk(s, q, s.procs[q]);
        if s.procs[q].ApproveSwap? {
          var a :| Wrote(s.log, a) && Approves(a, s.procs[q].intent);
          assert Wrote(t.log, a);
        }
      }
    }
    forall n | 0 <= n < |t.log.successes|
      ensures SuccessOk(t, t.log.successes[n])
    {
      assert SuccessOk(s, t.log.successes[n]);
    }
  }

  lemma LoadIsWrote(s: Sys, uid: string, id: IntentId)
    requires Inv(s) && Load(s, uid, id).Some?
    ensures
      var i := Load(s, uid, id).value;
      Wrote(s.log, i) && i.uid == uid && i.id == id && ValidIntent(i) && (i.version == 1 ==> Fresh(i))
  {
    assert RowOk(s, Key(uid, id));
    WroteValid(s, Load(s, uid, id).value);
  }

  lemma PrepareReadKeeps(s: Sys, pid: nat, uid: string, request: string, action: Action, source: Source)
    requires Inv(s) && uid != "" && !action.deploy
    ensures Inv(PrepareLoadStep(s, pid, uid, request, action, source))
    ensures Inv(PrepareReloadStep(s, pid, uid, request, action, source))
  {
    hide Inv, Load;
    var id := IntentId(uid, request);
    StopKeeps(s, pid);
    if Load(s, uid, id).Some? {
      LoadIsWrote(s, uid, id);
      if Load(s, uid, id).value.action == action && Load(s, uid, id).value.source == source {
        SucceedKeeps(s, pid, Preparation(uid, request, action, source, Load(s, uid, id).value));
      }
    } else {
      DrawingKeeps(s, pid, uid, request, action, source);
    }
  }

  lemma DrawingKeeps(s: Sys, pid: nat, uid: string, request: string, action: Action, source: Source)
    requires Inv(s) && uid != "" && !action.deploy
    ensures Inv(To(s, pid, PrepareDraw(uid, request, action, source)))
  {
    QuietKeeps(s, To(s, pid, PrepareDraw(uid, request, action, source)), pid);
  }

  lemma DrawKeeps(s: Sys, pid: nat, p: Proc, ch: Choice)
    requires Inv(s) && pid in s.procs && p == s.procs[pid] && p.PrepareDraw?
    ensures Inv(PrepareDrawStep(s, pid, p.uid, p.request, p.action, p.source, ch))
  {
    var t := PrepareDrawStep(s, pid, p.uid, p.request, p.action, p.source, ch);
    assert ProcOk(s, pid, p);
    if ch.inCatalog {
      forall j | 0 <= j < |s.log.writes|
        ensures s.log.writes[j].generation != s.next
      {
        assert WriteOk(s, j);
      }
    }
    QuietKeeps(s, t, pid);
  }

  lemma SucceedKeeps(s: Sys, pid: nat, x: Success)
    requires Inv(s) && SuccessOk(s, x)
    ensures Inv(Succeed(s, pid, x))
  {
    QuietKeeps(s, Succeed(s, pid, x), pid);
  }

  lemma StopKeeps(s: Sys, pid: nat)
    requires Inv(s)
    ensures Inv(Stop(s, pid))
  {
    QuietKeeps(s, Stop(s, pid), pid);
  }

  lemma PrepareSwapKeeps(s: Sys, pid: nat, i: Intent, ch: Choice)
    requires Inv(s) && pid in s.procs && s.procs[pid] == PrepareSwap(i)
    ensures Inv(PrepareSwapStep(s, pid, i, ch))
  {
    hide Inv, Quiet, NewGeneration;
    var x := Preparation(i.uid, i.id.request, i.action, i.source, i);
    FreshSwap(s, pid, i);
    if !ch.broken && Swap(s.rows, i, 0, ch.owner).0 == Approvals.Written {
      WriteKeeps(s, i, pid);
      SucceedKeeps(Stop(Written(s, i), pid), pid, x);
      StopTwice(Written(s, i), pid);
    } else {
      StopKeeps(s, pid);
      ReloadKeeps(s, pid, i);
    }
  }

  lemma StopTwice(s: Sys, pid: nat)
    ensures Stop(Stop(s, pid), pid) == Stop(s, pid)
  {
  }

  lemma FreshSwap(s: Sys, pid: nat, i: Intent)
    requires Inv(s) && pid in s.procs && s.procs[pid] == PrepareSwap(i)
    ensures NewGeneration(s, i) && i.uid != "" && !i.action.deploy && i.id == IntentId(i.uid, i.id.request)
  {
    assert ProcOk(s, pid, s.procs[pid]);
  }

  lemma ReloadKeeps(s: Sys, pid: nat, i: Intent)
    requires Inv(s) && i.uid != "" && !i.action.deploy
    ensures Inv(To(s, pid, PrepareReload(i.uid, i.id.request, i.action, i.source)))
  {
    QuietKeeps(s, To(s, pid, PrepareReload(i.uid, i.id.request, i.action, i.source)), pid);
  }

  lemma ApproveReadKeeps(s: Sys, pid: nat, p: Proc)
    requires Inv(s) && pid in s.procs && p == s.procs[pid] && p.ApproveLoad?
    ensures Inv(ApproveLoadStep(s, pid, p))
  {
    hide Inv, Load;
    StopKeeps(s, pid);
    if Load(s, p.uid, p.id).Some? {
      LoadIsWrote(s, p.uid, p.id);
      var i := Load(s, p.uid, p.id).value;
      if i.hash != p.hash {
      } else if i.receipt.Some? {
        if i.receipt.value.request == p.request && i.receipt.value.version == p.version {
          SucceedKeeps(s, pid, Approval(p.version, p.hash, p.request, i));
        }
      } else if i.status == Prepared && s.clock < i.expires {
        ReviewKeeps(s, pid, i, p.request);
      }
    }
  }

  // A prepared row in time becomes the approval that is about to be written.
  lemma ReviewKeeps(s: Sys, pid: nat, i: Intent, request: string)
    requires Inv(s) && Wrote(s.log, i) && Fresh(i) && i.receipt.None? && s.clock < i.expires
    ensures Inv(To(s, pid, ApproveSwap(Approved(i, 1, request, s.clock), 1, request)))
  {
    assert Approves(i, Approved(i, 1, request, s.clock));
    QuietKeeps(s, To(s, pid, ApproveSwap(Approved(i, 1, request, s.clock), 1, request)), pid);
  }

  lemma ApproveReloadKeeps(s: Sys, pid: nat, uid: string, id: IntentId, version: nat, hash: ActionHash, request: string)
    requires Inv(s)
    ensures Inv(ApproveReloadStep(s, pid, uid, id, version, hash, request))
  {
    hide WritesOk, RowOk, ProcOk;
    if Load(s, uid, id).Some? { LoadIsWrote(s, uid, id); }
    QuietKeeps(s, ApproveReloadStep(s, pid, uid, id, version, hash, request), pid);
  }

  // A swap that succeeds at version 1 replaces the very row that was reviewed.
  lemma SwapHitsReviewedRow(s: Sys, pid: nat, i: Intent, version: nat, request: string)
    requires Inv(s) && pid in s.procs && s.procs[pid] == ApproveSwap(i, version, request) && Swappable(s.rows, i, version)
    ensures ApprovesRow(s, i) && version == 1
  {
    assert ProcOk(s, pid, s.procs[pid]);
    var a :| Wrote(s.log, a) && Approves(a, i);
    var k := KeyOf(i);
    assert RowOk(s, k);
    WroteValid(s, s.rows[k]);
    WroteValid(s, a);
    SameWrite(s, a, s.rows[k]);
  }

  lemma ReviewedUid(s: Sys, pid: nat, i: Intent, version: nat, request: string)
    requires Inv(s) && pid in s.procs && s.procs[pid] == ApproveSwap(i, version, request)
    ensures version == 1 && i.receipt.Some? && i.receipt.value.request == request && i.version == 2
    ensures i.receipt.value.version == 1
  {
    assert ProcOk(s, pid, s.procs[pid]);
  }

  lemma UnapprovedKeeps(s: Sys, pid: nat, i: Intent, version: nat, request: string, ch: Choice)
    requires Inv(s) && pid in s.procs && (ch.broken || Swap(s.rows, i, version, ch.owner).0 != Approvals.Written)
    ensures Inv(ApproveSwapStep(s, pid, i, version, request, ch))
  {
    hide WritesOk, RowOk, SuccessOk, ValidIntent;
    QuietKeeps(s, ApproveSwapStep(s, pid, i, version, request, ch), pid);
  }

  lemma ApproveSwapKeeps(s: Sys, pid: nat, i: Intent, version: nat, request: string, ch: Choice)
    requires Inv(s) && pid in s.procs && s.procs[pid] == ApproveSwap(i, version, request)
    ensures Inv(ApproveSwapStep(s, pid, i, version, request, ch))
  {
    hide Inv;
    ReviewedUid(s, pid, i, version, request);
    if !ch.broken && Swap(s.rows, i, version, ch.owner).0 == Approvals.Written {
      SwapHitsReviewedRow(s, pid, i, version, request);
      WriteKeeps(s, i, pid);
      var t := Stop(Written(s, i), pid);
      if !ch.lost {
        SucceedKeeps(t, pid, Approval(version, i.hash, request, i));
        assert ApproveSwapStep(s, pid, i, version, request, ch) == Succeed(t, pid, Approval(version, i.hash, request, i));
      }
    } else {
      UnapprovedKeeps(s, pid, i, version, request, ch);
    }
  }

  lemma StepKeeps(s: Sys, a: Step)
    requires Inv(s)
    ensures Inv(Handle(s, a))
  {
    hide Inv, PrepareLoadStep, PrepareReloadStep, ApproveLoadStep, PrepareDrawStep, PrepareSwapStep, ApproveSwapStep, ApproveReloadStep, Existing;
    match a
    case Tick(ms) => OutsideKeeps(s, a);
    case Remove(key) => OutsideKeeps(s, a);
    case Start(pid, entry) => OutsideKeeps(s, a);
    case Advance(pid, ch) =>
      if pid in s.procs {
        match s.procs[pid]
        case PrepareLoad(uid, request, action, source) =>
          ProcAt(s, pid);
          PrepareReadKeeps(s, pid, uid, request, action, source);
        case PrepareReload(uid, request, action, source) =>
          ProcAt(s, pid);
          PrepareReadKeeps(s, pid, uid, request, action, source);
        case PrepareDraw(_, _, _, _) => DrawKeeps(s, pid, s.procs[pid], ch);
        case PrepareSwap(i) => PrepareSwapKeeps(s, pid, i, ch);
        case ApproveLoad(_, _, _, _, _, _) => ApproveReadKeeps(s, pid, s.procs[pid]);
        case ApproveSwap(i, version, request) => ApproveSwapKeeps(s, pid, i, version, request, ch);
        case ApproveReload(uid, id, version, hash, request) => ApproveReloadKeeps(s, pid, uid, id, version, hash, request);
      }
  }

  lemma ProcAt(s: Sys, pid: nat)
    requires Inv(s) && pid in s.procs
    ensures ProcOk(s, pid, s.procs[pid])
  {
  }

  lemma OutsideKeeps(s: Sys, a: Step)
    requires Inv(s) && !a.Advance?
    ensures Inv(Handle(s, a))
  {
    QuietKeeps(s, Handle(s, a), if a.Start? && a.pid !in s.procs then a.pid else 0) by {
      if !(a.Start? && a.pid !in s.procs) && 0 in s.procs { assert ProcOk(s, 0, s.procs[0]); RemovalKeepsProc(s, Handle(s, a), 0); }
    }
  }

  lemma RemovalKeepsProc(s: Sys, t: Sys, pid: nat)
    requires pid in s.procs && ProcOk(s, pid, s.procs[pid]) && t.log == s.log && t.procs == s.procs
    ensures ProcOk(t, pid, t.procs[pid])
  {
  }

  lemma {:induction false} Throughout(steps: seq<Step>)
    ensures Inv(Run(INIT, steps))
  {
    hide Inv, Handle;
    if steps == [] {
      InitOk();
    } else {
      Throughout(steps[..|steps| - 1]);
      StepKeeps(Run(INIT, steps[..|steps| - 1]), steps[|steps| - 1]);
    }
  }

  lemma InitOk()
    ensures Inv(INIT)
  {
  }

  // ----- Main results -----

  // In every run, with rows removed at any moment, each generation is written at most once
  // at version 1 and at most once at version 2; version 2 only after version 1, in review
  // time, with the same action, owner and hash.
  lemma OneShotPerGeneration(steps: seq<Step>, k: nat)
    requires k < |Run(INIT, steps).log.writes|
    ensures
      var writes := Run(INIT, steps).log.writes;
      var i := writes[k];
      && (i.version == 1 || i.version == 2)
      && (forall j :: 0 <= j < |writes| && j != k ==> writes[j].generation != i.generation || writes[j].version != i.version)
      && (i.version == 2 ==> exists j :: 0 <= j < k && Approves(writes[j], i))
  {
    Throughout(steps);
    var s := Run(INIT, steps);
    assert WriteOk(s, k);
    forall j | 0 <= j < |s.log.writes| && j != k
      ensures s.log.writes[j].generation != s.log.writes[k].generation || s.log.writes[j].version != s.log.writes[k].version
    {
    }
  }

  // Every Approve call that succeeds got the one approval of the generation whose hash the
  // owner reviewed: same action, same receipt as every other success for that generation,
  // and made for its own request, even if the row was removed and prepared again meanwhile.
  lemma ApprovalsAgree(steps: seq<Step>, m: nat, n: nat)
    requires
      var ok := Run(INIT, steps).log.successes;
      m < |ok| && n < |ok| && ok[m].Approval? && ok[n].Approval?
    ensures
      var s := Run(INIT, steps);
      var x, y := s.log.successes[m], s.log.successes[n];
      && Wrote(s.log, x.intent) && x.intent.version == 2
      && x.hash == ActionHash(x.intent.uid, x.intent.source, x.intent.generation, x.intent.action)
      && x.intent.receipt.Some? && x.intent.receipt.value.request == x.request
      && (x.hash == y.hash ==> x.intent == y.intent && x.request == y.request)
  {
    Throughout(steps);
    var s := Run(INIT, steps);
    var x, y := s.log.successes[m], s.log.successes[n];
    assert SuccessOk(s, x) && SuccessOk(s, y);
    WroteValid(s, x.intent);
    WroteValid(s, y.intent);
    if x.hash == y.hash { SameWrite(s, x.intent, y.intent); }
  }

  // Every Prepare call that succeeds got an intent for exactly what it asked, under its own id.
  lemma PreparationsAreAsAsked(steps: seq<Step>, n: nat)
    requires n < |Run(INIT, steps).log.successes| && Run(INIT, steps).log.successes[n].Preparation?
    ensures
      var s := Run(INIT, steps);
      var x := s.log.successes[n];
      && Wrote(s.log, x.intent) && x.intent.id == IntentId(x.uid, x.request)
      && x.intent.action == x.action && x.intent.source == x.source && ValidIntent(x.intent)
  {
    Throughout(steps);
    var s := Run(INIT, steps);
    assert SuccessOk(s, s.log.successes[n]);
    WroteValid(s, s.log.successes[n].intent);
  }

  // A swap lands exactly when its generation still stands unapproved: a row removed and
  // prepared again since the review can never be the one approved.
  lemma ApprovalNeedsTheReviewedRow(steps: seq<Step>, pid: nat, ch: Choice)
    requires pid in Run(INIT, steps).procs && Run(INIT, steps).procs[pid].ApproveSwap?
    requires ch.owner && !ch.broken
    ensures
      var s := Run(INIT, steps);
      var i := s.procs[pid].intent;
      |Handle(s, Advance(pid, ch)).log.writes| > |s.log.writes|
      <==> KeyOf(i) in s.rows && s.rows[KeyOf(i)].generation == i.generation && s.rows[KeyOf(i)].version == 1
  {
    Throughout(steps);
    var s := Run(INIT, steps);
    assert ProcOk(s, pid, s.procs[pid]);
    var i := s.procs[pid].intent;
    var a :| Wrote(s.log, a) && Approves(a, i);
    WroteValid(s, a);
    if KeyOf(i) in s.rows {
      assert RowOk(s, KeyOf(i));
      WroteValid(s, s.rows[KeyOf(i)]);
      if s.rows[KeyOf(i)].generation == i.generation && s.rows[KeyOf(i)].version == 1 { SameWrite(s, a, s.rows[KeyOf(i)]); }
    }
  }

  // A retry after the answer was lost gets the stored receipt, even past the review's expiry.
  lemma RetryReturnsReceipt(s: Sys, pid: nat, ch: Choice)
    requires Inv(s) && pid in s.procs && s.procs[pid].ApproveLoad?
    requires
      var p := s.procs[pid];
      && p.uid != "" && Key(p.uid, p.id) in s.rows
      && var i := s.rows[Key(p.uid, p.id)];
         && i.retain > s.clock / 1000 && i.hash == p.hash && i.receipt.Some?
         && i.receipt.value.request == p.request && i.receipt.value.version == p.version
    ensures
      var p := s.procs[pid];
      Handle(s, Advance(pid, ch)) == Succeed(s, pid, Approval(p.version, p.hash, p.request, s.rows[Key(p.uid, p.id)]))
  {
    hide WritesOk, ProcOk;
    var k := Key(s.procs[pid].uid, s.procs[pid].id);
    assert RowOk(s, k);
    WroteValid(s, s.rows[k]);
  }

  // Whoever repeats an Approve call that succeeded gets that very success, receipt and all, for
  // as long as the approved row is kept, even past the review's expiry.
  lemma RetriesAgree(steps: seq<Step>, n: nat, pid: nat, ch: Choice)
    requires var s := Run(INIT, steps); n < |s.log.successes| && s.log.successes[n].Approval? && pid in s.procs
    requires
      var s := Run(INIT, steps);
      var x, p := s.log.successes[n], s.procs[pid];
      && p.ApproveLoad? && p.hash == x.hash && p.request == x.request && p.version == x.version
      && p.uid == x.intent.uid && p.id == x.intent.id && p.uid != ""
      && Key(p.uid, p.id) in s.rows
      && var i := s.rows[Key(p.uid, p.id)]; i.generation == x.intent.generation && i.receipt.Some? && i.retain > s.clock / 1000
    ensures
      var s := Run(INIT, steps);
      Handle(s, Advance(pid, ch)) == Succeed(s, pid, s.log.successes[n])
  {
    hide Run, Handle, WritesOk, ProcOk;
    Throughout(steps);
    var s := Run(INIT, steps);
    var x, k := s.log.successes[n], Key(s.procs[pid].uid, s.procs[pid].id);
    assert SuccessOk(s, x) && RowOk(s, k);
    WroteValid(s, x.intent);
    WroteValid(s, s.rows[k]);
    SameWrite(s, x.intent, s.rows[k]);
    RetryReturnsReceipt(s, pid, ch);
  }
}
