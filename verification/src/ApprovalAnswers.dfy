// What a Prepare or an Approve call that nothing disturbs comes to, from every reachable state:
// when it succeeds, with which intent, and what it leaves in the store.
module ApprovalAnswers {
  import opened Prelude
  import opened Approvals
  import opened ApprovalSafety

  // Process pid takes n steps, the world answering ch each time.
  function Alone(s: Sys, pid: nat, ch: Choice, n: nat): Sys
    decreases n
  {
    if n == 0 then s else Alone(Handle(s, Advance(pid, ch)), pid, ch, n - 1)
  }

  lemma EndedStays(s: Sys, pid: nat, ch: Choice, n: nat)
    requires pid !in s.procs
    ensures Alone(s, pid, ch, n) == s
    decreases n
  {
    if n > 0 { EndedStays(s, pid, ch, n - 1); }
  }

  // The row for this request, if it is still kept.
  ghost predicate Kept(s: Sys, uid: string, id: IntentId) { Key(uid, id) in s.rows && s.rows[Key(uid, id)].retain > s.clock / 1000 }

  lemma KeptIsLoaded(s: Sys, uid: string, id: IntentId)
    requires Inv(s) && uid != ""
    ensures Load(s, uid, id) == if Kept(s, uid, id) then Some(s.rows[Key(uid, id)]) else None
    ensures Kept(s, uid, id) ==> ValidIntent(s.rows[Key(uid, id)]) && KeyOf(s.rows[Key(uid, id)]) == Key(uid, id)
  {
    hide ProcOk, SuccessOk;
    if Kept(s, uid, id) {
      assert RowOk(s, Key(uid, id));
      WroteValid(s, s.rows[Key(uid, id)]);
    }
  }

  // The calls of the store from s to t: rows written in order, and what was returned.
  ghost predicate Became(s: Sys, t: Sys, writes: seq<Intent>, successes: seq<Success>) {
    && t.log.writes == s.log.writes + writes && t.log.successes == s.log.successes + successes && t.clock == s.clock
    && t.rows == if writes == [] then s.rows else s.rows[KeyOf(writes[0]) := writes[0]]
  }

  // ----- Prepare -----

  // A new intent for this request: to be reviewed within a quarter of an hour, kept for thirty
  // days, under a generation drawn for it.
  ghost predicate Drafted(s: Sys, i: Intent, uid: string, request: string, action: Action, source: Source) {
    && i.uid == uid && i.id == IntentId(uid, request) && i.action == action && i.source == source
    && i.version == 1 && i.status == Prepared && i.receipt.None? && i.generation == s.next
    && i.hash == ActionHash(uid, source, s.next, action) && i.expires == s.clock + 900000 && i.retain == s.clock / 1000 + 2592000
  }

  ghost predicate PrepareComesTo(s: Sys, t: Sys, p: Proc, ch: Choice)
    requires p.PrepareLoad?
  {
    var k := Key(p.uid, IntentId(p.uid, p.request));
    if Kept(s, p.uid, k.id) then
      // The same request again: what was prepared, if it was the same action.
      Became(s, t, [], if s.rows[k].action == p.action && s.rows[k].source == p.source
                       then [Preparation(p.uid, p.request, p.action, p.source, s.rows[k])] else [])
    else if ch.inCatalog && ch.owner && !ch.broken && k !in s.rows then
      exists i :: Drafted(s, i, p.uid, p.request, p.action, p.source)
               && Became(s, t, [i], if ch.lost then [] else [Preparation(p.uid, p.request, p.action, p.source, i)])
    else Became(s, t, [], [])
  }

  // One step at a time: the row is read, a generation drawn, the row written, or read again.
  lemma PrepareReads(s: Sys, pid: nat, p: Proc, ch: Choice)
    requires Inv(s) && pid !in s.procs && Begins(p) && p.PrepareLoad?
    ensures
      var t := Handle(To(s, pid, p), Advance(pid, ch));
      if Kept(s, p.uid, IntentId(p.uid, p.request)) then pid !in t.procs && PrepareComesTo(s, t, p, ch)
      else t == To(s, pid, PrepareDraw(p.uid, p.request, p.action, p.source))
  {
    hide Inv, Load;
    KeptIsLoaded(s, p.uid, IntentId(p.uid, p.request));
    LoadSame(s, To(s, pid, p), p.uid, IntentId(p.uid, p.request));
  }

  lemma LoadSame(s: Sys, t: Sys, uid: string, id: IntentId)
    requires t.rows == s.rows && t.clock == s.clock
    ensures Load(t, uid, id) == Load(s, uid, id)
  {
  }

  lemma PrepareDraws(s: Sys, pid: nat, p: Proc, ch: Choice) returns (i: Intent)
    requires pid !in s.procs && Begins(p) && p.PrepareLoad?
    ensures Drafted(s, i, p.uid, p.request, p.action, p.source) && ValidIntent(i)
    ensures
      var t := Handle(To(s, pid, PrepareDraw(p.uid, p.request, p.action, p.source)), Advance(pid, ch));
      if !ch.inCatalog then pid !in t.procs && Became(s, t, [], [])
      else t == To(s, pid, PrepareSwap(i)).(next := t.next, log := s.log.(drawn := t.log.drawn))
  {
    i := Intent(s.next, IntentId(p.uid, p.request), p.uid, 1, Prepared, ActionHash(p.uid, p.source, s.next, p.action), p.action, p.source,
                s.clock + INTENT_TTL, s.clock / 1000 + RETENTION, None);
  }

  lemma PrepareWrites(s: Sys, u: Sys, pid: nat, i: Intent, ch: Choice)
    requires u == To(s, pid, PrepareSwap(i)).(next := u.next, log := s.log.(drawn := u.log.drawn)) && pid !in s.procs
    requires ValidIntent(i) && i.version == 1
    ensures
      var t := Handle(u, Advance(pid, ch));
      if ch.broken || !ch.owner then pid !in t.procs && Became(s, t, [], [])
      else if KeyOf(i) in s.rows then
        t == To(s, pid, PrepareReload(i.uid, i.id.request, i.action, i.source)).(next := u.next, log := s.log.(drawn := u.log.drawn))
      else
        pid !in t.procs && Became(s, t, [i], if ch.lost then [] else [Preparation(i.uid, i.id.request, i.action, i.source, i)])
  {
    hide ValidIntent;
  }

  lemma PrepareRereads(s: Sys, u: Sys, pid: nat, p: Proc, ch: Choice)
    requires Inv(s) && pid !in s.procs && p.PrepareLoad? && p.uid != "" && !Kept(s, p.uid, IntentId(p.uid, p.request))
    requires u == To(s, pid, PrepareReload(p.uid, p.request, p.action, p.source)).(next := u.next, log := s.log.(drawn := u.log.drawn))
    ensures var t := Handle(u, Advance(pid, ch)); pid !in t.procs && Became(s, t, [], [])
  {
    hide Inv, Load;
    KeptIsLoaded(s, p.uid, IntentId(p.uid, p.request));
    LoadSame(s, u, p.uid, IntentId(p.uid, p.request));
  }

  lemma StartsAt(s: Sys, pid: nat, p: Proc)
    requires pid !in s.procs && Begins(p)
    ensures Handle(s, Start(pid, p)) == To(s, pid, p)
  {
  }

  lemma NextAlone(s: Sys, pid: nat, ch: Choice, n: nat)
    ensures Alone(s, pid, ch, n + 1) == Alone(Handle(s, Advance(pid, ch)), pid, ch, n) && Alone(s, pid, ch, 0) == s
    ensures pid !in s.procs ==> Alone(s, pid, ch, n) == s
  {
    hide Handle;
    if pid !in s.procs { EndedStays(s, pid, ch, n); }
  }

  lemma PrepareUndisturbed(s: Sys, pid: nat, p: Proc, ch: Choice)
    requires Inv(s) && pid !in s.procs && Begins(p) && p.PrepareLoad?
    ensures var t := Alone(Handle(s, Start(pid, p)), pid, ch, 4); pid !in t.procs && PrepareComesTo(s, t, p, ch)
  {
    hide Inv, Handle, Alone, ValidIntent;
    StartsAt(s, pid, p);
    var a := To(s, pid, p);
    var b := Handle(a, Advance(pid, ch));
    PrepareReads(s, pid, p, ch);
    NextAlone(a, pid, ch, 3);
    NextAlone(b, pid, ch, 3);
    if pid in b.procs {
      var i := PrepareDraws(s, pid, p, ch);
      NextAlone(b, pid, ch, 2);
      var c := Handle(b, Advance(pid, ch));
      NextAlone(c, pid, ch, 2);
      if ch.inCatalog {
        PrepareWrites(s, c, pid, i, ch);
        NextAlone(c, pid, ch, 1);
        var d := Handle(c, Advance(pid, ch));
        NextAlone(d, pid, ch, 1);
        if pid in d.procs {
          PrepareRereads(s, d, pid, p, ch);
          NextAlone(d, pid, ch, 0);
          NextAlone(Handle(d, Advance(pid, ch)), pid, ch, 0);
        }
      }
    }
  }

  // ----- Approve -----

  // The row i is the one reviewed, not approved yet, and still in time.
  ghost predicate Approvable(s: Sys, i: Intent, p: Proc)
    requires p.ApproveLoad?
  {
    i.receipt.None? && i.hash == p.hash && i.version == p.version && i.source == p.source && s.clock < i.expires
  }

  // j is the row i, approved on request p.
  ghost predicate Receipted(s: Sys, i: Intent, j: Intent, p: Proc)
    requires p.ApproveLoad?
  {
    && j.receipt.Some? && j == i.(version := 2, status := ApprovedBlocked, receipt := j.receipt)
    && var r := j.receipt.value;
       r.request == p.request && r.version == p.version == 1 && r.approvedAt == s.clock && r.approvedBy == p.uid && r.hash == p.hash
       && r.id == ReceiptId(p.uid, p.id, p.request)
  }

  // A row that was approved answers the same request again, and no other; a row that was not is
  // approved if it is the very one that was reviewed, in time, by an owner.
  ghost predicate ApproveComesTo(s: Sys, t: Sys, p: Proc, ch: Choice)
    requires p.ApproveLoad?
  {
    var k := Key(p.uid, p.id);
    if !Kept(s, p.uid, p.id) || s.rows[k].hash != p.hash then Became(s, t, [], [])
    else if s.rows[k].receipt.Some? then
      var r := s.rows[k].receipt.value;
      Became(s, t, [], if r.request == p.request && r.version == p.version then [Approval(p.version, p.hash, p.request, s.rows[k])] else [])
    else if Approvable(s, s.rows[k], p) && ch.owner && !ch.broken then
      exists j :: Receipted(s, s.rows[k], j, p)
               && Became(s, t, [j], if ch.lost then [] else [Approval(p.version, p.hash, p.request, j)])
    else Became(s, t, [], [])
  }

  lemma ApproveReads(s: Sys, pid: nat, p: Proc, ch: Choice)
    requires Inv(s) && pid !in s.procs && Begins(p) && p.ApproveLoad?
    ensures
      var t, k := Handle(To(s, pid, p), Advance(pid, ch)), Key(p.uid, p.id);
      if Kept(s, p.uid, p.id) && Approvable(s, s.rows[k], p)
      then
        var j := Approved(s.rows[k], p.version, p.request, s.clock);
        Receipted(s, s.rows[k], j, p) && ValidIntent(j) && KeyOf(j) == k && t == To(s, pid, ApproveSwap(j, p.version, p.request))
      else pid !in t.procs && ApproveComesTo(s, t, p, ch)
  {
    hide Inv, Load;
    KeptIsLoaded(s, p.uid, p.id);
    LoadSame(s, To(s, pid, p), p.uid, p.id);
  }

  lemma ApproveWrites(s: Sys, pid: nat, j: Intent, p: Proc, ch: Choice)
    requires pid !in s.procs && p.ApproveLoad? && ValidIntent(j) && KeyOf(j) == Key(p.uid, p.id)
    requires Kept(s, p.uid, p.id) && Approvable(s, s.rows[KeyOf(j)], p) && Receipted(s, s.rows[KeyOf(j)], j, p)
    ensures
      var t := Handle(To(s, pid, ApproveSwap(j, p.version, p.request)), Advance(pid, ch));
      pid !in t.procs && ApproveComesTo(s, t, p, ch)
  {
    hide ValidIntent;
  }

  lemma ApproveUndisturbed(s: Sys, pid: nat, p: Proc, ch: Choice)
    requires Inv(s) && pid !in s.procs && Begins(p) && p.ApproveLoad?
    ensures var t := Alone(Handle(s, Start(pid, p)), pid, ch, 2); pid !in t.procs && ApproveComesTo(s, t, p, ch)
  {
    hide Inv, Handle, Alone, ValidIntent, ApproveComesTo, Receipted;
    StartsAt(s, pid, p);
    var a := To(s, pid, p);
    var b := Handle(a, Advance(pid, ch));
    ApproveReads(s, pid, p, ch);
    NextAlone(a, pid, ch, 1);
    NextAlone(b, pid, ch, 1);
    if pid in b.procs {
      ApproveWrites(s, pid, Approved(s.rows[Key(p.uid, p.id)], p.version, p.request, s.clock), p, ch);
      NextAlone(b, pid, ch, 0);
      NextAlone(Handle(b, Advance(pid, ch)), pid, ch, 0);
    }
  }
}
