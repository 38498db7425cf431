// internal/codeapproval/service.go and dynamo.go: owner-reviewed intents over one
// conditional write, with any number of Prepare and Approve calls in flight.
module Approvals {
  import opened Prelude

  const INTENT_TTL := 900000            // milliseconds
  const RETENTION := 2592000            // seconds

  datatype Source = Ghost | PreviewFixture

  // Identifiers and hashes are digests of these fields; digests are taken as injective.
  datatype IntentId = IntentId(uid: string, request: string)
  datatype ReceiptId = ReceiptId(uid: string, intent: IntentId, request: string)
  datatype ActionHash = ActionHash(uid: string, source: Source, generation: nat, action: Action)

  datatype Action = Action(
    repo: string, node: string, instructions: string, agent: string, model: string, effort: string,
    preprocess: bool, deploy: bool)

  datatype Status = Prepared | ApprovedBlocked

  datatype Receipt = Receipt(id: ReceiptId, request: string, version: nat, approvedAt: int, approvedBy: string, hash: ActionHash)

  datatype Intent = Intent(
    generation: nat, id: IntentId, uid: string, version: nat, status: Status, hash: ActionHash, action: Action,
    source: Source, expires: int, retain: int, receipt: Option<Receipt>)

  datatype Key = Key(uid: string, id: IntentId)

  function KeyOf(i: Intent): Key { Key(i.uid, i.id) }

  predicate ValidIntent(i: Intent) {
    && i.uid != "" && i.version >= 1 && !i.action.deploy
    && i.hash == ActionHash(i.uid, i.source, i.generation, i.action)
    && (i.status == Prepared ==> i.version == 1 && i.receipt.None?)
    && (i.status == ApprovedBlocked ==>
          i.version == 2 && i.receipt.Some? && i.receipt.value.hash == i.hash && i.receipt.value.approvedBy == i.uid)
  }

  // ----- CompareAndSwap, as both stores decide it -----

  datatype Outcome = Written | Corrupt | Conflict | Forbidden | Broken

  predicate Swappable(rows: map<Key, Intent>, i: Intent, expected: nat) {
    var k := KeyOf(i);
    if expected == 0 then k !in rows
    else k in rows && rows[k].version == expected && rows[k].hash == i.hash
  }

  // owner: the account is still an active owner, checked in the same transaction.
  function Swap(rows: map<Key, Intent>, i: Intent, expected: nat, owner: bool): (Outcome, map<Key, Intent>) {
    if !ValidIntent(i) then (Corrupt, rows)
    else if i.version != expected + 1 then (Conflict, rows)
    else if !owner then (Forbidden, rows)
    else if !Swappable(rows, i, expected) then (Conflict, rows)
    else (Written, rows[KeyOf(i) := i])
  }

  // ----- The calls, one program counter each -----

  datatype Proc =
    | PrepareLoad(uid: string, request: string, action: Action, source: Source)
    | PrepareDraw(uid: string, request: string, action: Action, source: Source)
    | PrepareSwap(intent: Intent)
    | PrepareReload(uid: string, request: string, action: Action, source: Source)
    | ApproveLoad(uid: string, id: IntentId, version: nat, hash: ActionHash, request: string, source: Source)
    | ApproveSwap(intent: Intent, version: nat, request: string)
    | ApproveReload(uid: string, id: IntentId, version: nat, hash: ActionHash, request: string)

  // inCatalog: repository and machine are in the fleet catalog. lost: the write lands but its
  // answer does not. broken: the store answers with some other error and writes nothing.
  datatype Choice = Choice(inCatalog: bool, owner: bool, lost: bool, broken: bool)

  datatype Step = Tick(ms: nat) | Start(pid: nat, entry: Proc) | Advance(pid: nat, ch: Choice) | Remove(key: Key)

  datatype Success = Approval(version: nat, hash: ActionHash, request: string, intent: Intent)
                   | Preparation(uid: string, request: string, action: Action, source: Source, intent: Intent)

  // What has happened: every row written, in order, every success returned to a caller, and
  // who drew each generation.
  datatype Log = Log(writes: seq<Intent>, successes: seq<Success>, drawn: map<nat, nat>)

  datatype Sys = Sys(clock: int, rows: map<Key, Intent>, procs: map<nat, Proc>, next: nat, log: Log)

  const INIT := Sys(0, map[], map[], 0, Log([], [], map[]))

  function To(s: Sys, pid: nat, p: Proc): Sys { s.(procs := s.procs[pid := p]) }

  function Stop(s: Sys, pid: nat): Sys { s.(procs := s.procs - {pid}) }

  function Succeed(s: Sys, pid: nat, x: Success): Sys {
    Stop(s, pid).(log := s.log.(successes := s.log.successes + [x]))
  }

  function Write(s: Sys, rows: map<Key, Intent>, i: Intent): Sys {
    s.(rows := rows, log := s.log.(writes := s.log.writes + [i]))
  }

  // load: the row, unless it is missing, not valid or past its retention.
  function Load(s: Sys, uid: string, id: IntentId): Option<Intent> {
    if uid != "" && Key(uid, id) in s.rows && s.rows[Key(uid, id)].uid == uid && s.rows[Key(uid, id)].id == id
       && ValidIntent(s.rows[Key(uid, id)]) && s.rows[Key(uid, id)].retain > s.clock / 1000
    then Some(s.rows[Key(uid, id)]) else None
  }

  function Approved(i: Intent, version: nat, request: string, now: int): Intent {
    i.(version := i.version + 1, status := ApprovedBlocked,
       receipt := Some(Receipt(ReceiptId(i.uid, i.id, request), request, version, now, i.uid, i.hash)))
  }

  predicate Begins(p: Proc) {
    match p
    case PrepareLoad(uid, _, action, _) => uid != "" && !action.deploy
    case ApproveLoad(uid, _, version, _, _, _) => uid != "" && version >= 1
    case _ => false
  }

  function Handle(s: Sys, a: Step): Sys {
    match a
    case Tick(ms) => s.(clock := s.clock + ms)
    case Start(pid, entry) => if pid !in s.procs && Begins(entry) then To(s, pid, entry) else s
    case Remove(key) => s.(rows := s.rows - {key})
    case Advance(pid, ch) =>
      if pid !in s.procs then s
      else
        match s.procs[pid]
        case PrepareLoad(uid, request, action, source) => PrepareLoadStep(s, pid, uid, request, action, source)
        case PrepareDraw(uid, request, action, source) => PrepareDrawStep(s, pid, uid, request, action, source, ch)
        case PrepareSwap(intent) => PrepareSwapStep(s, pid, intent, ch)
        case PrepareReload(uid, request, action, source) => PrepareReloadStep(s, pid, uid, request, action, source)
        case ApproveLoad(_, _, _, _, _, _) => ApproveLoadStep(s, pid, s.procs[pid])
        case ApproveSwap(intent, version, request) => ApproveSwapStep(s, pid, intent, version, request, ch)
        case ApproveReload(uid, id, version, hash, request) => ApproveReloadStep(s, pid, uid, id, version, hash, request)
  }

  function Run(s: Sys, steps: seq<Step>): Sys {
    if steps == [] then s else Handle(Run(s, steps[..|steps| - 1]), steps[|steps| - 1])
  }

  // ----- Prepare -----

  function Existing(s: Sys, pid: nat, old_: Intent, uid: string, request: string, action: Action, source: Source): Sys {
    if old_.action == action && old_.source == source then Succeed(s, pid, Preparation(uid, request, action, source, old_))
    else Stop(s, pid)
  }

  function PrepareLoadStep(s: Sys, pid: nat, uid: string, request: string, action: Action, source: Source): Sys {
    var old_ := Load(s, uid, IntentId(uid, request));
    if old_.Some? then Existing(s, pid, old_.value, uid, request, action, source)
    else To(s, pid, PrepareDraw(uid, request, action, source))
  }

  function PrepareDrawStep(s: Sys, pid: nat, uid: string, request: string, action: Action, source: Source, ch: Choice): Sys {
    if !ch.inCatalog then Stop(s, pid)
    else
      var g := s.next;
      var i := Intent(g, IntentId(uid, request), uid, 1, Prepared, ActionHash(uid, source, g, action), action, source,
                      s.clock + INTENT_TTL, s.clock / 1000 + RETENTION, None);
      To(s, pid, PrepareSwap(i)).(next := g + 1, log := s.log.(drawn := s.log.drawn[g := pid]))
  }

  function PrepareSwapStep(s: Sys, pid: nat, i: Intent, ch: Choice): Sys {
    var (outcome, rows) := if ch.broken then (Broken, s.rows) else Swap(s.rows, i, 0, ch.owner);
    match outcome
    case Written =>
      var t := Write(s, rows, i);
      if ch.lost then Stop(t, pid) else Succeed(t, pid, Preparation(i.uid, i.id.request, i.action, i.source, i))
    case Conflict => To(s, pid, PrepareReload(i.uid, i.id.request, i.action, i.source))
    case _ => Stop(s, pid)
  }

  function PrepareReloadStep(s: Sys, pid: nat, uid: string, request: string, action: Action, source: Source): Sys {
    var old_ := Load(s, uid, IntentId(uid, request));
    if old_.None? then Stop(s, pid) else Existing(s, pid, old_.value, uid, request, action, source)
  }

  // ----- Approve -----

  function ApproveLoadStep(s: Sys, pid: nat, p: Proc): Sys
    requires p.ApproveLoad?
  {
    var found := Load(s, p.uid, p.id);
    if found.None? || found.value.hash != p.hash then Stop(s, pid)
    else
      var i := found.value;
      if i.receipt.Some? then
        if i.receipt.value.request == p.request && i.receipt.value.version == p.version
        then Succeed(s, pid, Approval(p.version, p.hash, p.request, i)) else Stop(s, pid)
      else if i.version != p.version || i.status != Prepared || i.source != p.source || s.clock >= i.expires then Stop(s, pid)
      else To(s, pid, ApproveSwap(Approved(i, p.version, p.request, s.clock), p.version, p.request))
  }

  function ApproveSwapStep(s: Sys, pid: nat, i: Intent, version: nat, request: string, ch: Choice): Sys {
    var (outcome, rows) := if ch.broken then (Broken, s.rows) else Swap(s.rows, i, version, ch.owner);
    match outcome
    case Written =>
      var t := Write(s, rows, i);
      if ch.lost then Stop(t, pid) else Succeed(t, pid, Approval(version, i.hash, request, i))
    case Conflict => To(s, pid, ApproveReload(i.uid, i.id, version, i.hash, request))
    case _ => Stop(s, pid)
  }

  function ApproveReloadStep(s: Sys, pid: nat, uid: string, id: IntentId, version: nat, hash: ActionHash, request: string): Sys {
    var found := Load(s, uid, id);
    if found.Some? && found.value.hash == hash && found.value.receipt.Some? && found.value.receipt.value.request == request
       && found.value.receipt.value.version == version
    then Succeed(s, pid, Approval(version, hash, request, found.value))
    else Stop(s, pid)
  }
}
