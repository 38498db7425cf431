// internal/codeapproval/file.go: the single-process durable store. Memory is changed
// first and rolled back when the file cannot be replaced. Also service.go's catalog scan.
module FileStore {
  import opened Prelude
  import opened Approvals

  // What the operating system answers while the new file is prepared, written and renamed.
  datatype Disk = Disk(cancelled: bool, tooLarge: bool, persists: bool)

  datatype Answer = Stored | Refused(why: Outcome) | Closed | Cancelled | TooLarge | NotPersisted

  class Store {
    var records: map<Key, Intent>
    var file: map<Key, Intent>       // what a restart would read
    var closed: bool

    // Nothing is ever shown to a caller that a restart would not show again.
    ghost predicate Valid()
      reads this
    {
      records == file && forall k :: k in records ==> KeyOf(records[k]) == k
    }

    constructor (onDisk: map<Key, Intent>)
      requires forall k :: k in onDisk ==> KeyOf(onDisk[k]) == k
      ensures Valid() && records == onDisk && !closed
    {
      records, file, closed := onDisk, onDisk, false;
    }

    method Close()
      requires Valid()
      modifies this`closed
      ensures Valid() && closed
    {
      closed := true;
    }

    // A copy of the record, never the record itself.
    method Find(uid: string, id: IntentId) returns (found: Option<Intent>)
      requires Valid()
      ensures closed ==> found.None?
      ensures !closed ==> found == Get(records, Key(uid, id))
    {
      if closed || Key(uid, id) !in records { return None; }
      return Some(records[Key(uid, id)]);
    }

    // Stores exactly what Swap stores, in memory and on disk together, or changes neither.
    method CompareAndSwap(r: Intent, expected: nat, disk: Disk) returns (answer: Answer)
      requires Valid()
      modifies this`records, this`file
      ensures Valid()
      ensures answer == Stored <==>
              !closed && !disk.cancelled && !disk.tooLarge && disk.persists && Swap(old(records), r, expected, true).0 == Written
      ensures records == if answer == Stored then Swap(old(records), r, expected, true).1 else old(records)
      ensures answer.Refused? ==> answer.why == Swap(old(records), r, expected, true).0
    {
      if closed { return Closed; }
      if disk.cancelled { return Cancelled; }
      if !ValidIntent(r) { return Refused(Corrupt); }
      if r.version != expected + 1 { return Refused(Conflict); }
      var k := KeyOf(r);
      var exists_ := k in records;
      var before := Get(records, k);
      if (expected == 0 && exists_)
         || (expected > 0 && (!exists_ || before.value.version != expected || before.value.hash != r.hash))
      {
        return Refused(Conflict);
      }
      if disk.tooLarge { return TooLarge; }
      records := records[k := r];
      var ok := Persist(disk);
      if !ok {
        if exists_ {
          records := records[k := before.value];
        } else {
          records := records - {k};
        }
        return NotPersisted;
      }
      return Stored;
    }

    // A temporary file is written in full and then renamed over the old one.
    method Persist(disk: Disk) returns (ok: bool)
      modifies this`file
      ensures ok == disk.persists
      ensures file == if ok then records else old(file)
    {
      if disk.persists { file := records; }
      return disk.persists;
    }
  }

  // ----- Prepare's catalog check -----

  datatype Machine = Machine(id: string, status: string)

  // The action names a repository and a machine of the fleet; the machine's status is the first listed.
  method InCatalog(repos: seq<string>, nodes: seq<Machine>, action: Action) returns (found: bool, status: string)
    ensures found <==> action.repo in repos && exists i :: 0 <= i < |nodes| && nodes[i].id == action.node
    ensures found ==> exists i :: 0 <= i < |nodes| && nodes[i] == Machine(action.node, status)
                                  && forall j :: 0 <= j < i ==> nodes[j].id != action.node
  {
    var repoFound, i := false, 0;
    while i < |repos| && !repoFound
      invariant 0 <= i <= |repos|
      invariant repoFound <==> action.repo in repos[..i]
    {
      repoFound := repos[i] == action.repo;
      i := i + 1;
    }
    assert repos[..|repos|] == repos;
    assert action.repo in repos[..i] ==> action.repo in repos;
    found, status := false, "";
    var n := 0;
    while n < |nodes| && !found
      invariant 0 <= n <= |nodes|
      invariant forall j :: 0 <= j < n ==> (nodes[j].id != action.node || (found && j == n - 1))
      invariant found ==> n > 0 && nodes[n - 1] == Machine(action.node, status)
    {
      if nodes[n].id == action.node { found, status := true, nodes[n].status; }
      n := n + 1;
    }
    found := found && repoFound;
  }
}
