// firmware/main/ln_bootlog.c: a ring in memory that survives a reset, and the report the
// next boot makes of it.
module BootLog {
  import opened Prelude

  const TAIL: nat := 3072
  const LINE_MAX: nat := 256
  const HISTORY: nat := 8
  const MAGIC: nat := 0x4C4E424C

  // The last TAIL characters of everything logged.
  function Suffix(log: seq<char>): (r: seq<char>)
    ensures |r| == if |log| < TAIL then |log| else TAIL
    ensures forall i :: 0 <= i < |r| ==> r[i] == log[|log| - |r| + i]
  {
    if |log| <= TAIL then log else log[|log| - TAIL..]
  }

  // A report is a C string: a NUL that was logged shows as a space.
  function Printable(s: seq<char>): (r: seq<char>)
    ensures |r| == |s|
    ensures forall i :: 0 <= i < |s| ==> r[i] == if s[i] == '\0' then ' ' else s[i]
  {
    seq(|s|, i requires 0 <= i < |s| => if s[i] == '\0' then ' ' else s[i])
  }

  lemma RemainderOf(q: nat, r: nat)
    requires r < TAIL
    ensures (q * TAIL + r) % TAIL == r
  {
  }

  lemma NextSlot(n: nat)
    ensures (n % TAIL + 1) % TAIL == (n + 1) % TAIL
  {
  }

  class Ring {
    const tail: array<char>
    var head: nat
    var len: nat
    var magic: nat
    ghost var log: seq<char>     // everything logged since the ring was started

    // Slot i % TAIL holds character i of the log, for the last TAIL characters.
    ghost predicate Slots()
      reads this, tail
    {
      && tail.Length == TAIL
      && head == |log| % TAIL
      && forall i :: 0 <= i < |log| && |log| - TAIL <= i ==> tail[i % TAIL] == log[i]
    }

    ghost predicate Valid()
      reads this, tail
    {
      && Slots()
      && magic == MAGIC
      && len == (if |log| < TAIL then |log| else TAIL)
      && (len < TAIL ==> head == len)
    }

    // Memory as it is found after power-up: anything at all.
    constructor (garbage: array<char>, h: nat, l: nat, m: nat)
      requires garbage.Length == TAIL
      ensures tail == garbage && head == h && len == l && magic == m
    {
      tail, head, len, magic, log := garbage, h, l, m, [];
    }

    // The memset and the new magic at the end of init.
    method Restart()
      requires tail.Length == TAIL
      modifies this
      ensures Valid() && log == []
    {
      head, len, magic, log := 0, 0, MAGIC, [];
    }

    method Append(s: seq<char>)
      requires Valid()
      modifies this, tail
      ensures Valid() && log == old(log) + s
    {
      var i := 0;
      while i < |s|
        invariant 0 <= i <= |s| && log == old(log) + s[..i] && Slots()
        invariant len == old(len) && magic == old(magic)
      {
        assert s[..i + 1] == s[..i] + [s[i]];
        PutChar(s[i]);
        i := i + 1;
      }
      len := if len + |s| > TAIL then TAIL else len + |s|;
    }

    // One turn of the copying loop.
    method PutChar(c: char)
      requires Slots()
      modifies this`head, this`log, tail
      ensures Slots() && log == old(log) + [c]
    {
      ghost var n := |log|;
      NextSlot(n);
      tail[head] := c;
      head := (head + 1) % TAIL;
      log := log + [c];
    }

    // bl_vprintf: one formatted line, cut at the line buffer.
    method LogLine(text: seq<char>)
      requires Valid()
      modifies this, tail
      ensures Valid() && log == old(log) + if |text| < LINE_MAX then text else text[..LINE_MAX - 1]
    {
      if |text| > 0 {
        Append(if |text| < LINE_MAX then text else text[..LINE_MAX - 1]);
      }
    }

    // The linearizing loop of the next boot: oldest character first.
    method Linearize() returns (report: seq<char>)
      requires tail.Length == TAIL && len <= TAIL && head < TAIL
      ensures |report| == len
      ensures Valid() ==> report == Printable(Suffix(log))
      ensures Slots() && len <= |log| ==>
                forall k :: 0 <= k < len ==> ReportedAt(|log|, len, k) < |log| && report[k] == Clean(log[ReportedAt(|log|, len, k)])
    {
      var start := if len == TAIL then head else 0;
      report := [];
      var i := 0;
      while i < len
        invariant 0 <= i <= len && |report| == i
        invariant forall k :: 0 <= k < i ==> report[k] == Clean(tail[(start + k) % TAIL])
      {
        var c := tail[(start + i) % TAIL];
        report := report + [Clean(c)];
        i := i + 1;
      }
      if Slots() && len <= |log| {
        forall k | 0 <= k < len
          ensures ReportedAt(|log|, len, k) < |log| && report[k] == Clean(log[ReportedAt(|log|, len, k)])
        {
          SlotHolds(k);
        }
        if Valid() { InOrder(log, report); }
      }
    }

    lemma SlotHolds(k: nat)
      requires Slots() && len <= |log| && len <= TAIL && k < len
      ensures
        var i := ReportedAt(|log|, len, k);
        i < |log| && tail[((if len == TAIL then head else 0) + k) % TAIL] == log[i]
    {
      ReportedSlot(|log|, len, k);
      var i := ReportedAt(|log|, len, k);
      assert tail[i % TAIL] == log[i];
    }

    // ln_bootlog_init's use of the ring: report the previous boot if its memory survived,
    // then start afresh. Garbage is never indexed out of bounds. memory: malloc had room
    // for the report.
    method Init(powerOn: bool, memory: bool) returns (report: Option<seq<char>>)
      requires tail.Length == TAIL
      modifies this
      ensures Valid() && log == []
      ensures report.Some? <==> memory && !powerOn && old(magic) == MAGIC && old(len) <= TAIL && old(head) < TAIL
      ensures old(Valid()) && !powerOn && memory ==> report == Some(Printable(Suffix(old(log))))
    {
      report := None;
      if magic == MAGIC && len <= TAIL && head < TAIL && !powerOn && memory {
        var text := Linearize();
        report := Some(text);
      }
      Restart();
    }
  }

  function Clean(c: char): char { if c == '\0' then ' ' else c }

  // ----- A reset in the middle of an append -----

  // Which character of the log the k-th of the report is, when total characters have gone
  // in and len still says what it did when before had.
  function ReportedAt(total: nat, before: nat, k: nat): nat {
    var at := total % TAIL;
    var slot := ((if before >= TAIL then at else 0) + k) % TAIL;
    if slot < at then total - at + slot else if total >= TAIL then total - at - TAIL + slot else slot
  }

  lemma ReportedSlot(total: nat, before: nat, k: nat)
    requires before <= total && k < Min(before, TAIL)
    ensures
      var i := ReportedAt(total, before, k);
      i < total && total - TAIL <= i && i % TAIL == ((if before >= TAIL then total % TAIL else 0) + k) % TAIL
  {
    var at := total % TAIL;
    var slot := ((if before >= TAIL then at else 0) + k) % TAIL;
    if slot < at { RemainderOf(total / TAIL, slot); }
    else if total >= TAIL {
      assert total - at - TAIL + slot == (total / TAIL - 1) * TAIL + slot;
      RemainderOf(total / TAIL - 1, slot);
    }
  }

  lemma FullReportOrder(total: nat, before: nat, k: nat)
    requires TAIL <= before <= total && k < TAIL
    ensures ReportedAt(total, before, k) == total - TAIL + k
  {
    var at := total % TAIL;
    if at + k < TAIL { assert (at + k) % TAIL == at + k; } else { assert (at + k) % TAIL == at + k - TAIL; }
  }

  lemma WholeReportOrder(total: nat, len: nat, k: nat)
    requires len == (if total < TAIL then total else TAIL) && k < len
    ensures ReportedAt(total, len, k) == total - len + k
  {
    if len == TAIL { FullReportOrder(total, len, k); }
    else { assert total % TAIL == total && k % TAIL == k; }
  }

  lemma InOrder(log: seq<char>, report: seq<char>)
    requires |report| == |Suffix(log)|
    requires forall k :: 0 <= k < |report| ==>
               ReportedAt(|log|, |report|, k) < |log| && report[k] == Clean(log[ReportedAt(|log|, |report|, k)])
    ensures report == Printable(Suffix(log))
  {
    hide ReportedAt;
    forall k | 0 <= k < |report|
      ensures report[k] == Clean(Suffix(log)[k])
    {
      WholeReportOrder(|log|, |report|, k);
    }
  }

  // A reset between the copying and the update of len leaves a report in log order if and
  // only if the ring was already full or the append had not passed the end of the buffer;
  // otherwise the newest characters come first.
  lemma TornOrder(total: nat, before: nat)
    requires 0 < before <= total < before + TAIL
    ensures
      (forall j, k :: 0 <= j < k < Min(before, TAIL) ==> ReportedAt(total, before, j) < ReportedAt(total, before, k))
      <==> before >= TAIL || total <= TAIL
  {
    if before >= TAIL {
      forall j, k | 0 <= j < k < TAIL
        ensures ReportedAt(total, before, j) < ReportedAt(total, before, k)
      {
        FullReportOrder(total, before, j);
        FullReportOrder(total, before, k);
      }
    } else if total > TAIL {
      var w := total - TAIL;
      assert total % TAIL == w && 0 < w < before;
      assert ReportedAt(total, before, 0) == TAIL && ReportedAt(total, before, w) == w;
    } else {
      forall j, k | 0 <= j < k < before
        ensures ReportedAt(total, before, j) < ReportedAt(total, before, k)
      {
        assert ReportedAt(total, before, j) == j && ReportedAt(total, before, k) == k;
      }
    }
  }

  // ----- The boot history: newest first, eight at most -----

  method PushBoot<T>(hist: array<T>, n: nat, row: T) returns (m: nat)
    requires hist.Length == HISTORY && n <= HISTORY
    modifies hist
    ensures m == (if n + 1 > HISTORY then HISTORY else n + 1)
    ensures hist[..m] == ([row] + old(hist[..n]))[..m]
  {
    var i := HISTORY - 1;
    while i > 0
      invariant 0 <= i < HISTORY
      invariant forall k :: 0 <= k <= i ==> hist[k] == old(hist[k])
      invariant forall k :: i < k < HISTORY ==> hist[k] == old(hist[k - 1])
    {
      hist[i] := hist[i - 1];
      i := i - 1;
    }
    hist[0] := row;
    m := if n + 1 > HISTORY then HISTORY else n + 1;
  }
}
