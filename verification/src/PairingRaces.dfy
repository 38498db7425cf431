// Two runs in which a pairing is bound although five wrong entries were counted: one in
// which a process dies, and one in which every process runs to its end.
module PairingRaces {
  import opened Prelude
  import opened Pairing
  import opened PairingSafety

  const YES := Choice(Some("owner"), true)
  const CODE := "BCDFGHJK"

  function Tries(pid: nat, typed: string, n: nat): seq<Action> {
    [Start(pid, BindRead(0, typed))] + seq(n, _ => Advance(pid, YES))
  }

  const FOUR_WRONG: seq<Action> := Tries(0, "", 4) + Tries(0, "", 4) + Tries(0, "", 4) + Tries(0, "", 4)

  // The fifth wrong entry is counted, its process dies, and the right code is entered.
  const SPENT: seq<Action> :=
    [Register("challenge", CODE)] + FOUR_WRONG + Tries(0, "", 3) + [Crash(0)] + Tries(0, CODE, 4)

  // The right code is accepted first, but its process binds only after the fifth wrong
  // entry was counted; the counting process then finds the pairing bound.
  const RACED: seq<Action> :=
    [Register("challenge", CODE)] + Tries(1, CODE, 3) + FOUR_WRONG + Tries(0, "", 3)
    + [Advance(1, YES)] + [Advance(0, YES)] + [Advance(0, YES)]

  lemma RunOne(env: Env, s: Sys, a: Action)
    ensures Run(env, s, [a]) == Step(env, s, a)
  {
    assert [a][..0] == [];
  }

  lemma TriesStep(env: Env, s: Sys, pid: nat, typed: string, n: nat)
    requires pid !in s.procs
    ensures Run(env, s, Tries(pid, typed, 0)) == To(s, pid, BindRead(0, typed))
    ensures n > 0 ==> Run(env, s, Tries(pid, typed, n)) == Step(env, Run(env, s, Tries(pid, typed, n - 1)), Advance(pid, YES))
  {
    assert Tries(pid, typed, 0)[..0] == [];
    if n > 0 { assert Tries(pid, typed, n)[..n] == Tries(pid, typed, n - 1); }
  }

  // Pairing 0 is open with k wrong entries counted, and process 0 is not running.
  ghost predicate Open(s: Sys, k: nat) {
    0 !in s.procs && InState(s, 0, Pending) && s.pairs[0].attempts == k && s.pairs[0].code == CODE
  }

  // Nothing but pairing 0's count, process 0 and the fates of its entries differs.
  ghost predicate OnlyCounted(s: Sys, t: Sys) {
    && t.log.bindings == s.log.bindings && t.devices == s.devices && t.next == s.next
    && forall q :: q != 0 ==> Get(t.procs, q) == Get(s.procs, q)
  }

  lemma WrongTry(env: Env, s: Sys, k: nat)
    requires Open(s, k)
    ensures
      var t := Run(env, s, Tries(0, "", 3));
      OnlyCounted(s, t) && Open(Stop(t, 0), k + 1) && 0 in t.procs && t.procs[0] == MissRead(0, k + 1)
    ensures
      var t := Run(env, s, Tries(0, "", 4));
      k + 1 < MAX_ATTEMPTS ==> OnlyCounted(s, t) && Open(t, k + 1)
  {
    hide Run, Tries, BindDeviceStep, BindFlipStep, MissFlipStep, ClaimReadStep, ClaimDeviceStep, ClaimFlipStep;
    TriesStep(env, s, 0, "", 1);
    TriesStep(env, s, 0, "", 2);
    TriesStep(env, s, 0, "", 3);
    TriesStep(env, s, 0, "", 4);
    assert Run(env, s, Tries(0, "", 1)) == To(s, 0, BindAuthorize(0, "", s.pairs[0]));
    assert !CodeMatches("", CODE);
    assert Run(env, s, Tries(0, "", 2)) == To(s, 0, CountMiss(0));
  }

  lemma FourWrong(env: Env, s: Sys)
    requires Open(s, 0)
    ensures var t := Run(env, s, FOUR_WRONG); OnlyCounted(s, t) && Open(t, 4)
  {
    hide Run, Tries, Open, OnlyCounted;
    var miss := Tries(0, "", 4);
    var a := Run(env, s, miss);
    var b := Run(env, a, miss);
    var c := Run(env, b, miss);
    WrongTry(env, s, 0);
    WrongTry(env, a, 1);
    WrongTry(env, b, 2);
    WrongTry(env, c, 3);
    RunSplits(env, s, miss, miss);
    RunSplits(env, s, miss + miss, miss);
    RunSplits(env, s, miss + miss + miss, miss);
    CountedTwice(s, a, b);
    CountedTwice(s, b, c);
    CountedTwice(s, c, Run(env, c, miss));
  }

  lemma CountedTwice(a: Sys, b: Sys, c: Sys)
    requires OnlyCounted(a, b) && OnlyCounted(b, c)
    ensures OnlyCounted(a, c)
  {
    forall q | q != 0
      ensures Get(c.procs, q) == Get(a.procs, q)
    {
      assert Get(c.procs, q) == Get(b.procs, q) == Get(a.procs, q);
    }
  }

  lemma FiveWrong(env: Env, s: Sys)
    requires Open(s, 0)
    ensures
      var t := Run(env, s, FOUR_WRONG + Tries(0, "", 3));
      OnlyCounted(s, t) && Open(Stop(t, 0), MAX_ATTEMPTS) && 0 in t.procs && t.procs[0] == MissRead(0, MAX_ATTEMPTS)
  {
    hide Run, Tries, OnlyCounted;
    FourWrong(env, s);
    var t := Run(env, s, FOUR_WRONG);
    WrongTry(env, t, 4);
    RunSplits(env, s, FOUR_WRONG, Tries(0, "", 3));
    CountedTwice(s, t, Run(env, t, Tries(0, "", 3)));
  }

  // The right code, up to the write that binds.
  lemma RightTry(env: Env, s: Sys, pid: nat)
    requires pid !in s.procs && InState(s, 0, Pending) && s.pairs[0].code == CODE
    ensures
      var t := Run(env, s, Tries(pid, CODE, 3));
      && t.pairs == s.pairs && t.log == s.log && t.procs == s.procs[pid := BindFlip(0, CODE, "owner", s.next)]
      && Run(env, s, Tries(pid, CODE, 4)) == BindFlipStep(t, pid, 0, CODE, "owner", s.next)
  {
    hide CodeMatches, Tries, Run, BindFlipStep, ClaimReadStep, ClaimDeviceStep, ClaimFlipStep, CountMissStep, MissReadStep, MissFlipStep;
    CodeIsTyped();
    TriesStep(env, s, pid, CODE, 1);
    TriesStep(env, s, pid, CODE, 2);
    TriesStep(env, s, pid, CODE, 3);
    TriesStep(env, s, pid, CODE, 4);
    assert Run(env, s, Tries(pid, CODE, 1)) == To(s, pid, BindAuthorize(0, CODE, s.pairs[0]));
    assert Run(env, s, Tries(pid, CODE, 2)) == To(s, pid, BindDevice(0, CODE, "owner"));
  }

  lemma CodeIsTyped()
    ensures CodeMatches(CODE, CODE)
  {
    PlainIsTyped(CODE);
    TypedNormalizes(CODE, CODE);
  }

  lemma Registered(env: Env)
    ensures var s := Run(env, INIT, [Register("challenge", CODE)]); Open(s, 0) && s.procs == map[]
  {
    RunOne(env, INIT, Register("challenge", CODE));
  }

  // A process that dies between counting the fifth wrong entry and failing the pairing
  // leaves it open: this run ends with five wrong entries and a bound pairing.
  lemma FiveMissesMayStillBind(env: Env)
    ensures
      var s := Run(env, INIT, SPENT);
      && 0 in s.pairs && s.pairs[0].attempts == MAX_ATTEMPTS && s.pairs[0].status == Bound
      && Miss(0, MAX_ATTEMPTS) in s.log.fates && s.log.fates[Miss(0, MAX_ATTEMPTS)] == Ended
  {
    hide Run, Tries, FOUR_WRONG;
    var register, five, right := [Register("challenge", CODE)], FOUR_WRONG + Tries(0, "", 3), Tries(0, CODE, 4);
    Registered(env);
    var s := Run(env, INIT, register);
    FiveWrong(env, s);
    var t := Run(env, s, five);
    RunOne(env, t, Crash(0));
    var u := Step(env, t, Crash(0));
    assert u == Abandon(t, 0);
    RightTry(env, u, 0);
    assert SPENT == register + five + [Crash(0)] + right;
    RunSplits(env, INIT, register, five);
    RunSplits(env, INIT, register + five, [Crash(0)]);
    RunSplits(env, INIT, register + five + [Crash(0)], right);
  }

  // No process need die: in this run every process ends by running to its end, the fifth
  // entry's included, and the pairing is bound with five wrong entries.
  lemma FiveMissesMayLoseTheRace(env: Env)
    ensures
      var s := Run(env, INIT, RACED);
      && 0 in s.pairs && s.pairs[0].attempts == MAX_ATTEMPTS && s.pairs[0].status == Bound && s.procs == map[]
      && Miss(0, MAX_ATTEMPTS) in s.log.fates && s.log.fates[Miss(0, MAX_ATTEMPTS)] == Acted
  {
    hide Run, Tries, FOUR_WRONG;
    var register, right, five := [Register("challenge", CODE)], Tries(1, CODE, 3), FOUR_WRONG + Tries(0, "", 3);
    Registered(env);
    var s := Run(env, INIT, register);
    RightTry(env, s, 1);
    var t := Run(env, s, right);
    FiveWrong(env, t);
    var u := Run(env, t, five);
    RunOne(env, u, Advance(1, YES));
    assert t.procs == map[1 := BindFlip(0, CODE, "owner", s.next)];
    LastSteps(env, t, u, s.next);
    var v := Step(env, u, Advance(1, YES));
    RunOne(env, v, Advance(0, YES));
    RunOne(env, Step(env, v, Advance(0, YES)), Advance(0, YES));
    assert RACED == register + right + five + [Advance(1, YES)] + [Advance(0, YES)] + [Advance(0, YES)];
    RunSplits(env, INIT, register, right);
    RunSplits(env, INIT, register + right, five);
    RunSplits(env, INIT, register + right + five, [Advance(1, YES)]);
    RunSplits(env, INIT, register + right + five + [Advance(1, YES)], [Advance(0, YES)]);
    RunSplits(env, INIT, register + right + five + [Advance(1, YES)] + [Advance(0, YES)], [Advance(0, YES)]);
  }

  // Process 1 binds, then process 0 reads five and finds nothing left to fail.
  lemma LastSteps(env: Env, t: Sys, u: Sys, device: nat)
    requires t.procs == map[1 := BindFlip(0, CODE, "owner", device)]
    requires OnlyCounted(t, u) && Open(Stop(u, 0), MAX_ATTEMPTS) && 0 in u.procs && u.procs[0] == MissRead(0, MAX_ATTEMPTS)
    ensures
      var s := Step(env, Step(env, Step(env, u, Advance(1, YES)), Advance(0, YES)), Advance(0, YES));
      && 0 in s.pairs && s.pairs[0].attempts == MAX_ATTEMPTS && s.pairs[0].status == Bound && s.procs == map[]
      && Miss(0, MAX_ATTEMPTS) in s.log.fates && s.log.fates[Miss(0, MAX_ATTEMPTS)] == Acted
  {
    forall q | q in u.procs
      ensures q == 0 || q == 1
    {
      if q != 0 { assert Get(u.procs, q) == Get(t.procs, q); }
    }
    assert Get(u.procs, 1) == Get(t.procs, 1);
    var v := Step(env, u, Advance(1, YES));
    assert v == BindFlipStep(u, 1, 0, CODE, "owner", device);
    var w := Step(env, v, Advance(0, YES));
    assert w == To(v, 0, MissFlip(0, MAX_ATTEMPTS));
  }
}
