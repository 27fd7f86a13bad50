/** The orchestration lease of a plan: claimed by conditional UPDATEs under an owner's
    name, released by name, taken over when it has run out. Runs crash without
    releasing it and are not told when it is taken from them. */
module Lease {
  import opened Domain

  type Run = nat

  /** The name each run claims under. */
  type Owners = Run -> string

  datatype Lease = Lease(owner: string, expires: int)

  /** `working` are the runs that claimed the lease and neither returned nor crashed,
      with the expiry each was granted; `over` are those that did. */
  datatype State = State(lease: Option<Lease>, working: map<Run, int>, over: set<Run>, clock: int)

  datatype Step =
    | Claim(run: Run, seconds: int, takeover: bool)
    | Release(run: Run)
    | Crash(run: Run)
    | Tick(now: int)

  /** What the claiming UPDATE matches: an unclaimed plan, or with takeover allowed one
      whose lease has run out. */
  predicate Claimable(s: State, takeover: bool) {
    s.lease.None? || (takeover && s.lease.value.expires < s.clock)
  }

  function Next(owners: Owners, s: State, step: Step): State {
    match step
    case Claim(run, seconds, takeover) =>
      if run in s.working || run in s.over || !Claimable(s, takeover) then s
      else s.(lease := Some(Lease(owners(run), s.clock + seconds)), working := s.working[run := s.clock + seconds])
    case Release(run) =>
      if run !in s.working then s
      else
        s.(lease := if s.lease.Some? && s.lease.value.owner == owners(run) then None else s.lease,
           working := s.working - {run}, over := s.over + {run})
    case Crash(run) => s.(working := s.working - {run}, over := s.over + {run})
    case Tick(now) => if now >= s.clock then s.(clock := now) else s
  }

  function Exec(owners: Owners, s: State, steps: seq<Step>): State
    decreases |steps|
  {
    if steps == [] then s else Next(owners, Exec(owners, s, steps[..|steps| - 1]), steps[|steps| - 1])
  }

  const START: State := State(None, map[], {}, 0)

  predicate Unexpired(s: State, run: Run) { run in s.working && s.clock <= s.working[run] }

  /** No two runs work under leases that have not run out. */
  ghost predicate Exclusive(s: State) {
    forall a, b | Unexpired(s, a) && Unexpired(s, b) :: a == b
  }

  predicate Distinct(owners: Owners, a: Run, b: Run) { a != b ==> owners(a) != owners(b) }

  ghost predicate AllDistinct(owners: Owners) { forall a, b :: Distinct(owners, a, b) }

  /** A run whose lease has not run out is the one the row names. */
  ghost predicate Inv(owners: Owners, s: State) {
    forall run | Unexpired(s, run) :: s.lease == Some(Lease(owners(run), s.working[run]))
  }

  lemma StepKeepsInv(owners: Owners, s: State, step: Step)
    requires AllDistinct(owners) && Inv(owners, s)
    ensures Inv(owners, Next(owners, s, step))
  {
    var t := Next(owners, s, step);
    forall run | Unexpired(t, run)
      ensures t.lease == Some(Lease(owners(run), t.working[run]))
    {
      if step.Release? { assert Distinct(owners, run, step.run); }
      assert (step.Claim? && run == step.run) || Unexpired(s, run);
    }
  }

  lemma {:induction false} RunsKeepInv(owners: Owners, steps: seq<Step>)
    requires AllDistinct(owners)
    ensures Inv(owners, Exec(owners, START, steps))
    decreases |steps|
  {
    if steps != [] {
      RunsKeepInv(owners, steps[..|steps| - 1]);
      StepKeepsInv(owners, Exec(owners, START, steps[..|steps| - 1]), steps[|steps| - 1]);
    }
  }

  /** A history in which a stale run releases the lease of the one that took over from
      it under the same name, and a third run moves in. */
  function Intrusion(a: Run, b: Run, c: Run): seq<Step> {
    [Claim(a, 1, false), Tick(2), Claim(b, 300, true), Release(a), Claim(c, 300, false)]
  }

  lemma Extend(owners: Owners, steps: seq<Step>, step: Step)
    ensures Exec(owners, START, steps + [step]) == Next(owners, Exec(owners, START, steps), step)
  {
    assert (steps + [step])[..|steps|] == steps;
  }

  lemma SharedNameIntrudes(owners: Owners, a: Run, b: Run, c: Run)
    requires a != b && b != c && a != c && owners(a) == owners(b)
    ensures !Exclusive(Exec(owners, START, Intrusion(a, b, c)))
  {
    var steps := Intrusion(a, b, c);
    var s1 := Next(owners, START, steps[0]);
    var s2 := Next(owners, s1, steps[1]);
    var s3 := Next(owners, s2, steps[2]);
    var s4 := Next(owners, s3, steps[3]);
    var s5 := Next(owners, s4, steps[4]);
    Extend(owners, [], steps[0]);
    assert [] + [steps[0]] == [steps[0]] && [steps[0]] + [steps[1]] == [steps[0], steps[1]];
    assert [steps[0], steps[1]] + [steps[2]] == [steps[0], steps[1], steps[2]];
    assert [steps[0], steps[1], steps[2]] + [steps[3]] == [steps[0], steps[1], steps[2], steps[3]];
    assert [steps[0], steps[1], steps[2], steps[3]] + [steps[4]] == steps;
    Extend(owners, [steps[0]], steps[1]);
    Extend(owners, [steps[0], steps[1]], steps[2]);
    Extend(owners, [steps[0], steps[1], steps[2]], steps[3]);
    Extend(owners, [steps[0], steps[1], steps[2], steps[3]], steps[4]);
    assert Exec(owners, START, steps) == s5;
    assert Unexpired(s5, b) && Unexpired(s5, c);
  }

  /** The lease excludes over every history exactly when every run claims under a name
      of its own. */
  lemma ExclusionIff(owners: Owners)
    ensures (forall steps :: Exclusive(Exec(owners, START, steps))) <==> AllDistinct(owners)
  {
    if AllDistinct(owners) {
      forall steps ensures Exclusive(Exec(owners, START, steps)) {
        RunsKeepInv(owners, steps);
        var s := Exec(owners, START, steps);
        forall a, b | Unexpired(s, a) && Unexpired(s, b) ensures a == b { assert Distinct(owners, a, b); }
      }
    } else {
      var a, b :| !Distinct(owners, a, b);
      var c := a + b + 1;
      SharedNameIntrudes(owners, a, b, c);
      assert !Exclusive(Exec(owners, START, Intrusion(a, b, c)));
    }
  }
}
