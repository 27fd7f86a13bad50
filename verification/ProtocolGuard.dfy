/** The mutation guard over whole histories: for plans within the text bounds it fires
    only between the first write of a replan and its re-freezing. */
module ProtocolGuard {
  import opened Domain
  import H = PlanHash
  import opened Protocol
  import opened ProtocolSafety
  import Steps = ProtocolSteps
  import opened ProtocolTheorems
  import opened ProtocolStructure
  import opened ProtocolOrder

  /** Whoever is about to freeze a hash holds the current one. */
  predicate FreezesTruly(cfg: Config, s: State) {
    forall w | w in s.workers && s.workers[w].Freezing? :: s.workers[w].frozen == PlanHashOf(cfg, s.rows)
  }

  /** The only step that brings a worker to freezing something, and what it freezes. */
  predicate FreezesLoaded(cfg: Config, s: State, pc: Pc, next: Pc, step: Step) {
    next.Freezing? ==> next == pc || (step.RefreezeGet? && next.frozen == PlanHashOf(cfg, s.rows))
  }

  lemma RefreezeLoads(cfg: Config, s: State, step: Step)
    requires step.RefreezeGet?
    ensures FreezesLoaded(cfg, s, At(s, step.w), At(StepRefreeze(cfg, s, step), step.w), step)
  {
    hide PlanHashOf, Loadable;
  }

  lemma RecoveryFreezesNothing(cfg: Config, s: State, step: Step)
    requires step.Interrupted? || step.ReconcileGet?
    ensures !At(StepRetry(cfg, s, step.w, step), step.w).Freezing?
              || At(StepRetry(cfg, s, step.w, step), step.w) == At(s, step.w)
    ensures !At(StepReconcile(s, step.w, step), step.w).Freezing?
              || At(StepReconcile(s, step.w, step), step.w) == At(s, step.w)
  {
  }

  lemma StartsFreezing(cfg: Config, s: State, step: Step)
    requires Inv(cfg, s) && !Replans(step)
    ensures FreezesLoaded(cfg, s, At(s, Steps.Actor(step)), At(Next(cfg, s, step), Steps.Actor(step)), step)
  {
    hide Next;
    hide Inv, PlanHashOf;
    if step.RefreezeGet? {
      Steps.NextRefreeze(cfg, s, step);
      hide StepRefreeze, FreezesLoaded;
      RefreezeLoads(cfg, s, step);
    } else if step.Begin? {
      StartsAtAction(cfg, s, step);
    } else if step.Interrupted? {
      Steps.NextRetry(cfg, s, step);
      hide StepRetry, StepReconcile;
      RecoveryFreezesNothing(cfg, s, step);
    } else if step.ReconcileGet? {
      Steps.NextReconcile(cfg, s, step);
      hide StepRetry, StepReconcile;
      RecoveryFreezesNothing(cfg, s, step);
    } else {
      OwnContinues(cfg, s, step);
    }
  }

  lemma StartsAtAction(cfg: Config, s: State, step: Step)
    requires step.Begin?
    ensures At(Next(cfg, s, step), step.w) == At(s, step.w) || At(Next(cfg, s, step), step.w).Loaded?
  {
  }

  lemma PlanHashKept(cfg: Config, s: State, step: Step)
    requires Inv(cfg, s) && Faithful(s) && !Replans(step)
    ensures PlanHashOf(cfg, Next(cfg, s, step).rows) == PlanHashOf(cfg, s.rows)
  {
    hide Next, Inv, Faithful, Steps.Good, PlanHashOf;
    StepFaithful(cfg, s, step);
    Steps.StepKeepsInv(cfg, s, step);
    RowsAreStored(cfg, s);
    RowsAreStored(cfg, Next(cfg, s, step));
    SameStructureSameHash(cfg, s, Next(cfg, s, step));
  }

  /** Without a replan write, a frozen hash stays frozen and a re-freezing freezes the
      current one. */
  lemma StepFreezesTruly(cfg: Config, s: State, step: Step)
    requires Inv(cfg, s) && Faithful(s) && FreezesTruly(cfg, s) && !Replans(step)
    ensures FreezesTruly(cfg, Next(cfg, s, step))
    ensures var t := Next(cfg, s, step);
            t.plan.hash == s.plan.hash || (step.RefreezePut? && t.plan.hash == PlanHashOf(cfg, t.rows))
  {
    hide Next, PlanHashOf, Inv, Faithful;
    var t, actor := Next(cfg, s, step), Steps.Actor(step);
    PlanHashKept(cfg, s, step);
    StartsFreezing(cfg, s, step);
    Steps.StepKeepsInv(cfg, s, step);
    assert forall v | v != actor :: At(t, v) == At(s, v);
    hide Steps.Good;
    OnlyWritersWrite(cfg, s, step);
    if step.RefreezePut? || step.TouchPlan? { PlanWrites(cfg, s, step); }
    forall w | w in t.workers && t.workers[w].Freezing?
      ensures t.workers[w].frozen == PlanHashOf(cfg, t.rows)
    {
      assert t.workers[w] == At(t, w);
    }
  }

  lemma PlanWrites(cfg: Config, s: State, step: Step)
    requires FreezesTruly(cfg, s) && (step.RefreezePut? || step.TouchPlan?)
    ensures var t := Next(cfg, s, step);
            t.plan.hash == s.plan.hash || (step.RefreezePut? && t.plan.hash == PlanHashOf(cfg, s.rows))
  {
    hide Next;
    Steps.NextRefreeze(cfg, s, step);
    hide PlanHashOf;
  }

  /** Every stored dependency list fits its column. */
  predicate DepsFit(cfg: Config, s: State) {
    forall a | a in s.rows :: H.Fits(cfg.names, s.rows[a].action.deps)
  }

  lemma FittingIsLoadable(cfg: Config, s: State)
    requires Inv(cfg, s) && DepsFit(cfg, s)
    ensures Loadable(s.rows)
  {
    RowsAreStored(cfg, s);
  }

  /** Only a re-freezing writes the frozen hash. */
  lemma FrozenHashKept(cfg: Config, s: State, step: Step)
    requires !step.RefreezePut?
    ensures Next(cfg, s, step).plan.hash == s.plan.hash
  {
    hide Next;
    if step.TouchPlan? { Steps.NextRefreeze(cfg, s, step); } else { OnlyWritersWrite(cfg, s, step); }
  }

  /** However workers interleave and crash: without a replan, the guard says after the
      run what it would have said before. */
  lemma {:induction false} RunsKeepGuard(cfg: Config, s: State, steps: seq<Step>)
    requires Inv(cfg, s) && Faithful(s) && FreezesTruly(cfg, s) && DepsFit(cfg, s)
    requires forall i | 0 <= i < |steps| :: !Replans(steps[i])
    ensures var t := Exec(cfg, s, steps);
            && FreezesTruly(cfg, t) && DepsFit(cfg, t)
            && (GuardSilent(cfg, s) ==> GuardSilent(cfg, t))
            && (GuardSilent(cfg, t) ==> GuardSilent(cfg, s) || exists i | 0 <= i < |steps| :: steps[i].RefreezePut?)
    decreases |steps|
  {
    hide Next, Inv, PlanHashOf, Faithful;
    FittingIsLoadable(cfg, s);
    if steps != [] {
      var front, step := steps[..|steps| - 1], steps[|steps| - 1];
      var before, t := Exec(cfg, s, front), Exec(cfg, s, steps);
      RunsKeepGuard(cfg, s, front);
      RunsKeepStructure(cfg, s, front);
      RunsKeepStructure(cfg, s, steps);
      Steps.RunsKeepInv(cfg, s, front);
      Steps.RunsKeepInv(cfg, s, steps);
      StepFreezesTruly(cfg, before, step);
      FittingIsLoadable(cfg, before);
      if !step.RefreezePut? { FrozenHashKept(cfg, before, step); }
      FittingIsLoadable(cfg, t);
      if i :| 0 <= i < |front| && front[i].RefreezePut? { assert steps[i].RefreezePut?; }
      if step.RefreezePut? { assert steps[|steps| - 1].RefreezePut?; }
    }
  }

  // ------------------------------------------------------ histories with replans

  lemma PatchGetFreezesTruly(cfg: Config, s: State, step: Step)
    requires FreezesTruly(cfg, s) && step.PatchGet?
    ensures FreezesTruly(cfg, Next(cfg, s, step))
  {
    hide Next;
    Steps.NextReplan(cfg, s, step);
    hide PlanHashOf;
  }

  lemma ReplanFreezesTruly(cfg: Config, s: State, step: Step)
    requires OrderInv(s) && FreezesTruly(cfg, s) && Sequential(s, step) && (step.AddAction? || step.PatchPut?)
    ensures FreezesTruly(cfg, Next(cfg, s, step))
  {
    var t := Next(cfg, s, step);
    ReplanStep(cfg, s, step);
    hide Next, PlanHashOf, OrderInv, Sequential;
    if a :| Replanned(s, t, a) {
      forall w | w in t.workers ensures !t.workers[w].Freezing? { assert !Busy(At(t, w)) && At(t, w) == t.workers[w]; }
    }
  }

  lemma SequentialStepFreezesTruly(cfg: Config, s: State, step: Step)
    requires Inv(cfg, s) && Faithful(s) && OrderInv(s) && FreezesTruly(cfg, s) && Sequential(s, step)
    ensures FreezesTruly(cfg, Next(cfg, s, step))
    ensures var t := Next(cfg, s, step);
            t.plan.hash == s.plan.hash || (step.RefreezePut? && t.plan.hash == PlanHashOf(cfg, t.rows))
  {
    hide Next, Inv, Faithful, OrderInv, FreezesTruly, PlanHashOf, Sequential;
    if step.PatchGet? {
      PatchGetFreezesTruly(cfg, s, step);
      OnlyWritersWrite(cfg, s, step);
    } else if step.AddAction? || step.PatchPut? {
      ReplanFreezesTruly(cfg, s, step);
      OnlyWritersWrite(cfg, s, step);
    } else {
      StepFreezesTruly(cfg, s, step);
    }
  }

  /** A re-freezing that has its effect: nobody wrote the plan row since it was loaded,
      or the hash was the same anyway. */
  predicate Lands(s: State, step: Step) {
    && step.RefreezePut? && At(s, step.w).Freezing?
    && (s.plan.hash == At(s, step.w).frozen || s.plan.version == At(s, step.w).planVersion)
  }

  /** A replan is unfinished: one of its writes has changed the structure, and no
      re-freezing has landed since. */
  ghost predicate Unfinished(cfg: Config, s: State, steps: seq<Step>)
    decreases |steps|
  {
    steps != []
    && var front, step := steps[..|steps| - 1], steps[|steps| - 1];
       var before := Exec(cfg, s, front);
       if Replans(step) && PlanHashOf(cfg, Next(cfg, before, step).rows) != PlanHashOf(cfg, before.rows) then true
       else if Lands(before, step) then false
       else Unfinished(cfg, s, front)
  }

  lemma LandingFreezes(cfg: Config, s: State, step: Step)
    requires FreezesTruly(cfg, s) && Lands(s, step)
    ensures Next(cfg, s, step).rows == s.rows && Next(cfg, s, step).plan.hash == PlanHashOf(cfg, s.rows)
  {
    hide Next;
    Steps.NextRefreeze(cfg, s, step);
    assert At(s, step.w) == s.workers[step.w];
    hide PlanHashOf;
  }

  lemma {:induction false} FrozenUnlessUnfinished(cfg: Config, s: State, steps: seq<Step>)
    requires Init(cfg, s) && s.plan.hash == PlanHashOf(cfg, s.rows) && SequentialRun(cfg, s, steps)
    ensures var t := Exec(cfg, s, steps);
            && Inv(cfg, t) && Faithful(t) && OrderInv(t) && FreezesTruly(cfg, t)
            && (!Unfinished(cfg, s, steps) ==> t.plan.hash == PlanHashOf(cfg, t.rows))
    decreases |steps|
  {
    Steps.InitInv(cfg, s);
    if steps != [] {
      var front, step := steps[..|steps| - 1], steps[|steps| - 1];
      var before := Exec(cfg, s, front);
      FrozenUnlessUnfinished(cfg, s, front);
      hide Init, Inv, Faithful, OrderInv, Sequential, PlanHashOf, FreezesTruly, Next, Steps.Good;
      StepOrdered(cfg, before, step);
      SequentialStepFreezesTruly(cfg, before, step);
      Steps.StepKeepsInv(cfg, before, step);
      if !Replans(step) { PlanHashKept(cfg, before, step); }
      if Lands(before, step) { LandingFreezes(cfg, before, step); }
    } else {
      assert Faithful(s) && OrderInv(s) && FreezesTruly(cfg, s);
    }
  }

  /** The mutation guard fires only during an unfinished replan. Over every sequential
      history of runs, crashes, retries, approvals, reconciliations and replans of a
      plan that was frozen as persisted, and whose dependency lists fit: unless a
      replan has been left without its re-freezing, the guard is silent. */
  lemma GuardFiresOnlyMidReplan(cfg: Config, s: State, steps: seq<Step>)
    requires Init(cfg, s) && s.plan.hash == PlanHashOf(cfg, s.rows) && SequentialRun(cfg, s, steps)
    requires DepsFit(cfg, Exec(cfg, s, steps))
    ensures GuardSilent(cfg, Exec(cfg, s, steps)) || Unfinished(cfg, s, steps)
  {
    FrozenUnlessUnfinished(cfg, s, steps);
    FittingIsLoadable(cfg, Exec(cfg, s, steps));
  }

  // ----------------------------------------------------------- persisted plans

  /** The rows of a freshly persisted plan: what was loaded back is what they say. */
  predicate Represents(cfg: Config, s: State, plan: H.Plan) {
    && cfg.plan == plan.id && cfg.policy == plan.failurePolicy
    && H.DistinctIds(plan.actions)
    && (forall i | 0 <= i < |plan.actions| ::
          && plan.actions[i].id in s.rows
          && s.rows[plan.actions[i].id].action.payload == plan.actions[i].payload
          && s.rows[plan.actions[i].id].action.deps == plan.actions[i].deps)
    && (forall a | a in s.rows :: exists i | 0 <= i < |plan.actions| :: plan.actions[i].id == a)
  }

  /** The protocol's hash of its rows is `compute_plan_hash` of the plan they hold. */
  lemma OneHash(cfg: Config, s: State, plan: H.Plan)
    requires Represents(cfg, s, plan)
    ensures PlanHashOf(cfg, s.rows) == H.ComputePlanHash(plan)
  {
    hide H.Entries, H.EntryFor;
    var entries := PlanHashOf(cfg, s.rows).entries;
    forall a | a in s.rows
      ensures a in H.Entries(plan.actions) && H.Entries(plan.actions)[a] == entries[a]
    {
      var i :| 0 <= i < |plan.actions| && plan.actions[i].id == a;
      H.EntryAt(plan.actions, i);
      assert H.EntryOf(plan.actions[i]) == entries[a];
    }
    forall a | a in H.Entries(plan.actions)
      ensures a in s.rows
    {
      var i := H.EntriesFrom(plan.actions, a);
    }
    assert H.Entries(plan.actions) == entries;
  }

  /** The whole life of a plan. Persist it, and let it run: over every sequential
      history that leaves no replan unfinished, the guard is silent if every expected
      result fits its column. If one does not, the guard fires after every run, however
      interleaved, until a replan re-freezes the plan. */
  lemma GuardOverALife(cfg: Config, s: State, plan: H.Plan, record: H.PlanRecord, loaded: H.Plan, steps: seq<Step>)
    requires H.DistinctIds(plan.actions) && H.Persisted(cfg.names, plan) == Ok(record) && H.Loaded(record) == Ok(loaded)
    requires Init(cfg, s) && Represents(cfg, s, loaded) && s.plan.hash == record.hash
    ensures (&& H.TextsFit(plan.actions)
             && SequentialRun(cfg, s, steps) && !Unfinished(cfg, s, steps) && DepsFit(cfg, Exec(cfg, s, steps))) ==>
              GuardSilent(cfg, Exec(cfg, s, steps))
    ensures (&& !H.TextsFit(plan.actions)
             && forall i | 0 <= i < |steps| :: !Replans(steps[i]) && !steps[i].RefreezePut?) ==>
              !GuardSilent(cfg, Exec(cfg, s, steps))
  {
    H.GuardOnUntouchedPlan(cfg.names, plan);
    OneHash(cfg, s, loaded);
    hide Represents, H.Persisted, H.Loaded, H.ComputePlanHash, PlanHashOf;
    if H.TextsFit(plan.actions) {
      if SequentialRun(cfg, s, steps) && !Unfinished(cfg, s, steps) && DepsFit(cfg, Exec(cfg, s, steps)) {
        GuardFiresOnlyMidReplan(cfg, s, steps);
      }
    } else if forall i | 0 <= i < |steps| :: !Replans(steps[i]) && !steps[i].RefreezePut? {
      Steps.InitInv(cfg, s);
      FrozenUntilRefrozen(cfg, s, steps);
      RunsKeepStructure(cfg, s, steps);
    }
  }

  /** Only a re-freezing changes the frozen hash. */
  lemma {:induction false} FrozenUntilRefrozen(cfg: Config, s: State, steps: seq<Step>)
    requires forall i | 0 <= i < |steps| :: !steps[i].RefreezePut?
    ensures Exec(cfg, s, steps).plan.hash == s.plan.hash
    decreases |steps|
  {
    hide Next;
    if steps != [] {
      var before, step := Exec(cfg, s, steps[..|steps| - 1]), steps[|steps| - 1];
      FrozenUntilRefrozen(cfg, s, steps[..|steps| - 1]);
      OnlyWritersWrite(cfg, before, step);
      if step.TouchPlan? { Steps.NextRefreeze(cfg, before, step); }
    }
  }
}
