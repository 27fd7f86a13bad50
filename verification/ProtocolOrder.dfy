/** Dependency order: over sequential histories (one worker on actions at a time, any
    number of crashes, approvals and human decisions in between), nothing leaves
    VALIDATED before all it depends on is COMPLETED, and adapters are called in an
    order that extends the dependency graph. */
module ProtocolOrder {
  import opened Domain
  import E = Eligibility
  import G = Graph
  import R = Recovery
  import H = PlanHash
  import opened Protocol
  import opened ProtocolSafety
  import Steps = ProtocolSteps
  import opened ProtocolTheorems
  import opened ProtocolStructure

  function Statuses(s: State): map<Id, ActionStatus> {
    map a | a in s.rows :: s.rows[a].action.status
  }

  function Dependencies(s: State): G.Graph {
    map a | a in s.rows :: s.rows[a].action.deps
  }

  predicate Busy(pc: Pc) { !pc.Idle? && !pc.Deciding? }

  /** No worker is on an action. */
  predicate Quiet(s: State) {
    forall w | w in s.workers :: !Busy(s.workers[w])
  }

  /** What a sequential history lets begin: a worker takes up an action that is READY
      or waiting for its approval, an interrupted action, a reconciliation or a write
      of a replan, only when no other is under way. A replan rewires around FAILED
      actions only. */
  predicate Sequential(s: State, step: Step) {
    match step
    case Begin(_, a) =>
      Quiet(s) && a in s.rows
      && E.Evaluate(s.rows[a].action.status, s.rows[a].action.deps,
                    Statuses(s)) in {E.Eligibility.Ready, E.Eligibility.WaitingForApproval}
    case Interrupted(_, _) => Quiet(s)
    case ReconcileGet(_, _, _) => Quiet(s)
    case RefreezeGet(_) => Quiet(s)
    case TouchPlan => Quiet(s)
    case AddAction(_, _) => Quiet(s)
    case PatchGet(_, _, patch) => Quiet(s) && (patch.Rewire? ==> Is(s, patch.failed, Failed))
    case _ => true
  }

  ghost predicate SequentialRun(cfg: Config, s: State, steps: seq<Step>)
    decreases |steps|
  {
    steps == []
    || (SequentialRun(cfg, s, steps[..|steps| - 1])
        && Sequential(Exec(cfg, s, steps[..|steps| - 1]), steps[|steps| - 1]))
  }

  predicate Is(s: State, a: Id, status: ActionStatus) {
    a in s.rows && s.rows[a].action.status == status
  }

  /** Everything `a` depends on directly is COMPLETED. */
  predicate Cleared(s: State, a: Id) {
    a in s.rows && forall d | d in s.rows[a].action.deps :: Is(s, d, Completed)
  }

  predicate PcOrdered(s: State, pc: Pc) {
    && (Working(pc) ==> Cleared(s, pc.a) && (MayCall(pc) ==> !Is(s, pc.a, Completed)))
    && (pc.PatchWrite? ==>
          && pc.a in s.rows && pc.base == s.rows[pc.a]
          && (pc.patch.Rewire? ==> pc.patch.failed in s.rows[pc.a].action.deps && Is(s, pc.patch.failed, Failed)))
  }

  predicate OneBusy(s: State) {
    forall v, w | v in s.workers && w in s.workers && v != w :: !Busy(s.workers[v]) || !Busy(s.workers[w])
  }

  predicate LeftInOrder(s: State) {
    forall a | a in s.rows && s.rows[a].action.status != Validated :: Cleared(s, a)
  }

  /** No call comes after a call of something that depends on it. */
  ghost predicate CallsInOrder(s: State) {
    forall i, j | 0 <= i < j < |s.calls| :: !G.Reaches(Dependencies(s), s.calls[i].key.action, s.calls[j].key.action)
  }

  ghost predicate OrderInv(s: State) {
    && LeftInOrder(s)
    && OneBusy(s)
    && (forall w | w in s.workers :: PcOrdered(s, s.workers[w]))
    && (forall i | 0 <= i < |s.calls| :: Cleared(s, s.calls[i].key.action))
    && CallsInOrder(s)
  }

  // --------------------------------------------------------------- upstream

  /** Beyond a cleared action everything upstream is COMPLETED. */
  lemma {:induction false} UpstreamCompleted(s: State, p: seq<Id>)
    requires LeftInOrder(s) && G.Path(Dependencies(s), p) && |p| > 1 && Cleared(s, p[0])
    ensures Is(s, p[|p| - 1], Completed)
  {
    var n := |p| - 1;
    assert G.Edge(Dependencies(s), p[n - 1], p[n]);
    if n > 1 {
      assert G.Path(Dependencies(s), p[..n]);
      UpstreamCompleted(s, p[..n]);
    }
  }

  /** COMPLETED and cleared actions keep their dependencies. */
  predicate UpstreamKept(s: State, t: State) {
    forall b | b in s.rows && (Is(s, b, Completed) || Cleared(s, b)) ::
        b in t.rows && t.rows[b].action.deps == s.rows[b].action.deps
  }

  lemma {:induction false} PathsKept(s: State, t: State, p: seq<Id>)
    requires LeftInOrder(s) && UpstreamKept(s, t) && G.Path(Dependencies(t), p) && Cleared(s, p[0])
    ensures G.Path(Dependencies(s), p)
    decreases |p|
  {
    var n := |p| - 1;
    if n > 0 {
      assert G.Path(Dependencies(t), p[..n]);
      PathsKept(s, t, p[..n]);
      if n > 1 { UpstreamCompleted(s, p[..n]); }
      assert G.Edge(Dependencies(t), p[n - 1], p[n]);
      assert G.Edge(Dependencies(s), p[n - 1], p[n]);
    }
  }

  lemma ReachKept(s: State, t: State, a: Id, b: Id)
    requires LeftInOrder(s) && UpstreamKept(s, t) && Cleared(s, a) && G.Reaches(Dependencies(t), a, b)
    ensures G.Reaches(Dependencies(s), a, b)
  {
    var p :| G.Path(Dependencies(t), p) && |p| > 1 && p[0] == a && p[|p| - 1] == b;
    PathsKept(s, t, p);
  }

  lemma OrderCarriesOver(s: State, t: State)
    requires OrderInv(s) && UpstreamKept(s, t) && t.calls == s.calls
    ensures CallsInOrder(t)
  {
    forall i, j | 0 <= i < j < |t.calls|
      ensures !G.Reaches(Dependencies(t), t.calls[i].key.action, t.calls[j].key.action)
    {
      if G.Reaches(Dependencies(t), t.calls[i].key.action, t.calls[j].key.action) {
        ReachKept(s, t, t.calls[i].key.action, t.calls[j].key.action);
        assert false;
      }
    }
  }

  lemma NewCallInOrder(s: State, t: State, call: AdapterCall)
    requires OrderInv(s) && t.rows == s.rows && t.calls == s.calls + [call]
    requires !Is(s, call.key.action, Completed)
    ensures CallsInOrder(t)
  {
    forall i, j | 0 <= i < j < |t.calls|
      ensures !G.Reaches(Dependencies(t), t.calls[i].key.action, t.calls[j].key.action)
    {
      var a, b := t.calls[i].key.action, t.calls[j].key.action;
      assert a == s.calls[i].key.action;
      if j < |s.calls| {
        assert b == s.calls[j].key.action;
      } else if G.Reaches(Dependencies(t), a, b) {
        var p :| G.Path(Dependencies(t), p) && |p| > 1 && p[0] == a && p[|p| - 1] == b;
        UpstreamCompleted(s, p);
        assert false;
      }
    }
  }

  // ------------------------------------------------------ steps of one worker

  /** COMPLETED is kept, and only a cleared action is found off VALIDATED. */
  ghost predicate StatusesMove(s: State, t: State) {
    forall a | a in s.rows ::
      && a in t.rows
      && (Is(s, a, Completed) ==> Is(t, a, Completed))
      && (t.rows[a].action.status != Validated ==> Cleared(s, a))
  }

  /** The rows an upsert writes: its own, with the target's status. */
  lemma UpsertWritesOne(cfg: Config, s: State, w: Id)
    ensures var pc, t := At(s, w), StepUpsertPut(cfg, s, w);
            || t.rows == s.rows
            || (&& pc.UpsertWrite? && pc.a in t.rows && t.rows == s.rows[pc.a := t.rows[pc.a]]
                && t.rows[pc.a].action.status == pc.target.status
                && (pc.a in s.rows ==> pc.seen.Some? && s.rows[pc.a].version == pc.seen.value.version))
  {
    hide Resume, Concluded, H.Bounded, H.Fits;
  }

  lemma UpsertMoves(cfg: Config, s: State, w: Id)
    requires Inv(cfg, s) && PcFaithful(s.rows, At(s, w)) && LeftInOrder(s) && PcOrdered(s, At(s, w))
    ensures StatusesMove(s, StepUpsertPut(cfg, s, w))
  {
    Steps.AtInv(cfg, s, w);
    UpsertWritesOne(cfg, s, w);
    var pc, t := At(s, w), StepUpsertPut(cfg, s, w);
    hide Inv, AfterOk, AfterHolds, TargetOk, LeftInOrder, StatusesMove, Cleared, StepUpsertPut, Modest;
    if t.rows != s.rows { OneRowMoves(s, t, pc.a); } else { NoRowMoves(s, t); }
  }

  /** One row moved, and it may. */
  lemma OneRowMoves(s: State, t: State, a: Id)
    requires LeftInOrder(s) && a in s.rows && a in t.rows && t.rows == s.rows[a := t.rows[a]]
    requires !Is(s, a, Completed) && (t.rows[a].action.status == Validated || Cleared(s, a))
    ensures StatusesMove(s, t)
  {
  }

  lemma NoRowMoves(s: State, t: State)
    requires LeftInOrder(s) && t.rows == s.rows
    ensures StatusesMove(s, t)
  {
  }

  lemma RetryWritesOne(cfg: Config, s: State, step: Step)
    requires step.RetryPut?
    ensures var pc, t := At(s, step.w), StepRetry(cfg, s, step.w, step);
            || t.rows == s.rows
            || (&& pc.RetryWrite? && pc.a in s.rows && pc.a in t.rows && s.rows[pc.a].version == pc.base.version
                && t.rows == s.rows[pc.a := t.rows[pc.a]] && t.rows[pc.a].action.status == Validated)
  {
    hide R.Evaluate, Retryable;
  }

  lemma ReconcileWritesOne(s: State, step: Step)
    requires step.ReconcilePut?
    ensures var pc, t := At(s, step.w), StepReconcile(s, step.w, step);
            || t.rows == s.rows
            || (&& pc.ReconcileWrite? && pc.a in s.rows && pc.a in t.rows && s.rows[pc.a].version == pc.base.version
                && t.rows == s.rows[pc.a := t.rows[pc.a]] && t.rows[pc.a].action.status == pc.goal)
  {
    hide CanTransition, InProgress;
  }

  lemma RetryMoves(cfg: Config, s: State, step: Step)
    requires Inv(cfg, s) && LeftInOrder(s) && step.RetryPut?
    ensures StatusesMove(s, StepRetry(cfg, s, step.w, step))
  {
    Steps.WriterKnows(cfg, s, step.w);
    RetryWritesOne(cfg, s, step);
    hide Inv, NeedsApproval, LeftInOrder, StatusesMove, StepRetry;
    var pc, t := At(s, step.w), StepRetry(cfg, s, step.w, step);
    if t.rows != s.rows { OneRowMoves(s, t, pc.a); } else { NoRowMoves(s, t); }
  }

  lemma ReconcileMoves(cfg: Config, s: State, step: Step)
    requires Inv(cfg, s) && LeftInOrder(s) && step.ReconcilePut?
    ensures StatusesMove(s, StepReconcile(s, step.w, step))
  {
    hide Inv, NeedsApproval, StatusesMove, Cleared;
    Steps.WriterKnows(cfg, s, step.w);
    var pc, t := At(s, step.w), StepReconcile(s, step.w, step);
    if pc.ReconcileWrite? && t.rows != s.rows { OneRowMoves(s, t, pc.a); } else { NoRowMoves(s, t); }
  }

  lemma StepMoves(cfg: Config, s: State, step: Step)
    requires Inv(cfg, s) && Faithful(s) && OrderInv(s) && !Replans(step)
    ensures StatusesMove(s, Next(cfg, s, step))
  {
    hide Next;
    if step.UpsertPut? {
      Steps.NextUpsert(cfg, s, step);
      assert PcOrdered(s, At(s, step.w)) && PcFaithful(s.rows, At(s, step.w));
      UpsertMoves(cfg, s, step.w);
    } else if step.RetryPut? {
      Steps.NextRetry(cfg, s, step);
      RetryMoves(cfg, s, step);
    } else if step.ReconcilePut? {
      Steps.NextReconcile(cfg, s, step);
      ReconcileMoves(cfg, s, step);
    } else {
      RowsUntouched(cfg, s, step);
    }
  }

  /** Where a worker's own step takes it: on with the same action, or it starts. */
  predicate Continues(pc: Pc, next: Pc) {
    || !Busy(next)
    || next == pc
    || (Busy(pc) && !Working(next) && !next.PatchWrite? && !next.Freezing?)
    || (Working(pc) && Working(next) && next.a == pc.a && (MayCall(next) ==> MayCall(pc)))
  }

  predicate Starts(step: Step) {
    step.Begin? || step.Interrupted? || step.ReconcileGet? || step.AddAction? || step.PatchGet? || step.RefreezeGet?
  }

  lemma ResumeContinues(a: Id, after: After, row: Row, pc: Pc)
    requires (pc.UpsertRead? || pc.UpsertWrite? || pc.UpsertReload?) && pc.a == a && pc.after == after
    ensures Continues(pc, Resume(a, after, row))
  {
  }

  lemma UpsertContinues(cfg: Config, s: State, w: Id)
    ensures Continues(At(s, w), At(StepUpsertGet(s, w), w))
    ensures Continues(At(s, w), At(StepUpsertPut(cfg, s, w), w))
    ensures Continues(At(s, w), At(StepUpsertGot(s, w), w))
  {
    var pc := At(s, w);
    if pc.UpsertRead? || pc.UpsertWrite? || pc.UpsertReload? {
      forall row ensures Continues(pc, Resume(pc.a, pc.after, row)) {
        ResumeContinues(pc.a, pc.after, row, pc);
      }
    }
    hide Resume, LeavesAlone;
  }

  lemma RetryContinues(cfg: Config, s: State, step: Step)
    requires step.Recover? || step.RetryGet? || step.RetryPut?
    ensures Continues(At(s, step.w), At(StepRetry(cfg, s, step.w, step), step.w))
  {
    hide R.Evaluate, Retryable;
  }

  lemma DecideContinues(s: State, step: Step)
    requires step.DecideGet? || step.DecidePut?
    ensures Continues(At(s, step.w), At(StepDecide(s, step), step.w))
  {
  }

  lemma RecoveryContinues(cfg: Config, s: State, step: Step)
    requires step.Recover? || step.RetryGet? || step.RetryPut? || step.ReconcilePut? || step.RefreezePut?
             || step.DecideGet? || step.DecidePut? || step.Crash?
    ensures Continues(At(s, step.w), At(Next(cfg, s, step), step.w))
  {
    hide Next;
    if step.Recover? || step.RetryGet? || step.RetryPut? {
      Steps.NextRetry(cfg, s, step);
      hide StepRetry;
      RetryContinues(cfg, s, step);
    } else if step.ReconcilePut? {
      Steps.NextReconcile(cfg, s, step);
    } else if step.DecideGet? || step.DecidePut? {
      Steps.NextDecide(cfg, s, step);
      hide StepDecide;
      DecideContinues(s, step);
    } else if step.RefreezePut? {
      Steps.NextRefreeze(cfg, s, step);
    } else {
      Steps.NextCrash(cfg, s, step);
    }
  }

  lemma FollowsContinues(pc: Pc, next: Pc)
    requires Follows(pc, next)
    ensures Continues(pc, next)
  {
  }

  lemma OwnContinues(cfg: Config, s: State, step: Step)
    requires Inv(cfg, s) && !Replans(step) && !Starts(step)
    ensures Continues(At(s, Steps.Actor(step)), At(Next(cfg, s, step), Steps.Actor(step)))
  {
    hide Next, Inv, PcInv, StepLoaded, StepUpsertGet, StepUpsertPut, StepUpsertGot, Follows, Continues;
    var w := Steps.Actor(step);
    if Advances(step) {
      Steps.NextLoaded(cfg, s, step);
      AdvanceFollows(cfg, s, step);
      FollowsContinues(At(s, w), At(Next(cfg, s, step), w));
    } else if Gates(step) {
      Steps.AtInv(cfg, s, w);
      GateFollows(cfg, s, step);
      FollowsContinues(At(s, w), At(Next(cfg, s, step), w));
    } else if Executes(step) {
      ExecuteFollows(cfg, s, step);
      FollowsContinues(At(s, w), At(Next(cfg, s, step), w));
    } else if Upserts(step) {
      Steps.NextUpsert(cfg, s, step);
      UpsertContinues(cfg, s, w);
    } else if step.LedgerStep? || step.TouchPlan? {
      WorkersUntouched(cfg, s, step);
      FollowsContinues(At(s, w), At(s, w));
    } else {
      RecoveryContinues(cfg, s, step);
    }
  }

  lemma UpsertOpens(cfg: Config, s: State, w: Id)
    requires PcFaithful(s.rows, At(s, w))
    ensures var pc := At(s, w);
            Working(pc) && MayCall(pc) && !Is(s, pc.a, Completed) ==> !Is(StepUpsertPut(cfg, s, w), pc.a, Completed)
    ensures !Busy(At(s, w)) || At(s, w).PatchWrite? || At(s, w).Freezing? ==> StepUpsertPut(cfg, s, w).rows == s.rows
  {
    hide Resume;
  }

  /** An action whose adapter may still be called stays open, and a worker that is
      on no action changes no row. */
  lemma OpenStays(cfg: Config, s: State, step: Step)
    requires PcFaithful(s.rows, At(s, Steps.Actor(step))) && !Replans(step)
    ensures var pc := At(s, Steps.Actor(step));
            && (Working(pc) && MayCall(pc) && !Is(s, pc.a, Completed) ==> !Is(Next(cfg, s, step), pc.a, Completed))
            && (!Busy(pc) || pc.PatchWrite? || pc.Freezing? ==> Next(cfg, s, step).rows == s.rows)
  {
    hide Next;
    if step.UpsertPut? {
      Steps.NextUpsert(cfg, s, step);
      hide StepUpsertPut;
      UpsertOpens(cfg, s, step.w);
    } else if step.RetryPut? {
      Steps.NextRetry(cfg, s, step);
    } else if step.ReconcilePut? {
      Steps.NextReconcile(cfg, s, step);
    } else {
      RowsUntouched(cfg, s, step);
    }
  }

  lemma NoCall(cfg: Config, s: State, step: Step)
    requires !step.CallAdapter?
    ensures Next(cfg, s, step).calls == s.calls
  {
    hide Next;
    OnlyWritersWrite(cfg, s, step);
  }

  /** The one step that calls an adapter does it for an open, cleared action. */
  lemma CallIsCleared(cfg: Config, s: State, step: Step)
    requires Inv(cfg, s) && OrderInv(s) && step.CallAdapter?
    ensures Next(cfg, s, step).rows == s.rows
    ensures Next(cfg, s, step).calls == s.calls
            || exists call ::
                Next(cfg, s, step).calls == s.calls + [call] && Cleared(s, call.key.action)
                    && !Is(s, call.key.action, Completed)
  {
    hide Next;
    hide Inv, OrderInv, CtxOk;
    Steps.AtInv(cfg, s, step.w);
    assert PcOrdered(s, At(s, step.w)) by { WorkerOrdered(s, step.w); }
    Steps.NextCall(cfg, s, step);
    CallOfCleared(cfg, s, step.w, step.success);
  }

  lemma WorkerOrdered(s: State, w: Id)
    requires OrderInv(s)
    ensures PcOrdered(s, At(s, w))
  {
  }

  lemma CallOfCleared(cfg: Config, s: State, w: Id, success: bool)
    requires PcInv(cfg, s, w, At(s, w)) && PcOrdered(s, At(s, w))
    ensures StepCall(s, w, success).rows == s.rows
    ensures StepCall(s, w, success).calls == s.calls
            || exists call ::
                StepCall(s, w, success).calls == s.calls + [call] && Cleared(s, call.key.action)
                    && !Is(s, call.key.action, Completed)
  {
    hide CtxOk;
    var pc := At(s, w);
    if pc.Calling? {
      var call := AdapterCall(pc.attempt, pc.key, pc.ctx.paid, pc.ctx.grant);
      assert StepCall(s, w, success).calls == s.calls + [call];
    }
  }

  // --------------------------------------------------------------- the theorem

  lemma ClearedStays(s: State, t: State, a: Id)
    requires SameDeps(s, t) && StatusesMove(s, t) && Cleared(s, a)
    ensures Cleared(t, a)
  {
  }

  /** One worker moved and the others did not. */
  ghost predicate OneMoved(s: State, t: State, actor: Id) {
    var pc := At(s, actor);
    && (forall v | v != actor :: At(t, v) == At(s, v))
    && Continues(pc, At(t, actor))
    && (Working(pc) && MayCall(pc) && !Is(s, pc.a, Completed) ==> !Is(t, pc.a, Completed))
    && (!Busy(pc) || pc.PatchWrite? || pc.Freezing? ==> t.rows == s.rows)
  }

  lemma StepIsOneMove(cfg: Config, s: State, step: Step)
    requires Inv(cfg, s) && Faithful(s) && !Replans(step) && !Starts(step)
    ensures OneMoved(s, Next(cfg, s, step), Steps.Actor(step))
  {
    Steps.StepKeepsInv(cfg, s, step);
    assert PcFaithful(s.rows, At(s, Steps.Actor(step)));
    OpenStays(cfg, s, step);
    OwnContinues(cfg, s, step);
    hide Next, Inv, Continues;
  }

  lemma OthersQuiet(s: State, v: Id, w: Id)
    requires OneBusy(s) && v != w && Busy(At(s, v))
    ensures !Busy(At(s, w))
  {
  }

  lemma WorkersOrdered(s: State, t: State, actor: Id)
    requires OneBusy(s) && StatusesMove(s, t) && SameDeps(s, t) && OneMoved(s, t, actor)
    requires forall w :: PcOrdered(s, At(s, w))
    ensures forall w :: PcOrdered(t, At(t, w))
  {
    forall w
      ensures PcOrdered(t, At(t, w))
    {
      var pc := At(t, w);
      assert PcOrdered(s, At(s, w)) && PcOrdered(s, At(s, actor));
      if w != actor && Busy(pc) { OthersQuiet(s, w, actor); }
      if Working(pc) { ClearedStays(s, t, pc.a); }
    }
  }

  lemma OneStaysBusy(s: State, t: State, actor: Id)
    requires OneBusy(s) && (forall v | v != actor :: At(t, v) == At(s, v))
    requires (Busy(At(t, actor)) ==> Busy(At(s, actor)) || Quiet(s))
    ensures OneBusy(t)
  {
    forall v, w | v in t.workers && w in t.workers && v != w
      ensures !Busy(t.workers[v]) || !Busy(t.workers[w])
    {
      assert At(t, v) == t.workers[v] && At(t, w) == t.workers[w];
      if v == actor { assert At(t, w) == At(s, w); }
      if w == actor { assert At(t, v) == At(s, v); }
      assert v != actor ==> At(t, v) == At(s, v);
      assert w != actor ==> At(t, w) == At(s, w);
    }
  }

  /** Steps that neither take up new work nor replan. */
  lemma OngoingStepOrdered(cfg: Config, s: State, step: Step)
    requires Inv(cfg, s) && Faithful(s) && OrderInv(s) && !Replans(step) && !Starts(step)
    ensures OrderInv(Next(cfg, s, step))
  {
    hide Next, Inv;
    var t, actor := Next(cfg, s, step), Steps.Actor(step);
    StepMoves(cfg, s, step);
    StepFaithful(cfg, s, step);
    StepIsOneMove(cfg, s, step);
    forall w ensures PcOrdered(s, At(s, w)) {}
    WorkersOrdered(s, t, actor);
    OneStaysBusy(s, t, actor);
    CallsOrdered(cfg, s, step);
    hide Next, Inv, Faithful, PcOrdered, OneMoved;
    assert LeftInOrder(t) by {
      forall a | a in t.rows && t.rows[a].action.status != Validated ensures Cleared(t, a) { ClearedStays(s, t, a); }
    }
    forall w | w in t.workers ensures PcOrdered(t, t.workers[w]) { assert At(t, w) == t.workers[w]; }
  }

  lemma CallsOrdered(cfg: Config, s: State, step: Step)
    requires Inv(cfg, s) && OrderInv(s) && SameDeps(s, Next(cfg, s, step)) && StatusesMove(s, Next(cfg, s, step))
    ensures CallsInOrder(Next(cfg, s, step))
    ensures var t := Next(cfg, s, step); forall i | 0 <= i < |t.calls| :: Cleared(t, t.calls[i].key.action)
  {
    hide Next, Inv;
    var t := Next(cfg, s, step);
    if step.CallAdapter? {
      CallIsCleared(cfg, s, step);
      if t.calls != s.calls {
        var call :| t.calls == s.calls + [call] && Cleared(s, call.key.action) && !Is(s, call.key.action, Completed);
        NewCallInOrder(s, t, call);
      } else {
        OrderCarriesOver(s, t);
      }
    } else {
      NoCall(cfg, s, step);
      OrderCarriesOver(s, t);
    }
    forall i | 0 <= i < |t.calls|
      ensures Cleared(t, t.calls[i].key.action)
    {
      ClearedStays(s, t, t.calls[i].key.action);
    }
  }

  /** Work is taken up: nothing but one worker's position changes. */
  ghost predicate TakenUp(s: State, t: State, actor: Id) {
    && t.rows == s.rows && t.calls == s.calls
    && (forall v | v != actor :: At(t, v) == At(s, v))
    && (At(t, actor) == At(s, actor) || (Quiet(s) && Busy(At(t, actor))))
    && PcOrdered(s, At(t, actor)) && PcFaithful(s.rows, At(t, actor))
  }

  lemma TakenUpOrdered(s: State, t: State, actor: Id)
    requires Faithful(s) && OrderInv(s) && TakenUp(s, t, actor)
    ensures Faithful(t) && OrderInv(t)
  {
    OneStaysBusy(s, t, actor);
    OrderCarriesOver(s, t);
    forall w | w in t.workers ensures PcOrdered(t, t.workers[w]) && PcFaithful(t.rows, t.workers[w]) {
      assert At(t, w) == t.workers[w];
      if w != actor { assert At(t, w) == At(s, w); }
    }
    forall i | 0 <= i < |t.calls| ensures Cleared(t, t.calls[i].key.action) {
      assert Cleared(s, s.calls[i].key.action);
    }
  }

  lemma ReadyIsCleared(s: State, a: Id)
    requires OrderInv(s) && a in s.rows
    requires E.Evaluate(s.rows[a].action.status, s.rows[a].action.deps, Statuses(s)) in
              {E.Eligibility.Ready, E.Eligibility.WaitingForApproval}
    ensures Cleared(s, a) && !Is(s, a, Completed)
  {
    E.ReadyIff(s.rows[a].action.status, s.rows[a].action.deps, Statuses(s));
    hide PcOrdered, CallsInOrder, OneBusy;
  }

  lemma IdleOrdered(s: State, w: Id)
    requires Faithful(s) && OrderInv(s)
    ensures PcOrdered(s, At(s, w)) && PcFaithful(s.rows, At(s, w))
  {
  }

  /** A worker goes where it may while nobody is on an action, or nothing happens. */
  lemma TakesUp(s: State, w: Id, pc: Pc)
    requires Faithful(s) && OrderInv(s)
    ensures TakenUp(s, s, w)
    ensures Quiet(s) && Busy(pc) && PcOrdered(s, pc) && PcFaithful(s.rows, pc) ==> TakenUp(s, Go(s, w, pc), w)
  {
    IdleOrdered(s, w);
    hide Faithful, OrderInv, Quiet, Busy, PcOrdered, PcFaithful;
  }

  lemma BeginTakesUp(cfg: Config, s: State, step: Step)
    requires Faithful(s) && OrderInv(s) && Sequential(s, step) && step.Begin?
    ensures TakenUp(s, Next(cfg, s, step), step.w)
  {
    ReadyIsCleared(s, step.a);
    TakesUp(s, step.w, Loaded(step.a, s.rows[step.a].action));
    hide Next, Cleared, OrderInv, Faithful, TakenUp, E.Evaluate;
    Steps.NextBegin(cfg, s, step);
  }

  lemma RetryTakesUp(cfg: Config, s: State, step: Step)
    requires Faithful(s) && OrderInv(s) && Quiet(s) && step.Interrupted?
    ensures TakenUp(s, StepRetry(cfg, s, step.w, step), step.w)
  {
    hide OrderInv, Faithful, TakenUp;
    TakesUp(s, step.w, At(StepRetry(cfg, s, step.w, step), step.w));
  }

  lemma ReconcileTakesUp(s: State, step: Step)
    requires Faithful(s) && OrderInv(s) && Quiet(s) && step.ReconcileGet?
    ensures TakenUp(s, StepReconcile(s, step.w, step), step.w)
  {
    hide OrderInv, Faithful, TakenUp, CanTransition;
    TakesUp(s, step.w, At(StepReconcile(s, step.w, step), step.w));
  }

  lemma RefreezeTakesUp(cfg: Config, s: State, step: Step)
    requires Faithful(s) && OrderInv(s) && Quiet(s) && step.RefreezeGet?
    ensures TakenUp(s, StepRefreeze(cfg, s, step), step.w)
  {
    hide OrderInv, Faithful, TakenUp, PlanHashOf, Loadable;
    TakesUp(s, step.w, Freezing(PlanHashOf(cfg, s.rows), s.plan.version));
  }

  lemma RecoveryTakesUp(cfg: Config, s: State, step: Step)
    requires Faithful(s) && OrderInv(s) && Sequential(s, step)
    requires (step.Interrupted? || step.ReconcileGet? || step.RefreezeGet?)
    ensures TakenUp(s, Next(cfg, s, step), step.w)
  {
    assert Quiet(s);
    hide Next, StepRetry, StepReconcile, StepRefreeze, TakenUp, OrderInv, Faithful, Quiet, Sequential;
    if step.RefreezeGet? {
      Steps.NextRefreeze(cfg, s, step);
      RefreezeTakesUp(cfg, s, step);
    } else if step.Interrupted? {
      Steps.NextRetry(cfg, s, step);
      RetryTakesUp(cfg, s, step);
    } else {
      Steps.NextReconcile(cfg, s, step);
      ReconcileTakesUp(s, step);
    }
  }

  lemma PatchTakesUp(cfg: Config, s: State, step: Step)
    requires Faithful(s) && OrderInv(s) && Sequential(s, step) && step.PatchGet?
    ensures TakenUp(s, Next(cfg, s, step), step.w)
  {
    hide Next, OrderInv, Faithful, TakenUp;
    Steps.NextReplan(cfg, s, step);
    if step.a in s.rows { TakesUp(s, step.w, PatchWrite(step.a, s.rows[step.a], step.patch)); }
    TakesUp(s, step.w, Idle);
  }

  /** A replan write changes one action that nobody is on and nothing cleared
      relies on, or inserts a fresh one. */
  ghost predicate Replanned(s: State, t: State, a: Id) {
    && t.calls == s.calls
    && a in t.rows && (a in s.rows || t.rows[a].action.status == Validated)
    && t.rows == s.rows[a := t.rows[a]]
    && (a in s.rows ==> t.rows[a].action.status == s.rows[a].action.status)
    && (a in s.rows && t.rows[a].action.deps != s.rows[a].action.deps ==> !Cleared(s, a))
    && (forall w :: At(t, w) == At(s, w) || At(t, w).Idle?)
    && forall w :: !Busy(At(t, w))
  }

  lemma ReplannedOrdered(s: State, t: State, a: Id)
    requires Faithful(s) && OrderInv(s) && Replanned(s, t, a)
    ensures Faithful(t) && OrderInv(t)
  {
    assert forall b | b in s.rows && Cleared(s, b) :: Cleared(t, b);
    assert UpstreamKept(s, t);
    OrderCarriesOver(s, t);
    forall w | w in t.workers ensures !Busy(t.workers[w]) { assert At(t, w) == t.workers[w]; }
    forall i | 0 <= i < |t.calls| ensures Cleared(t, t.calls[i].key.action) {
      assert Cleared(s, s.calls[i].key.action);
    }
  }

  lemma InsertReplans(s: State, a: Id, action: Action)
    requires OrderInv(s) && Quiet(s) && a !in s.rows && action.status == Validated
    ensures Replanned(s, s.(rows := s.rows[a := Row(action, 1)]), a)
  {
  }

  lemma PatchKnows(s: State, w: Id)
    requires OrderInv(s)
    ensures PcOrdered(s, At(s, w)) && (At(s, w).PatchWrite? ==> forall v | v != w :: !Busy(At(s, v)))
  {
    assert PcOrdered(s, At(s, w));
    forall v | v != w && At(s, w).PatchWrite? ensures !Busy(At(s, v)) { OthersQuiet(s, w, v); }
  }

  lemma WrittenReplans(s: State, w: Id, a: Id, action: Action, version: nat)
    requires OrderInv(s) && a in s.rows && action.status == s.rows[a].action.status
    requires action.deps != s.rows[a].action.deps ==> !Cleared(s, a)
    requires forall v | v != w :: !Busy(At(s, v))
    ensures Replanned(s, Go(s.(rows := s.rows[a := Row(action, version)]), w, Idle), a)
  {
    hide OrderInv, Cleared;
  }

  /** A rewired action still depends on one that failed. */
  lemma RewiredIsOpen(s: State, pc: Pc)
    requires pc.PatchWrite? && PcOrdered(s, pc)
    ensures pc.a in s.rows && Patched(s.rows[pc.a].action, pc.patch).status == s.rows[pc.a].action.status
    ensures Patched(s.rows[pc.a].action, pc.patch).deps != s.rows[pc.a].action.deps ==> !Cleared(s, pc.a)
  {
  }

  lemma PatchReplans(cfg: Config, s: State, step: Step)
    requires OrderInv(s) && step.PatchPut?
    ensures StepReplan(cfg, s, step) == s || StepReplan(cfg, s, step) == Go(s, step.w, Idle) || exists a ::
              Replanned(s, StepReplan(cfg, s, step), a)
  {
    var w := step.w;
    var pc := At(s, w);
    PatchKnows(s, w);
    hide OrderInv, Replanned, Cleared, Patched;
    if pc.PatchWrite? {
      RewiredIsOpen(s, pc);
      WrittenReplans(s, w, pc.a, Patched(s.rows[pc.a].action, pc.patch), pc.base.version + 1);
    }
  }

  lemma PersistKeepsStatus(cfg: Config, action: Action)
    ensures Persist(cfg, action).status == action.status
  {
  }

  lemma ReplanStep(cfg: Config, s: State, step: Step)
    requires OrderInv(s) && Sequential(s, step) && (step.AddAction? || step.PatchPut?)
    ensures Next(cfg, s, step) == s
            || (step.PatchPut? && Next(cfg, s, step) == Go(s, step.w, Idle))
            || exists a :: Replanned(s, Next(cfg, s, step), a)
  {
    hide Next;
    Steps.NextReplan(cfg, s, step);
    if step.AddAction? {
      hide Replanned, OrderInv, Persist;
      if StepReplan(cfg, s, step) != s {
        assert StepReplan(cfg, s, step) == s.(rows := s.rows[step.a := Row(Persist(cfg, step.action), 1)]);
        assert Persist(cfg, step.action).status == Validated by { PersistKeepsStatus(cfg, step.action); }
        InsertReplans(s, step.a, Persist(cfg, step.action));
      }
    } else {
      hide StepReplan, Replanned, OrderInv;
      PatchReplans(cfg, s, step);
    }
  }

  /** Each step of a sequential history keeps the order. */
  lemma StepOrdered(cfg: Config, s: State, step: Step)
    requires Inv(cfg, s) && Faithful(s) && OrderInv(s) && Sequential(s, step)
    ensures Faithful(Next(cfg, s, step)) && OrderInv(Next(cfg, s, step))
  {
    hide Next, Inv, Faithful, OrderInv, Sequential, TakenUp, Replanned;
    var t := Next(cfg, s, step);
    if step.Begin? {
      BeginTakesUp(cfg, s, step);
      TakenUpOrdered(s, t, step.w);
    } else if step.Interrupted? || step.ReconcileGet? || step.RefreezeGet? {
      RecoveryTakesUp(cfg, s, step);
      TakenUpOrdered(s, t, step.w);
    } else if step.PatchGet? {
      PatchTakesUp(cfg, s, step);
      TakenUpOrdered(s, t, step.w);
    } else if step.AddAction? || step.PatchPut? {
      ReplanStep(cfg, s, step);
      if a :| Replanned(s, t, a) {
        ReplannedOrdered(s, t, a);
      } else if step.PatchPut? && t == Go(s, step.w, Idle) {
        Dropped(s, step.w);
      }
    } else {
      StepFaithful(cfg, s, step);
      OngoingStepOrdered(cfg, s, step);
    }
  }

  lemma Dropped(s: State, w: Id)
    requires Faithful(s) && OrderInv(s)
    ensures Faithful(Go(s, w, Idle)) && OrderInv(Go(s, w, Idle))
  {
    var t := Go(s, w, Idle);
    assert Dependencies(t) == Dependencies(s);
    forall i | 0 <= i < |t.calls| ensures Cleared(t, t.calls[i].key.action) {
      assert Cleared(s, s.calls[i].key.action);
    }
  }

  lemma {:induction false} SequentialRunsOrdered(cfg: Config, s: State, steps: seq<Step>)
    requires Inv(cfg, s) && Faithful(s) && OrderInv(s) && SequentialRun(cfg, s, steps)
    ensures Faithful(Exec(cfg, s, steps)) && OrderInv(Exec(cfg, s, steps))
    decreases |steps|
  {
    if steps != [] {
      var before := steps[..|steps| - 1];
      SequentialRunsOrdered(cfg, s, before);
      Steps.RunsKeepInv(cfg, s, before);
      StepOrdered(cfg, Exec(cfg, s, before), steps[|steps| - 1]);
    }
  }

  /** Dependency order. After any sequential history from a freshly persisted plan, an
      action that has left VALIDATED, or whose adapter has ever been called, has
      everything upstream of it COMPLETED, and no adapter call comes after a call
      of an action that depends on it, directly or not. */
  lemma DependencyOrder(cfg: Config, s: State, steps: seq<Step>)
    requires Init(cfg, s) && SequentialRun(cfg, s, steps)
    ensures var t := Exec(cfg, s, steps);
            && (forall a, d | a in t.rows && t.rows[a].action.status != Validated && G.Reaches(Dependencies(t), a, d) ::
                Is(t, d, Completed))
            && (forall i, d | 0 <= i < |t.calls| && G.Reaches(Dependencies(t), t.calls[i].key.action, d) ::
                Is(t, d, Completed))
            && CallsInOrder(t)
  {
    var t := Exec(cfg, s, steps);
    Steps.InitInv(cfg, s);
    SequentialRunsOrdered(cfg, s, steps);
    hide Exec, Init, Inv;
    forall a, d | Cleared(t, a) && G.Reaches(Dependencies(t), a, d)
      ensures Is(t, d, Completed)
    {
      var p :| G.Path(Dependencies(t), p) && |p| > 1 && p[0] == a && p[|p| - 1] == d;
      UpstreamCompleted(t, p);
    }
  }
}
