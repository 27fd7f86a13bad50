/** Which status changes overlapping workers can store. The lease makes histories
    sequential; where it does not hold, two workers may be on one action, and the
    writes are then guarded by versions and ranks only. */
module ProtocolOverlap {
  import opened Domain
  import H = PlanHash
  import opened Protocol
  import opened ProtocolSafety
  import Steps = ProtocolSteps
  import opened ProtocolTheorems
  import opened ProtocolHops

  /** What the guard of an upsert lets through: an open row goes up the happy path, to a
      status the executor or a gate writes, or ends. */
  predicate Overwrites(before: ActionStatus, after: ActionStatus) {
    !Outranks(before, after) && after !in {Planned, Validated, VerificationFailed}
  }

  /** Whatever the interleaving, every change of an action's stored status is an
      authorized retry or one the guard lets through. */
  lemma OverlappingStores(cfg: Config, s: State, step: Step, a: Id)
    requires Inv(cfg, s) && a in s.rows
    ensures a in Next(cfg, s, step).rows
    ensures var before, after := s.rows[a].action.status, Next(cfg, s, step).rows[a].action.status;
            || before == after
            || (step.RetryPut? && RetrySource(before) && after == Validated)
            || Overwrites(before, after)
  {
    hide Next, Inv, PcInv, StepUpsertPut, StepRetry, StepReconcile, StepReplan;
    StepProgresses(cfg, s, step, a);
    if step.UpsertPut? {
      Steps.NextUpsert(cfg, s, step);
      UpsertStores(cfg, s, step.w, a);
    } else if step.RetryPut? {
    } else if step.ReconcilePut? {
      Steps.NextReconcile(cfg, s, step);
      ReconcileStores(cfg, s, step, a);
    } else if step.AddAction? || step.PatchPut? {
      Steps.NextReplan(cfg, s, step);
      ReplanStores(cfg, s, step, a);
    } else {
      RowsUntouched(cfg, s, step);
    }
  }

  lemma UpsertStores(cfg: Config, s: State, w: Id, a: Id)
    requires Inv(cfg, s) && a in s.rows
    ensures var t := StepUpsertPut(cfg, s, w);
            && a in t.rows
            && (t.rows[a] == s.rows[a] || t.rows[a].action.status !in {Planned, Validated, VerificationFailed})
  {
    hide Inv, Verdict, AfterOk, Resume, H.Bounded, H.Fits;
    Steps.AtInv(cfg, s, w);
  }

  lemma ReconcileStores(cfg: Config, s: State, step: Step, a: Id)
    requires Inv(cfg, s) && a in s.rows && step.ReconcilePut?
    ensures var t := StepReconcile(s, step.w, step);
            && a in t.rows
            && (t.rows[a] == s.rows[a] || t.rows[a].action.status !in {Planned, Validated, VerificationFailed})
  {
    hide Inv, NeedsApproval, CanTransition;
    Steps.WriterKnows(cfg, s, step.w);
  }

  lemma ReplanStores(cfg: Config, s: State, step: Step, a: Id)
    requires a in s.rows && (step.AddAction? || step.PatchPut?)
    ensures var t := StepReplan(cfg, s, step);
            a in t.rows && t.rows[a].action.status == s.rows[a].action.status
  {
    hide Persist;
  }

  /** And the guard is all there is: an upsert that nobody disturbs stores its target
      exactly where the stored status does not outrank it, hop or not. */
  lemma UndisturbedUpsertStores(cfg: Config, s: State, w: Id)
    requires At(s, w).UpsertRead? && At(s, w).a in s.rows
    requires At(s, w).target.payload.inputs.jsonChars <= H.MAX_INPUTS_JSON_CHARS
    ensures var pc, t := At(s, w), Next(cfg, Next(cfg, s, UpsertGet(w)), UpsertPut(w));
            var before := s.rows[pc.a].action.status;
            && pc.a in t.rows
            && t.rows[pc.a].action.status == if Outranks(before, pc.target.status) then before else pc.target.status
  {
    hide Next;
    var pc, read := At(s, w), Next(cfg, s, UpsertGet(w));
    Steps.NextUpsert(cfg, s, UpsertGet(w));
    Steps.NextUpsert(cfg, read, UpsertPut(w));
    if Outranks(s.rows[pc.a].action.status, pc.target.status) {
      NotWriting(pc.a, pc.after, s.rows[pc.a]);
    }
    hide Resume, Concluded, Outranks, H.Bounded, H.Fits;
  }

  lemma NotWriting(a: Id, after: After, row: Row)
    ensures !Resume(a, after, row).UpsertWrite?
  {
  }

  /** The guard does let a third shape through. Two workers are past the approval gate of
      one action, and one of them has consumed the approval and come to VERIFYING. The
      other finds the approval used, and fails the action: CANCELLED stands where
      VERIFYING stood, which is no hop, and the winner's effect has been made. */
  lemma LoserCancels(cfg: Config, s: State, w: Id, now: int)
    requires var pc := At(s, w);
             && pc.Consuming? && pc.ctx.action.status == ActionStatus.Approved
             && pc.ctx.action.payload.inputs.jsonChars <= H.MAX_INPUTS_JSON_CHARS
             && pc.request in s.approvals && s.approvals[pc.request].consumed
             && pc.a in s.rows && s.rows[pc.a].action.status == Verifying
    ensures var a, t := At(s, w).a, Next(cfg, Next(cfg, Next(cfg, s, Consume(w, now)), UpsertGet(w)), UpsertPut(w));
            && a in t.rows && t.rows[a].action.status == Cancelled
            && !Hop(s.rows[a].action.status, t.rows[a].action.status)
            && Overwrites(s.rows[a].action.status, t.rows[a].action.status)
  {
    hide Next;
    var pc, lost := At(s, w), Next(cfg, s, Consume(w, now));
    Steps.NextGate(cfg, s, Consume(w, now));
    assert At(lost, w) == FailDurable(pc.a, pc.ctx.action) && lost.rows == s.rows;
    UndisturbedUpsertStores(cfg, lost, w);
  }
}
