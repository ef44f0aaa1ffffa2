/** Histories of the governed system: every public operation as one step. */
module History {
  import opened Common
  import opened Models
  import opened Store
  import opened Sandbox
  import opened Autonomy
  import opened Approvals
  import opened Evaluation
  import opened Gateway
  import opened Verification
  import opened Workflow

  datatype Op =
    | OpEvaluate(request: EvaluationRequest)
    | OpSubmit(decisionId: DecisionId, actorId: string, now: Time)
    | OpApprove(approvalId: ApprovalId, input: ApprovalInput, now: Time)
    | OpReject(approvalId: ApprovalId, input: ApprovalInput, now: Time)
    | OpVerify(decisionId: DecisionId, observation: Option<DeliveryObservation>, now: Time)
    | OpKillSwitch(switch: KillSwitchUpdate)
    | OpProfile(action: RecoveryAction, update: ProfileUpdate)
    | OpInject(step: Step, mode: FailureMode)
    | OpClearFailures

  function Apply(env: Env, w: World, op: Op): World {
    match op
    case OpEvaluate(request) => w.(tables := Evaluate(env, w.tables, request).0)
    case OpSubmit(id, actor, now) => Submit(env, w, id, actor, now).0
    case OpApprove(id, input, now) => ApproveAndExecute(env, w, id, input, now).0
    case OpReject(id, input, now) => Reject(env, w, id, input, now).0
    case OpVerify(id, observation, now) => Verify(w, id, observation, now).0
    case OpKillSwitch(u) => w.(tables := SetKillSwitch(w.tables, u, env.strict).0)
    case OpProfile(action, u) => w.(tables := SetProfile(w.tables, action, u, env.strict).0)
    case OpInject(step, mode) => w.(sandbox := w.sandbox.(modes := w.sandbox.modes[step := mode]))
    case OpClearFailures => w.(sandbox := w.sandbox.(modes := map[]))
  }

  function Run(env: Env, w: World, ops: seq<Op>): World {
    if ops == [] then w else Apply(env, Run(env, w, ops[..|ops| - 1]), ops[|ops| - 1])
  }

  /** A freshly bootstrapped database and an empty sandbox. */
  const START := World(BOOTSTRAPPED, EMPTY_SANDBOX)

  /** The validators of the request record accept every evaluated order. */
  predicate ValidOps(ops: seq<Op>) {
    forall i :: 0 <= i < |ops| && ops[i].OpEvaluate? ==> ops[i].request.order.Valid()
  }

  lemma RunSnoc(env: Env, w: World, ops: seq<Op>, op: Op)
    ensures Run(env, w, ops + [op]) == Apply(env, Run(env, w, ops), op)
  {
    assert (ops + [op])[..|ops|] == ops;
  }

  lemma {:induction false} RunSplits(env: Env, w: World, first: seq<Op>, second: seq<Op>)
    ensures Run(env, w, first + second) == Run(env, Run(env, w, first), second)
    decreases |second|
  {
    if second == [] {
      assert first + second == first;
    } else {
      var n := |second| - 1;
      var before, last := second[..n], second[n];
      assert second == before + [last];
      assert first + second == (first + before) + [last];
      RunSplits(env, w, first, before);
      RunSnoc(env, w, first + before, last);
      RunSnoc(env, Run(env, w, first), before, last);
    }
  }
}
