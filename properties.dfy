/** Properties of the handlers: the scenarios the program's tests exercise,
    round trips, repeated calls, and invariants that hold over any sequence of
    calls. */
module Properties {
  import opened State
  import opened Handlers

  // ---------------------------------------------------------------------------
  // Sequences of calls

  /** One call as the host makes it. */
  datatype Invocation = Invocation(accounts: seq<AccountMeta>, payload: Option<AIInfraInstruction>, funding: ProgramResult)

  function Step(programId: Pubkey, store: Store, call: Invocation): Store {
    ProcessInstruction(programId, store, call.accounts, call.payload, call.funding).store
  }

  /** The accounts after the calls run one after another; a failed call leaves
      them as they were. */
  function Run(programId: Pubkey, store: Store, calls: seq<Invocation>): Store
    decreases |calls|
  {
    if calls == [] then store else Run(programId, Step(programId, store, calls[0]), calls[1..])
  }

  /** A CreateTask call whose task slot is `k`: the only call that can
      overwrite the task held at `k`. */
  predicate CreatesTaskAt(call: Invocation, k: Pubkey) {
    call.payload.Some? && call.payload.value.CreateTask? && |call.accounts| > 0 && call.accounts[0].key == k
  }

  /** One step of the task lifecycle: Pending to InProgress to Completed. */
  predicate Advances(a: TaskStatus, b: TaskStatus) {
    a == b || (a == Pending && b == InProgress) || (a == InProgress && b == Completed)
  }

  /** Any number of lifecycle steps. */
  predicate Reaches(a: TaskStatus, b: TaskStatus) {
    a == b || (a == Pending && (b == InProgress || b == Completed)) || (a == InProgress && b == Completed)
  }

  predicate Terminal(s: TaskStatus) {
    s == Completed || s == Failed
  }

  /** What a task fixes at creation: its agent, its requirements, its payment. */
  predicate SameTerms(t: ComputeTask, u: ComputeTask) {
    t.agent == u.agent && t.requirements == u.requirements && t.paymentAmount == u.paymentAmount
  }

  /** What no call changes about an agent, and what only ever grows. */
  predicate AgentEvolves(a: AIAgent, b: AIAgent) {
    b.owner == a.owner && b.reputationScore == a.reputationScore && b.tasksCompleted >= a.tasksCompleted
  }

  // ---------------------------------------------------------------------------
  // One call

  /** A slot that holds an agent keeps holding one, with the same owner and
      reputation, and a completed count that never falls; only Deposit,
      Withdraw and CreateTask move the balance, only CompleteTask the count,
      only UpdateAgentStatus the active flag. */
  lemma AgentStep(programId: Pubkey, store: Store, call: Invocation, k: Pubkey)
    requires AgentAt(store, k).Some?
    ensures AgentAt(Step(programId, store, call), k).Some?
    ensures var a, b := AgentAt(store, k).value, AgentAt(Step(programId, store, call), k).value;
      AgentEvolves(a, b) &&
      (b.computeCredits != a.computeCredits ==>
        call.payload.Some? && (call.payload.value.DepositCredits? || call.payload.value.WithdrawCredits? || call.payload.value.CreateTask?)) &&
      (b.tasksCompleted != a.tasksCompleted ==> call.payload.Some? && call.payload.value.CompleteTask?) &&
      (b.isActive != a.isActive ==> call.payload.Some? && call.payload.value.UpdateAgentStatus?)
  {
  }

  /** Unless a CreateTask aims at it, a slot that holds a task keeps holding
      it with the same terms, its status moves at most one lifecycle step, and
      a task in a terminal status does not change at all. */
  lemma TaskStep(programId: Pubkey, store: Store, call: Invocation, k: Pubkey)
    requires !CreatesTaskAt(call, k)
    requires TaskAt(store, k).Some?
    ensures TaskAt(Step(programId, store, call), k).Some?
    ensures var t, u := TaskAt(store, k).value, TaskAt(Step(programId, store, call), k).value;
      SameTerms(t, u) && Advances(t.status, u.status) && (Terminal(t.status) ==> u == t)
  {
  }

  /** No call sets a task to Failed: a slot that holds a Failed task after a
      call held that same task before it. */
  lemma NoFailedStep(programId: Pubkey, store: Store, call: Invocation, k: Pubkey)
    requires TaskAt(Step(programId, store, call), k).Some?
    requires TaskAt(Step(programId, store, call), k).value.status == Failed
    ensures TaskAt(store, k) == TaskAt(Step(programId, store, call), k)
  {
  }

  // ---------------------------------------------------------------------------
  // Any sequence of calls

  /** No sequence of calls reassigns an agent's owner or changes its
      reputation, and its completed count never falls. */
  lemma {:induction false} RunKeepsAgent(programId: Pubkey, store: Store, calls: seq<Invocation>, k: Pubkey)
    requires AgentAt(store, k).Some?
    ensures AgentAt(Run(programId, store, calls), k).Some?
    ensures AgentEvolves(AgentAt(store, k).value, AgentAt(Run(programId, store, calls), k).value)
    decreases |calls|
  {
    if calls != [] {
      var next := Step(programId, store, calls[0]);
      AgentStep(programId, store, calls[0], k);
      RunKeepsAgent(programId, next, calls[1..], k);
    }
  }

  /** Unless a CreateTask aims at its slot, a task keeps its terms, its status
      only moves forward along Pending, InProgress, Completed, and a task in a
      terminal status stays exactly as it is. Calls that create other tasks
      are allowed. */
  lemma {:induction false} RunTaskLifecycle(programId: Pubkey, store: Store, calls: seq<Invocation>, k: Pubkey)
    requires forall i :: 0 <= i < |calls| ==> !CreatesTaskAt(calls[i], k)
    requires TaskAt(store, k).Some?
    ensures TaskAt(Run(programId, store, calls), k).Some?
    ensures var t, u := TaskAt(store, k).value, TaskAt(Run(programId, store, calls), k).value;
      SameTerms(t, u) && Reaches(t.status, u.status) && (Terminal(t.status) ==> u == t)
    decreases |calls|
  {
    if calls != [] {
      var next := Step(programId, store, calls[0]);
      TaskStep(programId, store, calls[0], k);
      RunTaskLifecycle(programId, next, calls[1..], k);
    }
  }

  /** No sequence of calls produces a Failed task that was not already there. */
  lemma {:induction false} RunNeverFails(programId: Pubkey, store: Store, calls: seq<Invocation>, k: Pubkey)
    requires TaskAt(Run(programId, store, calls), k).Some?
    requires TaskAt(Run(programId, store, calls), k).value.status == Failed
    ensures TaskAt(store, k) == TaskAt(Run(programId, store, calls), k)
    decreases |calls|
  {
    if calls != [] {
      var next := Step(programId, store, calls[0]);
      RunNeverFails(programId, next, calls[1..], k);
      NoFailedStep(programId, store, calls[0], k);
    }
  }

  // ---------------------------------------------------------------------------
  // Repeated calls and round trips

  /** StartTask succeeds at most once on a task: the second call fails with
      InvalidAccountData and changes nothing. */
  lemma StartTaskTwice(programId: Pubkey, store: Store, accounts: seq<AccountMeta>, taskId: Pubkey, taskId': Pubkey)
    requires ProcessStartTask(programId, store, accounts, taskId).result.Success?
    ensures var first := ProcessStartTask(programId, store, accounts, taskId);
      var second := ProcessStartTask(programId, first.store, accounts, taskId');
      second.result == Failure(InvalidAccountData) && second.store == first.store
  {
  }

  /** CompleteTask succeeds at most once on a task: the second call fails with
      InvalidAccountData and changes nothing. */
  lemma CompleteTaskTwice(programId: Pubkey, store: Store, accounts: seq<AccountMeta>,
                          taskId: Pubkey, resultHash: Hash, taskId': Pubkey, resultHash': Hash)
    requires ProcessCompleteTask(programId, store, accounts, taskId, resultHash).result.Success?
    ensures var first := ProcessCompleteTask(programId, store, accounts, taskId, resultHash);
      var second := ProcessCompleteTask(programId, first.store, accounts, taskId', resultHash');
      second.result == Failure(InvalidAccountData) && second.store == first.store
  {
  }

  /** The task id argument plays no part in StartTask or CompleteTask. */
  lemma TaskIdIgnored(programId: Pubkey, store: Store, accounts: seq<AccountMeta>, id: Pubkey, id': Pubkey, resultHash: Hash)
    ensures ProcessStartTask(programId, store, accounts, id) == ProcessStartTask(programId, store, accounts, id')
    ensures ProcessCompleteTask(programId, store, accounts, id, resultHash) ==
            ProcessCompleteTask(programId, store, accounts, id', resultHash)
  {
  }

  /** A deposit followed by a withdrawal of the same amount by the same owner
      succeeds and restores every account exactly. */
  lemma DepositThenWithdraw(store: Store, accounts: seq<AccountMeta>, amount: u64)
    requires ProcessDepositCredits(store, accounts, amount).result.Success?
    ensures var deposited := ProcessDepositCredits(store, accounts, amount);
      var withdrawn := ProcessWithdrawCredits(deposited.store, accounts, amount);
      withdrawn.result == Success && withdrawn.store == store
  {
  }

  /** A withdrawal followed by a deposit of the same amount by the same owner
      succeeds and restores every account exactly. */
  lemma WithdrawThenDeposit(store: Store, accounts: seq<AccountMeta>, amount: u64)
    requires ProcessWithdrawCredits(store, accounts, amount).result.Success?
    ensures var withdrawn := ProcessWithdrawCredits(store, accounts, amount);
      var deposited := ProcessDepositCredits(withdrawn.store, accounts, amount);
      deposited.result == Success && deposited.store == store
  {
  }

  // ---------------------------------------------------------------------------
  // Scenarios

  /** An agent holding 1000 credits pays 500 for a task with 100 cpu units,
      512 MB of memory, 1024 MB of storage and 3600 seconds: the task is
      Pending for 500 and the agent is left with 500. */
  lemma CreateTaskScenario(store: Store, taskKey: Pubkey, agentKey: Pubkey, ownerKey: Pubkey)
    requires AgentAt(store, agentKey) == Some(AIAgent(ownerKey, 1000, 100, 0, true))
    requires Load(store, taskKey).dataLen == TASK_LEN
    ensures var requirements := ComputeRequirements(100, 512, 1024, 3600);
      var o := ProcessCreateTask(store, [AccountMeta(taskKey, false), AccountMeta(agentKey, false), AccountMeta(ownerKey, true)],
                                 requirements, 500);
      o.result == Success &&
      TaskAt(o.store, taskKey) == Some(ComputeTask(agentKey, requirements, Pending, ZERO_32, 500)) &&
      AgentAt(o.store, agentKey) == Some(AIAgent(ownerKey, 500, 100, 0, true))
  {
  }

  /** The same call when the task account has never been allocated: the task
      does not fit its empty buffer, so the call fails and nothing changes. */
  lemma CreateTaskUnallocatedSlot(store: Store, taskKey: Pubkey, agentKey: Pubkey, ownerKey: Pubkey)
    requires AgentAt(store, agentKey) == Some(AIAgent(ownerKey, 1000, 100, 0, true))
    requires taskKey !in store
    ensures var o := ProcessCreateTask(store, [AccountMeta(taskKey, false), AccountMeta(agentKey, false), AccountMeta(ownerKey, true)],
                                       ComputeRequirements(100, 512, 1024, 3600), 500);
      o.result == Failure(BorshIoError) && o.store == store
  {
  }

  /** The accounts of a RegisterAgent call: the new agent account and the
      owner both sign. */
  function RegisterAccounts(agentKey: Pubkey, ownerKey: Pubkey, systemKey: Pubkey, rentKey: Pubkey): seq<AccountMeta> {
    [AccountMeta(agentKey, true), AccountMeta(ownerKey, true), AccountMeta(systemKey, false), AccountMeta(rentKey, false)]
  }

  /** A RegisterAgent call in which only the owner signs, not the new agent
      account, can never succeed: whatever the host's funding, it fails and
      changes nothing, and with funding in place the host refuses the account
      creation for the missing signature. */
  lemma RegisterWithoutAgentSignature(programId: Pubkey, store: Store, agentKey: Pubkey, ownerKey: Pubkey,
                                      systemKey: Pubkey, rentKey: Pubkey, funding: ProgramResult)
    ensures var o := ProcessInstruction(programId, store,
        [AccountMeta(agentKey, false), AccountMeta(ownerKey, true), AccountMeta(systemKey, false), AccountMeta(rentKey, false)],
        Some(RegisterAgent), funding);
      o.result.Failure? && o.store == store && (funding.Success? ==> o.result == Failure(PrivilegeEscalation))
  {
  }

  /** A freshly registered agent takes a deposit: its balance is then the
      amount deposited, and it is otherwise the fresh agent. */
  lemma RegisterThenDeposit(programId: Pubkey, store: Store, agentKey: Pubkey, ownerKey: Pubkey,
                            systemKey: Pubkey, rentKey: Pubkey, amount: u64)
    requires !InUse(Load(store, agentKey))
    ensures var registered := ProcessRegisterAgent(programId, store, RegisterAccounts(agentKey, ownerKey, systemKey, rentKey), Success);
      var deposited := ProcessDepositCredits(registered.store, [AccountMeta(agentKey, false), AccountMeta(ownerKey, true)], amount);
      registered.result == Success && deposited.result == Success &&
      AgentAt(deposited.store, agentKey) == Some(AIAgent(ownerKey, amount, 100, 0, true))
  {
  }

  /** With the account sized as written, the same deposit fails: the agent
      record cannot be decoded from its own account. */
  lemma RegisterAsWrittenThenDeposit(programId: Pubkey, store: Store, agentKey: Pubkey, ownerKey: Pubkey,
                                     systemKey: Pubkey, rentKey: Pubkey, amount: u64)
    requires !InUse(Load(store, agentKey))
    ensures var registered := ProcessRegisterAgentAsWritten(programId, store, RegisterAccounts(agentKey, ownerKey, systemKey, rentKey), Success);
      var deposited := ProcessDepositCredits(registered.store, [AccountMeta(agentKey, false), AccountMeta(ownerKey, true)], amount);
      registered.result == Success && deposited.result == Failure(BorshIoError) && deposited.store == registered.store
  {
  }

  /** CreateTask does not check that its task slot is free: a Completed task
      is replaced by a new Pending one, and the agent pays again. */
  lemma CreateTaskReopensCompletedTask(store: Store, taskKey: Pubkey, agentKey: Pubkey, payerKey: Pubkey,
                                       requirements: ComputeRequirements, paymentAmount: u64)
    requires TaskAt(store, taskKey).Some? && TaskAt(store, taskKey).value.status == Completed
    requires AgentAt(store, agentKey).Some? && AgentAt(store, agentKey).value.computeCredits >= paymentAmount
    ensures var o := ProcessCreateTask(store, [AccountMeta(taskKey, false), AccountMeta(agentKey, false), AccountMeta(payerKey, true)],
                                       requirements, paymentAmount);
      o.result == Success && TaskAt(o.store, taskKey).Some? && TaskAt(o.store, taskKey).value.status == Pending
  {
  }
}
