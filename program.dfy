/** The program as it runs: an object holding the program's identity and the
    accounts the host lends it, with one method per handler that reads a
    record into a local, updates its fields, and writes it back. Writes are
    staged in a local copy of the accounts and committed only when every
    guard has passed, which is how the host's discarding of a failed call's
    writes shows up here. Each method is proved to do what the matching
    function in Handlers says. */
module Program {
  import opened State
  import Handlers

  class Processor {
    const programId: Pubkey
    var accounts: Store

    constructor (programId: Pubkey, accounts: Store)
      ensures this.programId == programId && this.accounts == accounts
    {
      this.programId := programId;
      this.accounts := accounts;
    }

    /** RegisterAgent; `funding` is the host's answer to the rent lookup and
        the payer's lamports. The account is sized by `size_of::<AIAgent>()`,
        as the program does. */
    method RegisterAgent(metas: seq<AccountMeta>, funding: ProgramResult) returns (r: ProgramResult)
      modifies this
      ensures Handlers.Outcome(r, accounts) == Handlers.ProcessRegisterAgentAsWritten(programId, old(accounts), metas, funding)
    {
      if |metas| < 4 {
        return Failure(NotEnoughAccountKeys);
      }
      var agentAccount, ownerAccount := metas[0], metas[1];
      if !ownerAccount.isSigner {
        return Failure(MissingRequiredSignature);
      }
      var agent := AIAgent(ownerAccount.key, 0, Handlers.INITIAL_REPUTATION, 0, true);
      if funding.Failure? {
        return funding;
      }
      if !agentAccount.isSigner {
        return Failure(PrivilegeEscalation);
      }
      if Handlers.InUse(Load(accounts, agentAccount.key)) {
        return Failure(AccountAlreadyInUse);
      }
      var staged := accounts[agentAccount.key := Account(programId, Handlers.AGENT_SIZE_OF, Unparsed)];
      staged := staged[agentAccount.key := staged[agentAccount.key].(content := AgentBytes(agent))];
      accounts := staged;
      r := Success;
    }

    /** CreateTask: debit the agent and write a Pending task. */
    method CreateTask(metas: seq<AccountMeta>, requirements: ComputeRequirements, paymentAmount: u64)
      returns (r: ProgramResult)
      modifies this
      ensures Handlers.Outcome(r, accounts) == Handlers.ProcessCreateTask(old(accounts), metas, requirements, paymentAmount)
    {
      if |metas| < 3 {
        return Failure(NotEnoughAccountKeys);
      }
      var taskAccount, agentAccount, payerAccount := metas[0], metas[1], metas[2];
      if !payerAccount.isSigner {
        return Failure(MissingRequiredSignature);
      }
      var decoded := AgentAt(accounts, agentAccount.key);
      if decoded.None? {
        return Failure(BorshIoError);
      }
      var agent := decoded.value;
      if agent.computeCredits < paymentAmount {
        return Failure(InsufficientFunds);
      }
      var task := ComputeTask(agentAccount.key, requirements, Pending, ZERO_32, paymentAmount);
      var staged := accounts;
      if Load(staged, taskAccount.key).dataLen < TASK_LEN {
        return Failure(BorshIoError);
      }
      staged := staged[taskAccount.key := staged[taskAccount.key].(content := TaskBytes(task))];
      agent := agent.(computeCredits := agent.computeCredits - paymentAmount);
      if Load(staged, agentAccount.key).dataLen < AGENT_LEN {
        return Failure(BorshIoError);
      }
      staged := staged[agentAccount.key := staged[agentAccount.key].(content := AgentBytes(agent))];
      accounts := staged;
      r := Success;
    }

    /** StartTask: Pending becomes InProgress. */
    method StartTask(metas: seq<AccountMeta>, taskId: Pubkey) returns (r: ProgramResult)
      modifies this
      ensures Handlers.Outcome(r, accounts) == Handlers.ProcessStartTask(programId, old(accounts), metas, taskId)
    {
      if |metas| < 2 {
        return Failure(NotEnoughAccountKeys);
      }
      var taskAccount := metas[0];
      if Load(accounts, taskAccount.key).owner != programId {
        return Failure(IncorrectProgramId);
      }
      var decoded := TaskAt(accounts, taskAccount.key);
      if decoded.None? {
        return Failure(BorshIoError);
      }
      var task := decoded.value;
      if task.status != Pending {
        return Failure(InvalidAccountData);
      }
      task := task.(status := InProgress);
      accounts := accounts[taskAccount.key := accounts[taskAccount.key].(content := TaskBytes(task))];
      r := Success;
    }

    /** CompleteTask: InProgress becomes Completed with the result hash, and
        the agent's completed count goes up by one. */
    method CompleteTask(metas: seq<AccountMeta>, taskId: Pubkey, resultHash: Hash) returns (r: ProgramResult)
      modifies this
      ensures Handlers.Outcome(r, accounts) == Handlers.ProcessCompleteTask(programId, old(accounts), metas, taskId, resultHash)
    {
      if |metas| < 2 {
        return Failure(NotEnoughAccountKeys);
      }
      var taskAccount, agentAccount := metas[0], metas[1];
      if Load(accounts, taskAccount.key).owner != programId {
        return Failure(IncorrectProgramId);
      }
      var decodedTask := TaskAt(accounts, taskAccount.key);
      if decodedTask.None? {
        return Failure(BorshIoError);
      }
      var task := decodedTask.value;
      if task.status != InProgress {
        return Failure(InvalidAccountData);
      }
      task := task.(status := Completed, resultHash := resultHash);
      var staged := accounts[taskAccount.key := accounts[taskAccount.key].(content := TaskBytes(task))];
      var decodedAgent := AgentAt(staged, agentAccount.key);
      if decodedAgent.None? {
        return Failure(BorshIoError);
      }
      var agent := decodedAgent.value;
      if agent.tasksCompleted == U32_MAX {
        return Failure(ArithmeticOverflow);
      }
      agent := agent.(tasksCompleted := agent.tasksCompleted + 1);
      staged := staged[agentAccount.key := staged[agentAccount.key].(content := AgentBytes(agent))];
      accounts := staged;
      r := Success;
    }

    /** The guards of the owner-only handlers, in order; on success the
        decoded agent. */
    method CheckOwner(metas: seq<AccountMeta>) returns (r: ProgramResult, agent: AIAgent)
      ensures r.Success? <==> Handlers.OwnerGuard(accounts, metas).None?
      ensures r.Failure? ==> r.error == Handlers.OwnerGuard(accounts, metas).value
      ensures r.Success? ==> AgentAt(accounts, metas[0].key) == Some(agent)
    {
      agent := AIAgent(ZERO_32, 0, 0, 0, false);
      if |metas| < 2 {
        return Failure(NotEnoughAccountKeys), agent;
      }
      var agentAccount, ownerAccount := metas[0], metas[1];
      if !ownerAccount.isSigner {
        return Failure(MissingRequiredSignature), agent;
      }
      var decoded := AgentAt(accounts, agentAccount.key);
      if decoded.None? {
        return Failure(BorshIoError), agent;
      }
      agent := decoded.value;
      if agent.owner != ownerAccount.key {
        return Failure(InvalidAccountData), agent;
      }
      r := Success;
    }

    /** DepositCredits: checked addition to the balance. */
    method DepositCredits(metas: seq<AccountMeta>, amount: u64) returns (r: ProgramResult)
      modifies this
      ensures Handlers.Outcome(r, accounts) == Handlers.ProcessDepositCredits(old(accounts), metas, amount)
    {
      var agent;
      r, agent := CheckOwner(metas);
      if r.Failure? {
        return;
      }
      if agent.computeCredits + amount > U64_MAX {
        return Failure(InvalidInstructionData);
      }
      agent := agent.(computeCredits := agent.computeCredits + amount);
      accounts := accounts[metas[0].key := accounts[metas[0].key].(content := AgentBytes(agent))];
    }

    /** WithdrawCredits: guarded subtraction from the balance. */
    method WithdrawCredits(metas: seq<AccountMeta>, amount: u64) returns (r: ProgramResult)
      modifies this
      ensures Handlers.Outcome(r, accounts) == Handlers.ProcessWithdrawCredits(old(accounts), metas, amount)
    {
      var agent;
      r, agent := CheckOwner(metas);
      if r.Failure? {
        return;
      }
      if agent.computeCredits < amount {
        return Failure(InsufficientFunds);
      }
      agent := agent.(computeCredits := agent.computeCredits - amount);
      accounts := accounts[metas[0].key := accounts[metas[0].key].(content := AgentBytes(agent))];
    }

    /** UpdateAgentStatus: set the active flag. */
    method UpdateStatus(metas: seq<AccountMeta>, isActive: bool) returns (r: ProgramResult)
      modifies this
      ensures Handlers.Outcome(r, accounts) == Handlers.ProcessUpdateStatus(old(accounts), metas, isActive)
    {
      var agent;
      r, agent := CheckOwner(metas);
      if r.Failure? {
        return;
      }
      agent := agent.(isActive := isActive);
      accounts := accounts[metas[0].key := accounts[metas[0].key].(content := AgentBytes(agent))];
    }

    /** The entry point: dispatch the decoded instruction to its handler. */
    method ProcessInstruction(metas: seq<AccountMeta>, payload: Option<AIInfraInstruction>, funding: ProgramResult)
      returns (r: ProgramResult)
      modifies this
      ensures Handlers.Outcome(r, accounts) == Handlers.ProcessInstruction(programId, old(accounts), metas, payload, funding)
    {
      if payload.None? {
        return Failure(BorshIoError);
      }
      match payload.value
      case RegisterAgent => r := RegisterAgent(metas, funding);
      case CreateTask(requirements, paymentAmount) => r := CreateTask(metas, requirements, paymentAmount);
      case StartTask(taskId) => r := StartTask(metas, taskId);
      case CompleteTask(taskId, resultHash) => r := CompleteTask(metas, taskId, resultHash);
      case DepositCredits(amount) => r := DepositCredits(metas, amount);
      case WithdrawCredits(amount) => r := WithdrawCredits(metas, amount);
      case UpdateAgentStatus(isActive) => r := UpdateStatus(metas, isActive);
    }
  }
}
