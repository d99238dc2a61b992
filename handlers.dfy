/** The seven instruction handlers and the dispatch over the instruction set,
    each as a function from the account store before the call to the call's
    result and the store after it. On any error the store after the call is
    the store before it: the host discards every write of a failed call. */
module Handlers {
  import opened State

  /** What one call produces: its result and the account store it leaves. */
  datatype Outcome = Outcome(result: ProgramResult, store: Store)

  function Fail(store: Store, error: ProgramError): Outcome {
    Outcome(Failure(error), store)
  }

  /** Reputation every agent starts with. */
  const INITIAL_REPUTATION: u32 := 100

  /** Rust's in-memory size of `AIAgent`: its 49 bytes of fields padded to a
      multiple of the 8-byte alignment of its u64 field. */
  const AGENT_SIZE_OF: nat := 56

  /** An account the system program refuses to create over. */
  predicate InUse(acc: Account) {
    acc.owner != SYSTEM_PROGRAM_ID || acc.dataLen > 0
  }

  // ---------------------------------------------------------------------------
  // RegisterAgent

  /** The host's part of RegisterAgent: the rent lookup and the system
      program's account creation. `funding` stands for what this model does not
      see (the rent sysvar and the payer's lamports). The system program's
      create_account needs the new account's signature, so the host refuses
      the call when the new account did not sign; an account already in use is
      refused too. On success the slot is controlled by the program and holds
      `space` zero bytes. */
  function CreateAccount(programId: Pubkey, store: Store, key: Pubkey, signed: bool, space: nat, funding: ProgramResult): (o: Outcome)
    ensures o.result.Failure? ==> o.store == store
    ensures funding.Success? && !signed ==> o.result == Failure(PrivilegeEscalation)
    ensures funding.Success? && signed && InUse(Load(store, key)) ==> o.result == Failure(AccountAlreadyInUse)
    ensures o.result.Success? <==> funding.Success? && signed && !InUse(Load(store, key))
    ensures o.result.Success? ==> o.store == store[key := Account(programId, space, Unparsed)]
  {
    if funding.Failure? then Outcome(funding, store)
    else if !signed then Fail(store, PrivilegeEscalation)
    else if InUse(Load(store, key)) then Fail(store, AccountAlreadyInUse)
    else Outcome(Success, store[key := Account(programId, space, Unparsed)])
  }

  /** RegisterAgent with the new account's size as a parameter: accounts are
      [new agent slot, owner, system program, rent sysvar]. */
  function Register(programId: Pubkey, store: Store, accounts: seq<AccountMeta>, funding: ProgramResult, space: nat): Outcome
  {
    if |accounts| < 4 then Fail(store, NotEnoughAccountKeys)
    else if !accounts[1].isSigner then Fail(store, MissingRequiredSignature)
    else
      var agentKey := accounts[0].key;
      var created := CreateAccount(programId, store, agentKey, accounts[0].isSigner, space, funding);
      if created.result.Failure? then created
      else match SerializeAgent(created.store, agentKey, AIAgent(accounts[1].key, 0, INITIAL_REPUTATION, 0, true))
        case None => Fail(store, BorshIoError)
        case Some(s) => Outcome(Success, s)
  }

  /** RegisterAgent as written: the account is created with AGENT_SIZE_OF
      bytes, longer than the record, so the record it writes can never be read
      back. */
  function ProcessRegisterAgentAsWritten(programId: Pubkey, store: Store, accounts: seq<AccountMeta>, funding: ProgramResult): (o: Outcome)
    ensures o.result.Failure? ==> o.store == store
    ensures |accounts| < 4 ==> o.result == Failure(NotEnoughAccountKeys)
    ensures |accounts| >= 4 && !accounts[1].isSigner ==> o.result == Failure(MissingRequiredSignature)
    ensures |accounts| >= 4 && accounts[1].isSigner && funding.Failure? ==> o.result == funding
    ensures |accounts| >= 4 && accounts[1].isSigner && funding.Success? && !accounts[0].isSigner ==>
      o.result == Failure(PrivilegeEscalation)
    ensures (|accounts| >= 4 && accounts[1].isSigner && funding.Success? && accounts[0].isSigner &&
      InUse(Load(store, accounts[0].key))) ==> o.result == Failure(AccountAlreadyInUse)
    ensures o.result.Success? <==>
      |accounts| >= 4 && accounts[1].isSigner && funding.Success? && accounts[0].isSigner &&
      !InUse(Load(store, accounts[0].key))
    ensures o.result.Success? ==>
      accounts[0].key in o.store && o.store == store[accounts[0].key := o.store[accounts[0].key]] &&
      Load(o.store, accounts[0].key).owner == programId &&
      Load(o.store, accounts[0].key).dataLen == AGENT_SIZE_OF &&
      Load(o.store, accounts[0].key).content == AgentBytes(AIAgent(accounts[1].key, 0, 100, 0, true)) &&
      AgentAt(o.store, accounts[0].key) == None
  {
    Register(programId, store, accounts, funding, AGENT_SIZE_OF)
  }

  /** RegisterAgent with the account sized to the record it holds. Fails when
      the owner did not sign or the host cannot create the account; otherwise
      the new slot, controlled by the program, holds a fresh agent for the
      signing owner and no other account changes. */
  function ProcessRegisterAgent(programId: Pubkey, store: Store, accounts: seq<AccountMeta>, funding: ProgramResult): (o: Outcome)
    ensures o.result.Failure? ==> o.store == store
    ensures |accounts| < 4 ==> o.result == Failure(NotEnoughAccountKeys)
    ensures |accounts| >= 4 && !accounts[1].isSigner ==> o.result == Failure(MissingRequiredSignature)
    ensures |accounts| >= 4 && accounts[1].isSigner && funding.Failure? ==> o.result == funding
    ensures |accounts| >= 4 && accounts[1].isSigner && funding.Success? && !accounts[0].isSigner ==>
      o.result == Failure(PrivilegeEscalation)
    ensures (|accounts| >= 4 && accounts[1].isSigner && funding.Success? && accounts[0].isSigner &&
      InUse(Load(store, accounts[0].key))) ==> o.result == Failure(AccountAlreadyInUse)
    ensures o.result.Success? <==>
      |accounts| >= 4 && accounts[1].isSigner && funding.Success? && accounts[0].isSigner &&
      !InUse(Load(store, accounts[0].key))
    ensures o.result.Success? ==>
      var key := accounts[0].key;
      key in o.store && o.store == store[key := o.store[key]] &&
      o.store[key].owner == programId &&
      AgentAt(o.store, key) == Some(AIAgent(accounts[1].key, 0, 100, 0, true))
  {
    Register(programId, store, accounts, funding, AGENT_LEN)
  }

  // ---------------------------------------------------------------------------
  // CreateTask

  /** CreateTask: accounts are [task slot, agent slot, payer]. Fails unless the
      payer signed, the agent slot decodes and holds at least the payment;
      otherwise the task slot receives a Pending task for that agent with a zero
      result hash, and the agent is debited exactly the payment. The payer is
      not compared with the agent's owner, and the task slot is not checked to
      be free. */
  function ProcessCreateTask(store: Store, accounts: seq<AccountMeta>, requirements: ComputeRequirements, paymentAmount: u64): (o: Outcome)
    ensures o.result.Failure? ==> o.store == store
    ensures |accounts| < 3 ==> o.result == Failure(NotEnoughAccountKeys)
    ensures |accounts| >= 3 && !accounts[2].isSigner ==> o.result == Failure(MissingRequiredSignature)
    ensures |accounts| >= 3 && accounts[2].isSigner && AgentAt(store, accounts[1].key).None? ==>
      o.result == Failure(BorshIoError)
    ensures (|accounts| >= 3 && accounts[2].isSigner && AgentAt(store, accounts[1].key).Some? &&
      AgentAt(store, accounts[1].key).value.computeCredits < paymentAmount) ==>
      o.result == Failure(InsufficientFunds)
    ensures (|accounts| >= 3 && accounts[2].isSigner && AgentAt(store, accounts[1].key).Some? &&
      AgentAt(store, accounts[1].key).value.computeCredits >= paymentAmount &&
      Load(store, accounts[0].key).dataLen < TASK_LEN) ==>
      o.result == Failure(BorshIoError)
    ensures o.result.Success? <==>
      |accounts| >= 3 && accounts[2].isSigner && AgentAt(store, accounts[1].key).Some? &&
      AgentAt(store, accounts[1].key).value.computeCredits >= paymentAmount &&
      Load(store, accounts[0].key).dataLen >= TASK_LEN
    ensures o.result.Success? ==>
      var taskKey, agentKey := accounts[0].key, accounts[1].key;
      var agent := AgentAt(store, agentKey).value;
      var task := ComputeTask(agentKey, requirements, Pending, ZERO_32, paymentAmount);
      taskKey != agentKey &&
      o.store == store[taskKey := store[taskKey].(content := TaskBytes(task))]
                      [agentKey := store[agentKey].(content := AgentBytes(agent.(computeCredits := agent.computeCredits - paymentAmount)))] &&
      AgentAt(o.store, agentKey).Some? &&
      AgentAt(o.store, agentKey).value.computeCredits + paymentAmount == agent.computeCredits &&
      TaskAt(o.store, taskKey) == (if store[taskKey].dataLen == TASK_LEN then Some(task) else None)
  {
    if |accounts| < 3 then Fail(store, NotEnoughAccountKeys)
    else
      var taskKey, agentKey, payer := accounts[0].key, accounts[1].key, accounts[2];
      if !payer.isSigner then Fail(store, MissingRequiredSignature)
      else match AgentAt(store, agentKey)
        case None => Fail(store, BorshIoError)
        case Some(agent) =>
          if agent.computeCredits < paymentAmount then Fail(store, InsufficientFunds)
          else
            var task := ComputeTask(agentKey, requirements, Pending, ZERO_32, paymentAmount);
            match SerializeTask(store, taskKey, task)
            case None => Fail(store, BorshIoError)
            case Some(s1) =>
              match SerializeAgent(s1, agentKey, agent.(computeCredits := agent.computeCredits - paymentAmount))
              case None => Fail(store, BorshIoError)
              case Some(s2) => Outcome(Success, s2)
  }

  // ---------------------------------------------------------------------------
  // StartTask

  /** StartTask: accounts are [task slot, agent slot]; `taskId` is not used.
      Fails unless the task slot is controlled by this program and holds a
      Pending task; otherwise only that task's status changes, to InProgress. */
  function ProcessStartTask(programId: Pubkey, store: Store, accounts: seq<AccountMeta>, taskId: Pubkey): (o: Outcome)
    ensures o.result.Failure? ==> o.store == store
    ensures |accounts| < 2 ==> o.result == Failure(NotEnoughAccountKeys)
    ensures |accounts| >= 2 && Load(store, accounts[0].key).owner != programId ==>
      o.result == Failure(IncorrectProgramId)
    ensures |accounts| >= 2 && Load(store, accounts[0].key).owner == programId && TaskAt(store, accounts[0].key).None? ==>
      o.result == Failure(BorshIoError)
    ensures (|accounts| >= 2 && Load(store, accounts[0].key).owner == programId && TaskAt(store, accounts[0].key).Some? &&
      TaskAt(store, accounts[0].key).value.status != Pending) ==>
      o.result == Failure(InvalidAccountData)
    ensures o.result.Success? <==>
      |accounts| >= 2 && Load(store, accounts[0].key).owner == programId &&
      TaskAt(store, accounts[0].key).Some? && TaskAt(store, accounts[0].key).value.status == Pending
    ensures o.result.Success? ==>
      var task := TaskAt(store, accounts[0].key).value;
      TaskReplaced(store, o.store, accounts[0].key, task.(status := InProgress))
  {
    if |accounts| < 2 then Fail(store, NotEnoughAccountKeys)
    else
      var taskKey := accounts[0].key;
      if Load(store, taskKey).owner != programId then Fail(store, IncorrectProgramId)
      else match TaskAt(store, taskKey)
        case None => Fail(store, BorshIoError)
        case Some(task) =>
          if task.status != Pending then Fail(store, InvalidAccountData)
          else match SerializeTask(store, taskKey, task.(status := InProgress))
            case None => Fail(store, BorshIoError)
            case Some(s) => Outcome(Success, s)
  }

  // ---------------------------------------------------------------------------
  // CompleteTask

  /** CompleteTask: accounts are [task slot, agent slot]; `taskId` is not used.
      Fails unless the task slot is controlled by this program and holds an
      InProgress task, and the agent slot (whichever is passed: it is not
      compared with the task's agent) still decodes once the task is written;
      otherwise the task becomes Completed with the given hash and the agent's
      completed count goes up by one, every other agent field unchanged. */
  function ProcessCompleteTask(programId: Pubkey, store: Store, accounts: seq<AccountMeta>, taskId: Pubkey, resultHash: Hash): (o: Outcome)
    ensures o.result.Failure? ==> o.store == store
    ensures |accounts| < 2 ==> o.result == Failure(NotEnoughAccountKeys)
    ensures |accounts| >= 2 && Load(store, accounts[0].key).owner != programId ==>
      o.result == Failure(IncorrectProgramId)
    ensures |accounts| >= 2 && Load(store, accounts[0].key).owner == programId && TaskAt(store, accounts[0].key).None? ==>
      o.result == Failure(BorshIoError)
    ensures (|accounts| >= 2 && Load(store, accounts[0].key).owner == programId && TaskAt(store, accounts[0].key).Some? &&
      TaskAt(store, accounts[0].key).value.status != InProgress) ==>
      o.result == Failure(InvalidAccountData)
    ensures (|accounts| >= 2 && Load(store, accounts[0].key).owner == programId && TaskAt(store, accounts[0].key).Some? &&
      TaskAt(store, accounts[0].key).value.status == InProgress &&
      (accounts[0].key == accounts[1].key || AgentAt(store, accounts[1].key).None?)) ==>
      o.result == Failure(BorshIoError)
    ensures (|accounts| >= 2 && Load(store, accounts[0].key).owner == programId && TaskAt(store, accounts[0].key).Some? &&
      TaskAt(store, accounts[0].key).value.status == InProgress && AgentAt(store, accounts[1].key).Some? &&
      accounts[0].key != accounts[1].key && AgentAt(store, accounts[1].key).value.tasksCompleted == U32_MAX) ==>
      o.result == Failure(ArithmeticOverflow)
    ensures o.result.Success? <==>
      |accounts| >= 2 && Load(store, accounts[0].key).owner == programId &&
      TaskAt(store, accounts[0].key).Some? && TaskAt(store, accounts[0].key).value.status == InProgress &&
      accounts[0].key != accounts[1].key && AgentAt(store, accounts[1].key).Some? &&
      AgentAt(store, accounts[1].key).value.tasksCompleted < U32_MAX
    ensures o.result.Success? ==>
      var taskKey, agentKey := accounts[0].key, accounts[1].key;
      var task, agent := TaskAt(store, taskKey).value, AgentAt(store, agentKey).value;
      TaskReplaced(store, o.store[agentKey := store[agentKey]], taskKey, task.(status := Completed, resultHash := resultHash)) &&
      AgentReplaced(store, o.store[taskKey := store[taskKey]], agentKey, agent.(tasksCompleted := agent.tasksCompleted + 1)) &&
      TaskAt(o.store, taskKey) == Some(task.(status := Completed, resultHash := resultHash)) &&
      AgentAt(o.store, agentKey) == Some(agent.(tasksCompleted := agent.tasksCompleted + 1))
  {
    if |accounts| < 2 then Fail(store, NotEnoughAccountKeys)
    else
      var taskKey, agentKey := accounts[0].key, accounts[1].key;
      if Load(store, taskKey).owner != programId then Fail(store, IncorrectProgramId)
      else match TaskAt(store, taskKey)
        case None => Fail(store, BorshIoError)
        case Some(task) =>
          if task.status != InProgress then Fail(store, InvalidAccountData)
          else match SerializeTask(store, taskKey, task.(status := Completed, resultHash := resultHash))
            case None => Fail(store, BorshIoError)
            case Some(s1) =>
              match AgentAt(s1, agentKey)
              case None => Fail(store, BorshIoError)
              case Some(agent) =>
                if agent.tasksCompleted == U32_MAX then Fail(store, ArithmeticOverflow)
                else match SerializeAgent(s1, agentKey, agent.(tasksCompleted := agent.tasksCompleted + 1))
                  case None => Fail(store, BorshIoError)
                  case Some(s2) => Outcome(Success, s2)
  }

  // ---------------------------------------------------------------------------
  // DepositCredits, WithdrawCredits, UpdateAgentStatus

  /** The guards shared by the owner-only handlers (accounts are [agent slot,
      owner]), in the order they run: enough accounts, the owner signed, the
      agent slot decodes, and its owner is the signer. */
  function OwnerGuard(store: Store, accounts: seq<AccountMeta>): (r: Option<ProgramError>)
    ensures r.None? <==>
      |accounts| >= 2 && accounts[1].isSigner && AgentAt(store, accounts[0].key).Some? &&
      AgentAt(store, accounts[0].key).value.owner == accounts[1].key
    ensures |accounts| < 2 ==> r == Some(NotEnoughAccountKeys)
    ensures |accounts| >= 2 && !accounts[1].isSigner ==> r == Some(MissingRequiredSignature)
    ensures |accounts| >= 2 && accounts[1].isSigner && AgentAt(store, accounts[0].key).None? ==> r == Some(BorshIoError)
    ensures (|accounts| >= 2 && accounts[1].isSigner && AgentAt(store, accounts[0].key).Some? &&
      AgentAt(store, accounts[0].key).value.owner != accounts[1].key) ==> r == Some(InvalidAccountData)
  {
    if |accounts| < 2 then Some(NotEnoughAccountKeys)
    else if !accounts[1].isSigner then Some(MissingRequiredSignature)
    else match AgentAt(store, accounts[0].key)
      case None => Some(BorshIoError)
      case Some(agent) => if agent.owner != accounts[1].key then Some(InvalidAccountData) else None
  }

  /** DepositCredits: after the owner guard, fails with InvalidInstructionData
      when the balance would pass 2^64 - 1; otherwise only the agent's balance
      changes, up by `amount`. */
  function ProcessDepositCredits(store: Store, accounts: seq<AccountMeta>, amount: u64): (o: Outcome)
    ensures o.result.Failure? ==> o.store == store
    ensures OwnerGuard(store, accounts).Some? ==> o.result == Failure(OwnerGuard(store, accounts).value)
    ensures OwnerGuard(store, accounts).None? && AgentAt(store, accounts[0].key).value.computeCredits + amount > U64_MAX ==>
      o.result == Failure(InvalidInstructionData)
    ensures o.result.Success? <==>
      OwnerGuard(store, accounts).None? && AgentAt(store, accounts[0].key).value.computeCredits + amount <= U64_MAX
    ensures o.result.Success? ==>
      var agent := AgentAt(store, accounts[0].key).value;
      AgentReplaced(store, o.store, accounts[0].key, agent.(computeCredits := agent.computeCredits + amount))
  {
    match OwnerGuard(store, accounts)
    case Some(e) => Fail(store, e)
    case None =>
      var agentKey := accounts[0].key;
      var agent := AgentAt(store, agentKey).value;
      if agent.computeCredits + amount > U64_MAX then Fail(store, InvalidInstructionData)
      else match SerializeAgent(store, agentKey, agent.(computeCredits := agent.computeCredits + amount))
        case None => Fail(store, BorshIoError)
        case Some(s) => Outcome(Success, s)
  }

  /** WithdrawCredits: after the owner guard, fails with InsufficientFunds when
      `amount` exceeds the balance; otherwise only the agent's balance changes,
      down by `amount`. */
  function ProcessWithdrawCredits(store: Store, accounts: seq<AccountMeta>, amount: u64): (o: Outcome)
    ensures o.result.Failure? ==> o.store == store
    ensures OwnerGuard(store, accounts).Some? ==> o.result == Failure(OwnerGuard(store, accounts).value)
    ensures OwnerGuard(store, accounts).None? && AgentAt(store, accounts[0].key).value.computeCredits < amount ==>
      o.result == Failure(InsufficientFunds)
    ensures o.result.Success? <==>
      OwnerGuard(store, accounts).None? && AgentAt(store, accounts[0].key).value.computeCredits >= amount
    ensures o.result.Success? ==>
      var agent := AgentAt(store, accounts[0].key).value;
      AgentReplaced(store, o.store, accounts[0].key, agent.(computeCredits := agent.computeCredits - amount))
  {
    match OwnerGuard(store, accounts)
    case Some(e) => Fail(store, e)
    case None =>
      var agentKey := accounts[0].key;
      var agent := AgentAt(store, agentKey).value;
      if agent.computeCredits < amount then Fail(store, InsufficientFunds)
      else match SerializeAgent(store, agentKey, agent.(computeCredits := agent.computeCredits - amount))
        case None => Fail(store, BorshIoError)
        case Some(s) => Outcome(Success, s)
  }

  /** UpdateAgentStatus: after the owner guard, only the agent's active flag
      changes. */
  function ProcessUpdateStatus(store: Store, accounts: seq<AccountMeta>, isActive: bool): (o: Outcome)
    ensures o.result.Failure? ==> o.store == store
    ensures o.result == (if OwnerGuard(store, accounts).Some? then Failure(OwnerGuard(store, accounts).value) else Success)
    ensures o.result.Success? ==>
      AgentReplaced(store, o.store, accounts[0].key, AgentAt(store, accounts[0].key).value.(isActive := isActive))
  {
    match OwnerGuard(store, accounts)
    case Some(e) => Fail(store, e)
    case None =>
      var agentKey := accounts[0].key;
      var agent := AgentAt(store, agentKey).value;
      match SerializeAgent(store, agentKey, agent.(isActive := isActive))
      case None => Fail(store, BorshIoError)
      case Some(s) => Outcome(Success, s)
  }

  // ---------------------------------------------------------------------------
  // Dispatch

  /** The program's entry point: `payload` is the decoded instruction, or None
      when the instruction bytes do not decode; `funding` is the host's answer
      to RegisterAgent's account creation and is ignored by the other
      instructions. RegisterAgent goes to the handler as written, which sizes
      the account by `size_of::<AIAgent>()`. */
  function ProcessInstruction(programId: Pubkey, store: Store, accounts: seq<AccountMeta>,
                              payload: Option<AIInfraInstruction>, funding: ProgramResult): (o: Outcome)
    ensures o.result.Failure? ==> o.store == store
    ensures payload.None? ==> o.result == Failure(BorshIoError)
    ensures payload == Some(RegisterAgent) ==> o == ProcessRegisterAgentAsWritten(programId, store, accounts, funding)
    ensures payload.Some? && payload.value.CreateTask? ==>
      o == ProcessCreateTask(store, accounts, payload.value.requirements, payload.value.paymentAmount)
    ensures payload.Some? && payload.value.StartTask? ==>
      o == ProcessStartTask(programId, store, accounts, payload.value.taskId)
    ensures payload.Some? && payload.value.CompleteTask? ==>
      o == ProcessCompleteTask(programId, store, accounts, payload.value.taskId, payload.value.resultHash)
    ensures payload.Some? && payload.value.DepositCredits? ==> o == ProcessDepositCredits(store, accounts, payload.value.amount)
    ensures payload.Some? && payload.value.WithdrawCredits? ==> o == ProcessWithdrawCredits(store, accounts, payload.value.amount)
    ensures payload.Some? && payload.value.UpdateAgentStatus? ==>
      o == ProcessUpdateStatus(store, accounts, payload.value.isActive)
  {
    match payload
    case None => Fail(store, BorshIoError)
    case Some(instruction) =>
      match instruction
      case RegisterAgent => ProcessRegisterAgentAsWritten(programId, store, accounts, funding)
      case CreateTask(requirements, paymentAmount) => ProcessCreateTask(store, accounts, requirements, paymentAmount)
      case StartTask(taskId) => ProcessStartTask(programId, store, accounts, taskId)
      case CompleteTask(taskId, resultHash) => ProcessCompleteTask(programId, store, accounts, taskId, resultHash)
      case DepositCredits(amount) => ProcessDepositCredits(store, accounts, amount)
      case WithdrawCredits(amount) => ProcessWithdrawCredits(store, accounts, amount)
      case UpdateAgentStatus(isActive) => ProcessUpdateStatus(store, accounts, isActive)
  }
}
