/** Persisted records of the compute marketplace program, the accounts that hold
    them, and the rules by which a handler reads a record out of an account's
    data buffer and writes one back. */
module State {

  // ---------------------------------------------------------------------------
  // Fixed-width integers and 32-byte values

  const U32_MAX: int := 0xFFFF_FFFF
  const U64_MAX: int := 0xFFFF_FFFF_FFFF_FFFF

  type u8 = x: int | 0 <= x < 0x100
  type u32 = x: int | 0 <= x <= 0xFFFF_FFFF
  type u64 = x: int | 0 <= x <= 0xFFFF_FFFF_FFFF_FFFF

  /** `n` zero bytes. */
  function Zeros(n: nat): (s: seq<u8>)
    ensures |s| == n && forall i :: 0 <= i < n ==> s[i] == 0
  {
    if n == 0 then [] else [0] + Zeros(n - 1)
  }

  /** A 32-byte value: an identity key or a result hash. */
  type Bytes32 = s: seq<u8> | |s| == 32 witness Zeros(32)
  type Pubkey = Bytes32
  type Hash = Bytes32

  const ZERO_32: Bytes32 := Zeros(32)

  /** The system program's identity (32 zero bytes); it owns every account
      that no program has claimed yet. */
  const SYSTEM_PROGRAM_ID: Pubkey := ZERO_32

  datatype Option<T> = None | Some(value: T)

  // ---------------------------------------------------------------------------
  // Records

  /** A registered participant. */
  datatype AIAgent = AIAgent(
    owner: Pubkey,
    computeCredits: u64,
    reputationScore: u32,
    tasksCompleted: u32,
    isActive: bool)

  /** Resources a task asks for; embedded by value in its task. */
  datatype ComputeRequirements = ComputeRequirements(
    cpuUnits: u32,
    memoryMb: u32,
    storageMb: u32,
    maxTimeSeconds: u32)

  datatype TaskStatus = Pending | InProgress | Completed | Failed

  /** One unit of requested work, billed against the agent named by `agent`. */
  datatype ComputeTask = ComputeTask(
    agent: Pubkey,
    requirements: ComputeRequirements,
    status: TaskStatus,
    resultHash: Hash,
    paymentAmount: u64)

  /** The closed instruction set a client may request. */
  datatype AIInfraInstruction =
    | RegisterAgent
    | UpdateAgentStatus(isActive: bool)
    | CreateTask(requirements: ComputeRequirements, paymentAmount: u64)
    | StartTask(taskId: Pubkey)
    | CompleteTask(taskId: Pubkey, resultHash: Hash)
    | DepositCredits(amount: u64)
    | WithdrawCredits(amount: u64)

  // ---------------------------------------------------------------------------
  // Results

  datatype ProgramError =
    | NotEnoughAccountKeys      // fewer accounts supplied than the handler takes
    | MissingRequiredSignature
    | IncorrectProgramId
    | InvalidAccountData
    | InvalidInstructionData
    | InsufficientFunds
    | BorshIoError              // a record or the instruction did not decode, or a record did not fit its buffer
    | AccountAlreadyInUse       // the system program refused to create an account that already exists
    | PrivilegeEscalation       // the host refused a cross-program call needing a signature the caller lacks
    | ArithmeticOverflow        // the program aborted on an unchecked u32 overflow
    | HostError(code: nat)      // any other failure reported by the host while creating an account

  datatype ProgramResult = Success | Failure(error: ProgramError)

  // ---------------------------------------------------------------------------
  // Accounts

  /** Length of the Borsh encoding of an agent: key, u64, u32, u32, bool. */
  const AGENT_LEN: nat := 32 + 8 + 4 + 4 + 1
  /** Length of the Borsh encoding of a task: key, four u32, status tag, hash, u64. */
  const TASK_LEN: nat := 32 + 4 * 4 + 1 + 32 + 8

  /** What the leading bytes of an account's data buffer encode. */
  datatype Content =
    | AgentBytes(agent: AIAgent)
    | TaskBytes(task: ComputeTask)
    | Unparsed                   // bytes that encode neither record

  /** An account as the host stores it: the program that controls it, the
      fixed length of its data buffer, and what that buffer holds. */
  datatype Account = Account(owner: Pubkey, dataLen: nat, content: Content)

  /** One entry of an instruction's ordered account list. */
  datatype AccountMeta = AccountMeta(key: Pubkey, isSigner: bool)

  type Store = map<Pubkey, Account>

  /** An account the host has never seen is empty and owned by the system program. */
  const EMPTY_ACCOUNT: Account := Account(SYSTEM_PROGRAM_ID, 0, Unparsed)

  function Load(store: Store, key: Pubkey): Account {
    if key in store then store[key] else EMPTY_ACCOUNT
  }

  /** Decoding an agent from an account's buffer: the whole buffer must be
      exactly one agent encoding (trailing bytes are rejected). */
  function AgentAt(store: Store, key: Pubkey): (r: Option<AIAgent>)
    ensures r.Some? ==> key in store && store[key].dataLen == AGENT_LEN
  {
    var acc := Load(store, key);
    if acc.content.AgentBytes? && acc.dataLen == AGENT_LEN then Some(acc.content.agent) else None
  }

  /** Decoding a task from an account's buffer, with the same exact-length rule. */
  function TaskAt(store: Store, key: Pubkey): (r: Option<ComputeTask>)
    ensures r.Some? ==> key in store && store[key].dataLen == TASK_LEN
  {
    var acc := Load(store, key);
    if acc.content.TaskBytes? && acc.dataLen == TASK_LEN then Some(acc.content.task) else None
  }

  /** Serializing a record of encoded length `len` into an account's buffer:
      it fails when the buffer is shorter, and otherwise replaces the leading
      bytes while the buffer keeps its length and its controlling program. */
  function Serialize(store: Store, key: Pubkey, content: Content, len: nat): (r: Option<Store>)
    requires len > 0
    ensures r.Some? <==> Load(store, key).dataLen >= len
    ensures r.Some? ==> key in store && r.value == store[key := store[key].(content := content)]
  {
    var acc := Load(store, key);
    if acc.dataLen < len then None else Some(store[key := acc.(content := content)])
  }

  function SerializeAgent(store: Store, key: Pubkey, agent: AIAgent): (r: Option<Store>)
    ensures r.Some? <==> Load(store, key).dataLen >= AGENT_LEN
    ensures r.Some? ==> OnlyChanged(store, r.value, key) && r.value[key].content == AgentBytes(agent)
    ensures r.Some? ==> AgentAt(r.value, key) == (if store[key].dataLen == AGENT_LEN then Some(agent) else None)
  {
    Serialize(store, key, AgentBytes(agent), AGENT_LEN)
  }

  function SerializeTask(store: Store, key: Pubkey, task: ComputeTask): (r: Option<Store>)
    ensures r.Some? <==> Load(store, key).dataLen >= TASK_LEN
    ensures r.Some? ==> OnlyChanged(store, r.value, key) && r.value[key].content == TaskBytes(task)
    ensures r.Some? ==> TaskAt(r.value, key) == (if store[key].dataLen == TASK_LEN then Some(task) else None)
  {
    Serialize(store, key, TaskBytes(task), TASK_LEN)
  }

  /** `after` differs from `before` at most in the buffer contents of `key`. */
  ghost predicate OnlyChanged(before: Store, after: Store, key: Pubkey) {
    key in before && key in after &&
    after == before[key := after[key]] &&
    after[key].owner == before[key].owner &&
    after[key].dataLen == before[key].dataLen
  }

  /** The agent at `key` was replaced by `agent` and nothing else changed. */
  ghost predicate AgentReplaced(before: Store, after: Store, key: Pubkey, agent: AIAgent) {
    OnlyChanged(before, after, key) && AgentAt(after, key) == Some(agent)
  }

  /** The task at `key` was replaced by `task` and nothing else changed. */
  ghost predicate TaskReplaced(before: Store, after: Store, key: Pubkey, task: ComputeTask) {
    OnlyChanged(before, after, key) && TaskAt(after, key) == Some(task)
  }
}
