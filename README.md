# Compute marketplace ledger program, modelled in Dafny

The program keeps two kinds of records in accounts that a ledger host lends it
on every call:

- **Agents** hold an owner key, a u64 credit balance, a u32 reputation, a u32
  count of completed tasks and an active flag.
- **Tasks** name the agent they bill, their compute requirements, a status
  (Pending, InProgress, Completed, Failed), a 32-byte result hash and a u64
  payment.

A call carries one instruction and an ordered list of accounts. It is
dispatched to one of seven handlers:

- RegisterAgent
- CreateTask
- StartTask
- CompleteTask
- DepositCredits
- WithdrawCredits
- UpdateAgentStatus

Each handler checks its own guards in order, drawn from: enough accounts,
signer flags, owner keys, the controlling program of the task account, the
task status and the balance. StartTask and CompleteTask check no signer. It then rewrites the records it touched. When a handler fails, the
host throws away everything the call wrote.

How the model is built:

- **`State`** (state.dfy) holds the integer widths, keys, records, the
  instruction set and the errors. An account is its controlling program, the
  fixed length of its data buffer, and the record its leading bytes encode.
  Decoding follows Borsh's `try_from_slice`: it succeeds only when the buffer
  is exactly one encoding long (49 bytes for an agent, 89 for a task).
  Serializing fails when the buffer is too short. The host's accounts are a
  map from key to account. A key the host has never seen is an empty account
  owned by the system program. Because accounts are keyed, passing the same
  account twice in one call behaves as it does on the host.
- **`Handlers`** (handlers.dfy) gives each handler as a function from the
  accounts before the call to an `Outcome`: the result and the accounts after
  the call. Each contract states:
  - the error for each guard, in the order the guards run;
  - the exact condition for success;
  - that a failed call changes nothing;
  - on success, which record changed and how.
- **`Program`** (program.dfy) is the program as it runs: class `Processor`
  with the program id and the accounts as fields. It has one `modifies this`
  method per handler. RegisterAgent sizes the new account as the code does. Each method reads a record into a local, updates its
  fields, stages the writes, and commits them only after every guard has
  passed. Each method is proved equal to its function in `Handlers`.
- **`Properties`** (properties.dfy) proves:
  - the scenarios of the program's tests;
  - that StartTask and CompleteTask each succeed at most once on a task;
  - the deposit/withdraw round trips;
  - invariants over any sequence of calls. An agent's owner is never
    reassigned and its reputation never changes. The completed count never
    falls. Task status only moves forward, and terminal tasks stay as they are
    unless a CreateTask aimed at their account overwrites them. No call ever
    produces a Failed task.

Behaviour of the code as written that the contracts state outright:

- CreateTask reports `InsufficientFunds`. It does not compare the payer with
  the agent's owner, and it does not check that the task account is free. An
  existing task, even a Completed one, is replaced by a new Pending task and
  the agent pays again (`CreateTaskReopensCompletedTask`).
- StartTask and CompleteTask ignore their `task_id` argument.
- StartTask and CompleteTask check no signature: anyone can start or complete
  any task in an account this program controls. CompleteTask then raises the
  completed count of whatever agent account is passed.
- CompleteTask credits whichever agent account is passed. It does not compare
  it with the task's `agent`, and it leaves `reputation_score` unchanged.
- No handler sets a task to Failed.
- The unchecked `tasks_completed += 1` is modelled as an aborting failure
  (`ArithmeticOverflow`), which leaves the accounts unchanged. This is what a
  build with overflow checks does, such as the native test harness.

Errors and fields that the repository declares but the program never uses:

- src/error.rs defines `InvalidInstruction`, `NotRentExempt` and
  `InsufficientCredits`. No handler returns them.
- Decode failures surface as the host's Borsh I/O error.
- The balance guards report the host's `InsufficientFunds`.
- `reputation_score` is set to 100 at registration, and no handler changes it
  afterwards.

## Model

| member | source | states |
|---|---|---|
| State.AgentAt | src/lib.rs:165 | an agent decodes only from an account whose buffer is exactly one agent encoding long |
| State.TaskAt | src/lib.rs:201 | a task decodes only from an account whose buffer is exactly one task encoding long |
| State.SerializeAgent | src/lib.rs:182 | writing an agent fails iff the buffer is shorter than the agent's encoding, changes only that account's record otherwise, and the agent decodes back iff the buffer has exactly the agent's length, so a 56-byte buffer never decodes |
| State.SerializeTask | src/lib.rs:178 | writing a task succeeds iff the buffer is long enough, changes only that account's record, and it decodes back iff the buffer has exactly the task's length |
| Handlers.ProcessRegisterAgentAsWritten | src/lib.rs:110-147 | fewer than four accounts gives NotEnoughAccountKeys, an unsigned owner MissingRequiredSignature, a host failure passes through, an unsigned new account PrivilegeEscalation (the system program's create_account needs its signature), an account in use AccountAlreadyInUse; any failure changes nothing; on success only the new slot changes: it is program-controlled, `size_of::<AIAgent>()` = 56 bytes long, holds the fresh agent's bytes, and cannot be decoded |
| Handlers.ProcessRegisterAgent | src/lib.rs:110-147 | the same guards and errors with the account sized to the record; on success only the new slot changes, it is program-controlled and decodes to {owner = signer, credits 0, reputation 100, completed 0, active} |
| Handlers.ProcessCreateTask | src/lib.rs:150-186 | error order: accounts, payer signature, agent decode, InsufficientFunds when payment exceeds credits, BorshIoError when the task buffer is too short; success iff these pass; on success task and agent slots differ, the task slot holds {agent key, requirements, Pending, zero hash, payment} and the agent is debited exactly the payment; failure changes nothing |
| Handlers.ProcessStartTask | src/lib.rs:188-211 | too few accounts gives NotEnoughAccountKeys, a foreign task account IncorrectProgramId, an undecodable task BorshIoError, a status other than Pending InvalidAccountData; success iff the task is program-owned and Pending, and then only its status changes, to InProgress |
| Handlers.ProcessCompleteTask | src/lib.rs:213-243 | the same account, program-id and decode guards; status other than InProgress gives InvalidAccountData; an agent slot that does not decode once the task is written (or is the task slot) gives BorshIoError; a full completed count aborts; on success the task is Completed with the given hash, the agent's completed count is one higher and its other fields are unchanged, nothing else changes |
| Handlers.OwnerGuard | src/lib.rs:254-261 | the shared guard passes iff there are two accounts, the owner signed, the agent decodes and the signer is its owner; otherwise it reports NotEnoughAccountKeys, MissingRequiredSignature, BorshIoError or InvalidAccountData, the first that applies in that order |
| Handlers.ProcessDepositCredits | src/lib.rs:245-270 | after the owner guard, a sum above 2^64-1 gives InvalidInstructionData; on success only the balance changes, up by the amount; failure changes nothing |
| Handlers.ProcessWithdrawCredits | src/lib.rs:272-299 | after the owner guard, an amount above the balance gives InsufficientFunds; on success only the balance changes, down by the amount; failure changes nothing |
| Handlers.ProcessUpdateStatus | src/lib.rs:301-324 | the result is exactly the owner guard's; on success only the agent's active flag changes |
| Handlers.ProcessInstruction | src/lib.rs:77-107 | an instruction that does not decode fails with BorshIoError and changes nothing; each instruction gets exactly the outcome of its handler, RegisterAgent that of the handler as written |
| Program.Processor.RegisterAgent | src/lib.rs:110-147 | the imperative handler produces the result and accounts of Handlers.ProcessRegisterAgentAsWritten |
| Program.Processor.CreateTask | src/lib.rs:150-186 | the imperative handler produces the result and accounts of Handlers.ProcessCreateTask |
| Program.Processor.StartTask | src/lib.rs:188-211 | the imperative handler produces the result and accounts of Handlers.ProcessStartTask |
| Program.Processor.CompleteTask | src/lib.rs:213-243 | the imperative handler produces the result and accounts of Handlers.ProcessCompleteTask |
| Program.Processor.CheckOwner | src/lib.rs:254-261 | the signer and owner checks succeed exactly when Handlers.OwnerGuard passes, report its error otherwise, and hand back the decoded agent |
| Program.Processor.DepositCredits | src/lib.rs:245-270 | the imperative handler produces the result and accounts of Handlers.ProcessDepositCredits |
| Program.Processor.WithdrawCredits | src/lib.rs:272-299 | the imperative handler produces the result and accounts of Handlers.ProcessWithdrawCredits |
| Program.Processor.UpdateStatus | src/lib.rs:301-324 | the imperative handler produces the result and accounts of Handlers.ProcessUpdateStatus |
| Program.Processor.ProcessInstruction | src/lib.rs:77-107 | the dispatch produces the result and accounts of Handlers.ProcessInstruction |
| Properties.AgentStep | src/lib.rs:110-324 | after any one call an agent slot still holds an agent with the same owner and reputation and a completed count no lower; only Deposit, Withdraw and CreateTask move its balance, only CompleteTask its count, only UpdateAgentStatus its active flag |
| Properties.TaskStep | src/lib.rs:156-239 | after any one call except a CreateTask whose task account is this one, a task keeps its agent, requirements and payment, moves at most one lifecycle step, and is unchanged if Completed or Failed |
| Properties.NoFailedStep | src/lib.rs:206-232 | no call leaves a Failed task that was not there before |
| Properties.RunKeepsAgent | src/lib.rs:110-324 | over any sequence of calls, an agent's owner is never reassigned, its reputation never changes and its completed count never falls |
| Properties.RunTaskLifecycle | src/lib.rs:156-239 | over any sequence of calls in which no CreateTask targets the task's account (CreateTask on other accounts allowed), a task keeps its terms, its status only moves forward along Pending, InProgress, Completed, and a Completed or Failed task stays exactly as it is |
| Properties.RunNeverFails | src/lib.rs:206-232 | over any sequence of calls, a Failed task at the end was already that task at the start |
| Properties.StartTaskTwice | src/lib.rs:202-207 | after a successful StartTask, a second StartTask fails with InvalidAccountData and changes nothing |
| Properties.CompleteTaskTwice | src/lib.rs:228-239 | after a successful CompleteTask, a second one fails with InvalidAccountData and changes nothing |
| Properties.TaskIdIgnored | src/lib.rs:188-230 | StartTask and CompleteTask give the same outcome whatever task id is passed |
| Properties.DepositThenWithdraw | src/lib.rs:254-295 | a successful deposit followed by a withdrawal of the same amount succeeds and restores every account exactly |
| Properties.WithdrawThenDeposit | src/lib.rs:254-295 | a successful withdrawal followed by a deposit of the same amount succeeds and restores every account exactly |
| Properties.CreateTaskScenario | tests/ai_infra_tests.rs:129-206 | given a task account already allocated with exactly the task's length (the test never allocates one), an agent with 1000 credits creating a task with requirements {100, 512, 1024, 3600} and payment 500 gets a Pending task for 500 and is left with 500 |
| Properties.CreateTaskUnallocatedSlot | tests/ai_infra_tests.rs:126-180 | with the task account never allocated (the test's task keypair of line 126 is named only in the account list at line 172 and in the read-back at line 185, and nothing allocates it; a latent defect of the test, which shows once its payload decodes), the same decoded CreateTask fails with BorshIoError at src/lib.rs:178 and changes nothing |
| Properties.RegisterThenDeposit | tests/ai_infra_tests.rs:210-266 | with the account sized to the record and both the new account and the owner signing, a fresh agent that deposits an amount holds exactly that amount and is otherwise the fresh agent |
| Properties.RegisterWithoutAgentSignature | tests/ai_infra_tests.rs:39-56 | a decoded RegisterAgent in which the new agent account does not sign (a latent defect of the test's helper, which shows once its payload decodes) fails whatever the host's funding and changes nothing; with funding it fails with PrivilegeEscalation |
| Properties.RegisterAsWrittenThenDeposit | src/lib.rs:130-144 | with the account sized as written, the first deposit on a freshly registered agent fails to decode the agent and changes nothing |
| Properties.CreateTaskReopensCompletedTask | src/lib.rs:170-178 | CreateTask aimed at a Completed task's account succeeds and leaves a Pending task there |

## Left out

- Borsh byte layout: records are abstract values, and only the encoded lengths (49 and 89 bytes) are modelled. Bytes that are not a record written by this program never decode. In reality arbitrary bytes of the right length can parse, for example a zero-filled buffer.
- A record written into a longer buffer leaves trailing bytes, and such a buffer never decodes, as Borsh's `try_from_slice` refuses unread bytes.
- Handlers.CreateAccount: the rent lookup, the payer's lamports and rent exemption are one abstract `funding` result, checked first. The new account's signature is modelled explicitly. The "account already in use" refusal is modelled only for an account that has data or is not owned by the system program. Account lamports are not modelled, so a system-owned account with lamports but no data counts as free, and `funding` has to stand for the host's refusal of it.
- Host checks after a call are not modelled: writes to accounts the program does not control, writes to read-only accounts, and lamport balances.
- Host signature verification is not modelled. An account's `isSigner` flag is taken as given.
- Logging (`msg!`) is not modelled, because it is output only.
- `add` and its test are boilerplate and not part of the program's behaviour.
- src/processor.rs, src/state.rs, src/instruction.rs, src/mod.rs and src/error.rs are not part of this model. They are not compiled into the program, and the custom error enum is used by no handler.
- The unchecked `tasks_completed += 1` is modelled as an abort (ArithmeticOverflow). A release build without overflow checks would instead wrap the count to 0.
- No FailTask handler is modelled: the program has none, and Failed exists only in the status type.
- Concurrency is not modelled: the host serialises calls that touch the same accounts.

## Findings

| source | as written | input that shows it | evidently intended | confidence | as-written member | corrected member |
|---|---|---|---|---|---|---|
| src/lib.rs:130-144 | the agent account is created with `std::mem::size_of::<AIAgent>()` bytes. That is Rust's padded in-memory size, 56. The Borsh record written into it is 49 bytes, and `try_from_slice` rejects the 7 trailing bytes. | RegisterAgent signed by the owner and the new account, then DepositCredits(1000) signed by the same owner. The deposit fails decoding the agent. So does every later handler that reads that agent. | size the account to the record's encoded length, so that a registered agent can be used (the credit-management test deposits into a freshly registered agent) | high; not executed | Handlers.ProcessRegisterAgentAsWritten, Properties.RegisterAsWrittenThenDeposit | Handlers.ProcessRegisterAgent, Properties.RegisterThenDeposit |
| tests/ai_infra_tests.rs:46,55 | the test helper passes the new agent account as a non-signer and signs only with the payer and the owner. The system program's create_account invoked at src/lib.rs:133-142 needs the new account's signature, so the host refuses the call. | `create_test_agent` as called by `test_credit_management`, once its payload is passed as `&AIInfraInstruction::RegisterAgent`. As written the defect is latent: tests:42-44 hand an already encoded `Vec<u8>` to `Instruction::new_with_borsh`, which encodes it again behind a 4-byte length prefix, so `try_from_slice` at src/lib.rs:82 fails first. | the new agent keypair signs the registration | high; not executed | Properties.RegisterWithoutAgentSignature | Properties.RegisterThenDeposit |
| tests/ai_infra_tests.rs:126,168-180 | the task keypair is never allocated, so the task account's buffer is empty. `task.serialize` at src/lib.rs:178 cannot fit the 89-byte task and the call fails with a Borsh I/O error. | `test_task_creation_and_execution`, once its payload is passed as `&AIInfraInstruction::CreateTask { .. }`. As written the defect is latent: tests:168-170 encode the payload twice, so `try_from_slice` at src/lib.rs:82 fails first, and tests:123 and 147 use `program_test` after `start` has consumed it, so the file does not compile. | allocate an account of the task's length for the task keypair before CreateTask | high; not executed | Properties.CreateTaskUnallocatedSlot | Properties.CreateTaskScenario |
