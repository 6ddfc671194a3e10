# VM-exit virtualizers for external interrupts and control registers

A Dafny model of two VM-exit virtualizers from the Bareflank extended APIs
(Intel x64). Both work the same way. Each one keeps handler chains: handlers are
registered at the front of a chain. On an exit, the chain is called front to back
until a handler claims the exit.

- **External-interrupt virtualizer** (`ExternalInterrupt`). It has one chain and a
  table of 256 per-vector exit counters, which count only while logging is on. It
  also owns two coupled VMCS controls, "external-interrupt exiting" and
  "acknowledge interrupt on exit". `EnableExiting` and `DisableExiting` set or clear
  them together. An exit that no handler claims ends in a distinct fatal outcome,
  "unhandled interrupt vector". `Handle` never returns an ordinary `false`.
- **Control-register virtualizer** (`ControlRegister`). It has four independent
  chains: write CR0, read CR3, write CR3 and write CR4. Before the first handler
  runs, the exit descriptor `info_t` is filled with per-access defaults. A claimed
  exit then does two things unless the claiming handler opts out:
  - It writes the descriptor's `val` back to the guest register, plus `shadow` to
    the read shadow for CR0 and CR4. `ignoreWrite` opts out of this.
  - It advances the guest instruction pointer. `ignoreAdvance` opts out of this.

  Each exit appends a `(val, shadow)` record to the register's log while logging is
  on.

Shared pieces:

- `MachineTypes` holds the 64-bit value type and the VMCS. The VMCS is a record of
  named fields, with the guest general-purpose registers kept beside it. Methods
  that touch the VMCS take it as an argument and return the updated record.
- `HandlerChain` is the dispatch shared by both virtualizers:
  - `Dispatch` is the recursive specification.
  - `After` is an independent reference definition: the context after the first `k`
    handlers have run.
  - `RunChain` is the loop, proved to compute `Dispatch`.
  - Handlers are opaque function values from context to (claimed, context). The C++
    handlers get the VMCS and the info record by reference, so each handler sees
    the context the previous handler left behind.

Logging is one flag, `logEnabled`, fixed when the object is built. It stands for
"debug build and log enabled".

The control-register implementation file is not part of this model. Only its
header, `control_register.h`, is modelled. Its doc comments fix the defaults, the
two opt-out flags and the mask/shadow effect of `enable_wrcr0/4_exiting`. Four
things the header does not say are modelling choices, marked as such under
"## Left out":

- which VMCS controls `enable_rdcr3_exiting` and `enable_wrcr3_exiting` set;
- when a log record is taken, and what it holds;
- exactly which fields the write-back stores;
- what `handle` returns for an unclaimed exit.

## Model

| member | source | states |
|---|---|---|
| `HandlerChain.Dispatch` | bfvmm/src/hve/arch/intel_x64/vmexit/external_interrupt.cpp:107-115 | calls at most the whole chain; a claim means at least one handler ran; an unclaimed dispatch ran every handler |
| `HandlerChain.DispatchSpec` | bfvmm/src/hve/arch/intel_x64/vmexit/external_interrupt.cpp:107-111 | a claimed dispatch stops at the FIRST claiming handler: all earlier handlers declined, none after it ran, and its context is returned; an unclaimed dispatch ran all handlers in order, each declining |
| `HandlerChain.ClaimedIffSomeHandlerClaims` | bfvmm/src/hve/arch/intel_x64/vmexit/external_interrupt.cpp:107-111 | the chain claims an exit exactly when some handler returns true when it is reached |
| `HandlerChain.DispatchPreserves` | bfvmm/include/hve/arch/intel_x64/vmexit/control_register.h:63-64 | a property of the context that every handler preserves still holds when dispatch ends |
| `HandlerChain.LastRegisteredRunsFirst` | bfvmm/src/hve/arch/intel_x64/vmexit/external_interrupt.cpp:51-54 | after registering H1 and then H2, H2 runs first; if H2 declines and H1 claims, H1 sees H2's context and two handlers ran |
| `HandlerChain.RunChain` | bfvmm/src/hve/arch/intel_x64/vmexit/external_interrupt.cpp:107-111 | the early-return loop over the handlers computes exactly `Dispatch` (claimed flag, handlers invoked, final context) |
| `ExternalInterrupt.CountExit` | bfvmm/src/hve/arch/intel_x64/vmexit/external_interrupt.cpp:103-105 | with logging on, the exiting vector's counter goes up by one (wrapping to 0 at 2^64) and the other 255 counters stay as they were; with logging off the table is unchanged |
| `ExternalInterrupt.TallyCountsOccurrences` | bfvmm/src/hve/arch/intel_x64/vmexit/external_interrupt.cpp:103-105 | with logging on and no wrap, after any sequence of exits each counter has grown by the number of exits on its vector |
| `ExternalInterrupt.TallyDisabledKeepsCounts` | bfvmm/src/hve/arch/intel_x64/vmexit/external_interrupt.cpp:103 | with logging off, no sequence of exits changes the counter table |
| `ExternalInterrupt.ExternalInterruptHandler.constructor` | bfvmm/src/hve/arch/intel_x64/vmexit/external_interrupt.cpp:27-38 | a new virtualizer has an empty chain and all 256 counters at zero |
| `ExternalInterrupt.ExternalInterruptHandler.AddHandler` | bfvmm/src/hve/arch/intel_x64/vmexit/external_interrupt.cpp:51-54 | the new handler is at the front; the chain grows by one and the old chain follows it unchanged |
| `ExternalInterrupt.ExternalInterruptHandler.EnableExiting` | bfvmm/src/hve/arch/intel_x64/vmexit/external_interrupt.cpp:56-61 | sets both external-interrupt exiting and acknowledge interrupt on exit, so the two are equal; no other VMCS field changes |
| `ExternalInterrupt.ExternalInterruptHandler.DisableExiting` | bfvmm/src/hve/arch/intel_x64/vmexit/external_interrupt.cpp:63-68 | clears both controls, so the two are equal; no other VMCS field changes |
| `ExternalInterrupt.ExternalInterruptHandler.DumpLog` | bfvmm/src/hve/arch/intel_x64/vmexit/external_interrupt.cpp:82-86 | the reported vectors are exactly those in 0..255 with a nonzero count, in strictly ascending order |
| `ExternalInterrupt.ExternalInterruptHandler.Handle` | bfvmm/src/hve/arch/intel_x64/vmexit/external_interrupt.cpp:96-116 | the exit's vector is counted before dispatch, whatever the outcome; the first claiming handler ends the exit (`Handled`); if every handler declines, including on an empty chain, the outcome is the fatal `UnhandledVector`, carrying the vector as the info record holds it after the chain; there is no `false` outcome |
| `ControlRegister.DefaultInfo` | bfvmm/include/hve/arch/intel_x64/vmexit/control_register.h:51-103 | defaults handed to the first handler: `val` is the source GPR for writes of CR0/CR3/CR4 and the guest CR3 for a read of CR3; `shadow` is the CR0 read shadow for write CR0, the CR4 read shadow for write CR4, and 0 for both CR3 accesses; `ignoreWrite` and `ignoreAdvance` are false |
| `ControlRegister.Complete` | bfvmm/include/hve/arch/intel_x64/vmexit/control_register.h:83-102 | when `ignoreWrite` is false, the accessed register gets `val` (and the CR0/CR4 read shadow gets `shadow`); when it is true, no guest register state is touched; the IP moves past the instruction exactly when `ignoreAdvance` is false; nothing else changes |
| `ControlRegister.Resolved` | bfvmm/include/hve/arch/intel_x64/vmexit/control_register.h:45-103 | one exit: defaults, then dispatch until the first claim, then `Complete` on the claiming handler's context; an unclaimed exit drops the descriptor and keeps only what the handlers themselves did to the VMCS |
| `ControlRegister.PassThroughIsNative` | bfvmm/include/hve/arch/intel_x64/vmexit/control_register.h:53-81 | a handler that claims and leaves the defaults alone reproduces the native instruction: the value reaches its destination (a read of CR3 delivers the guest CR3 unchanged), the read shadow keeps its value, and the IP advances |
| `ControlRegister.UntouchedValKeepsDefault` | bfvmm/include/hve/arch/intel_x64/vmexit/control_register.h:63-64 | if no handler changes `val`, the exit carries the computed default: it is logged, and it is written unless the write is ignored |
| `ControlRegister.UntouchedShadowKeepsDefault` | bfvmm/include/hve/arch/intel_x64/vmexit/control_register.h:78-79 | if no handler changes `shadow`, the exit carries the default shadow, and a claimed CR0/CR4 write leaves the read shadow as it was |
| `ControlRegister.EmptyChainDiscardsDescriptor` | bfvmm/include/hve/arch/intel_x64/vmexit/control_register.h:48-49 | with no handler, the defaults are still computed, the exit is unclaimed, and the VMCS is left as it was |
| `ControlRegister.Resolve` | bfvmm/include/hve/arch/intel_x64/vmexit/control_register.h:253-256 | the body shared by the four `handle_*` paths computes exactly `Resolved` |
| `ControlRegister.ControlRegisterHandler.constructor` | bfvmm/include/hve/arch/intel_x64/vmexit/control_register.h:120 | all four chains and all three logs start empty |
| `ControlRegister.ControlRegisterHandler.AddWrCr0Handler` | bfvmm/include/hve/arch/intel_x64/vmexit/control_register.h:138 | prepends to the write-CR0 chain; the other three chains are unchanged |
| `ControlRegister.ControlRegisterHandler.AddRdCr3Handler` | bfvmm/include/hve/arch/intel_x64/vmexit/control_register.h:147 | prepends to the read-CR3 chain; the other three chains are unchanged |
| `ControlRegister.ControlRegisterHandler.AddWrCr3Handler` | bfvmm/include/hve/arch/intel_x64/vmexit/control_register.h:156 | prepends to the write-CR3 chain; the other three chains are unchanged |
| `ControlRegister.ControlRegisterHandler.AddWrCr4Handler` | bfvmm/include/hve/arch/intel_x64/vmexit/control_register.h:165 | prepends to the write-CR4 chain; the other three chains are unchanged |
| `ControlRegister.ControlRegisterHandler.EnableWrCr0Exiting` | bfvmm/include/hve/arch/intel_x64/vmexit/control_register.h:179-183 | the CR0 guest/host mask becomes `mask` and the CR0 read shadow becomes `shadow`; nothing else changes |
| `ControlRegister.ControlRegisterHandler.EnableRdCr3Exiting` | bfvmm/include/hve/arch/intel_x64/vmexit/control_register.h:185-195 | CR3-store exiting is turned on; nothing else changes |
| `ControlRegister.ControlRegisterHandler.EnableWrCr3Exiting` | bfvmm/include/hve/arch/intel_x64/vmexit/control_register.h:197-207 | CR3-load exiting is turned on; nothing else changes |
| `ControlRegister.ControlRegisterHandler.EnableWrCr4Exiting` | bfvmm/include/hve/arch/intel_x64/vmexit/control_register.h:219-223 | the CR4 guest/host mask becomes `mask` and the CR4 read shadow becomes `shadow`; nothing else changes |
| `ControlRegister.ControlRegisterHandler.HandleWrCr0` | bfvmm/include/hve/arch/intel_x64/vmexit/control_register.h:253 | a write-CR0 exit on the write-CR0 chain, per `Resolved`; the record is appended to the CR0 log when logging is on |
| `ControlRegister.ControlRegisterHandler.HandleRdCr3` | bfvmm/include/hve/arch/intel_x64/vmexit/control_register.h:254 | a read-CR3 exit on the read-CR3 chain, per `Resolved`; the record is appended to the CR3 log when logging is on |
| `ControlRegister.ControlRegisterHandler.HandleWrCr3` | bfvmm/include/hve/arch/intel_x64/vmexit/control_register.h:255 | a write-CR3 exit on the write-CR3 chain, per `Resolved`; the record is appended to the CR3 log when logging is on |
| `ControlRegister.ControlRegisterHandler.HandleWrCr4` | bfvmm/include/hve/arch/intel_x64/vmexit/control_register.h:256 | a write-CR4 exit on the write-CR4 chain, per `Resolved`; the record is appended to the CR4 log when logging is on |
| `ControlRegister.ControlRegisterHandler.Handle` | bfvmm/include/hve/arch/intel_x64/vmexit/control_register.h:243 | routes the decoded exit to its chain; returns true exactly when a handler claimed it; only that register's log grows |

## Left out

- Exit-qualification decoding (`handle_cr0`, `handle_cr3`, `handle_cr4`, control_register.h:249-251) is left out. The decoded access and GPR number come in as the input `Exit`. Accesses that have no chain (reads of CR0/CR4, CLTS, LMSW) are not modelled.
- `base::emulate_rdgpr` and `base::emulate_wrgpr` are not part of this model. They are reads and writes of the guest GPR file kept beside the VMCS record.
- VMCS accessors are plain field reads and writes of the `Vmcs` record. Hardware semantics of the controls are not modelled.
- Registering each virtualizer with the exit router in its constructor (external_interrupt.cpp:34-37) is foreign wiring and is left out.
- `delegate<>` and `gsl::not_null` are left out. A handler is a pure function value from (VMCS, info) to (claimed, VMCS, info). Anything a handler does outside those two is not modelled.
- The text formatting in `dump_log` is left out. The external-interrupt model returns only the reported vectors, not the printed counts.
- The destructor's log flush (external_interrupt.cpp:40-45) is left out because it is diagnostics output.
- The control-register `dump_log` (control_register.h:237) is diagnostics output, and its implementation file is not part of this model.
- The `ndebug` build flag and the log on/off switch are folded into one flag, `logEnabled`, fixed at construction. Turning logging on or off later is not modelled.
- The move and copy constructors (control_register.h:280-284) are C++ object plumbing and are left out.
- The exception thrown for an unclaimed interrupt is the outcome `UnhandledVector`. Stack unwinding is not modelled. VMCS changes the handlers already made are kept.
- Interrupt counters are assumed to be 64-bit unsigned and wrap at 2^64. The declaration of `m_log` is not part of this model.
- ControlRegister.ControlRegisterHandler.EnableRdCr3Exiting and ControlRegister.ControlRegisterHandler.EnableWrCr3Exiting are modelled as setting the Intel SDM "CR3-store exiting" and "CR3-load exiting" controls. The header comments do not name these fields.
- ControlRegister.Resolved takes one log record per exit, claimed or not, when logging is on. The record holds the descriptor's `val` and `shadow` as the chain left it. The header declares `record_t` and the logs but not when records are taken.
- ControlRegister.Complete writes `val` unchanged into guest CR0/CR4, with no forced bits. It writes `shadow` into the read shadow only for CR0 and CR4. The implementation file that would settle the exact bits is not part of this model.
- ControlRegister.ControlRegisterHandler.Handle returns `false` for an unclaimed control-register exit rather than failing, as its `bool` return type suggests.
