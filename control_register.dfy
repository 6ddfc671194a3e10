/** The control-register exit virtualizer: four independent handler chains (write
    CR0, read CR3, write CR3, write CR4), the per-exit descriptor (`info_t`) built
    with per-access defaults, the write-back and instruction-pointer advance that
    follow a claimed exit unless the claiming handler opts out, and the three
    per-register logs of (val, shadow) records. */
module ControlRegister {
  import opened MachineTypes
  import opened HandlerChain

  /** The decoded access that caused the exit. Decoding the exit qualification is an input. */
  datatype Access = WriteCr0 | ReadCr3 | WriteCr3 | WriteCr4

  /** The exit as decoded from the exit qualification: the access and the general-purpose
      register it names (source of a write, destination of a read). */
  datatype Exit = Exit(access: Access, gpr: GprIndex)

  /** `info_t`: the in/out descriptor the handlers may change. */
  datatype Info = Info(val: u64, shadow: u64, ignoreWrite: bool, ignoreAdvance: bool)

  /** What a handler receives and may change: the VMCS and the descriptor. */
  datatype Context = Context(vmcs: Vmcs, info: Info)

  /** `record_t`: one log entry. */
  datatype Record = Record(val: u64, shadow: u64)

  /** A handled or unhandled exit: whether a handler claimed it, how many handlers
      ran, the resulting VMCS, and the log record it produces. */
  datatype Resolution = Resolution(handled: bool, invoked: nat, vmcs: Vmcs, record: Record)

  /** The guest register an access writes: the control register for a write, the
      named general-purpose register for a read of CR3. */
  function Target(access: Access, gpr: GprIndex, vmcs: Vmcs): u64
  {
    match access
    case WriteCr0 => vmcs.guestCr0
    case ReadCr3 => vmcs.gprs[gpr]
    case WriteCr3 => vmcs.guestCr3
    case WriteCr4 => vmcs.guestCr4
  }

  /** The value the trapped instruction moves: the emulated read of the source register
      for a write, the guest CR3 for a read of CR3. */
  function Source(access: Access, gpr: GprIndex, vmcs: Vmcs): u64
  {
    if access == ReadCr3 then vmcs.guestCr3 else vmcs.gprs[gpr]
  }

  /** The read shadow of the register, for the accesses that have one; 0 otherwise. */
  function DefaultShadow(access: Access, vmcs: Vmcs): u64
  {
    match access
    case WriteCr0 => vmcs.cr0ReadShadow
    case WriteCr4 => vmcs.cr4ReadShadow
    case _ => 0
  }

  /** The descriptor as the first handler receives it. */
  function DefaultInfo(access: Access, gpr: GprIndex, vmcs: Vmcs): (info: Info)
    ensures !info.ignoreWrite && !info.ignoreAdvance
    ensures access != ReadCr3 ==> info.val == vmcs.gprs[gpr]
    ensures access == ReadCr3 ==> info.val == vmcs.guestCr3
    ensures access == WriteCr0 ==> info.shadow == vmcs.cr0ReadShadow
    ensures access == WriteCr4 ==> info.shadow == vmcs.cr4ReadShadow
    ensures access == WriteCr3 || access == ReadCr3 ==> info.shadow == 0
  {
    Info(Source(access, gpr, vmcs), DefaultShadow(access, vmcs), false, false)
  }

  /** The context the chain starts from. */
  function Start(access: Access, gpr: GprIndex, vmcs: Vmcs): Context
  {
    Context(vmcs, DefaultInfo(access, gpr, vmcs))
  }

  /** `b` differs from `a` at most in the register the access writes, that
      register's read shadow, and the guest instruction pointer. */
  predicate WritesOnly(access: Access, gpr: GprIndex, a: Vmcs, b: Vmcs)
  {
    match access
    case WriteCr0 => b == a.(guestCr0 := b.guestCr0, cr0ReadShadow := b.cr0ReadShadow, guestRip := b.guestRip)
    case ReadCr3 => b == a.(gprs := a.gprs[gpr := b.gprs[gpr]], guestRip := b.guestRip)
    case WriteCr3 => b == a.(guestCr3 := b.guestCr3, guestRip := b.guestRip)
    case WriteCr4 => b == a.(guestCr4 := b.guestCr4, cr4ReadShadow := b.cr4ReadShadow, guestRip := b.guestRip)
  }

  /** The default write-back of a claimed exit: the descriptor's value goes to the
      register the access writes, and for CR0 and CR4 its shadow to the read shadow. */
  function WriteBack(access: Access, gpr: GprIndex, vmcs: Vmcs, info: Info): Vmcs
  {
    match access
    case WriteCr0 => vmcs.(guestCr0 := info.val, cr0ReadShadow := info.shadow)
    case ReadCr3 => vmcs.(gprs := vmcs.gprs[gpr := info.val])
    case WriteCr3 => vmcs.(guestCr3 := info.val)
    case WriteCr4 => vmcs.(guestCr4 := info.val, cr4ReadShadow := info.shadow)
  }

  /** What the virtualizer does after the claiming handler returns: write back unless
      `ignoreWrite`, advance the guest past the instruction unless `ignoreAdvance`. */
  function Complete(access: Access, gpr: GprIndex, ctx: Context): (v: Vmcs)
    ensures v.guestRip == (if ctx.info.ignoreAdvance then ctx.vmcs.guestRip else NextRip(ctx.vmcs))
    ensures Target(access, gpr, v) == (if ctx.info.ignoreWrite then Target(access, gpr, ctx.vmcs) else ctx.info.val)
    ensures ctx.info.ignoreWrite ==> v == ctx.vmcs.(guestRip := v.guestRip)
    ensures !ctx.info.ignoreWrite && access == WriteCr0 ==> v.cr0ReadShadow == ctx.info.shadow
    ensures !ctx.info.ignoreWrite && access == WriteCr4 ==> v.cr4ReadShadow == ctx.info.shadow
    ensures WritesOnly(access, gpr, ctx.vmcs, v)
  {
    var written := if ctx.info.ignoreWrite then ctx.vmcs else WriteBack(access, gpr, ctx.vmcs, ctx.info);
    if ctx.info.ignoreAdvance then written else written.(guestRip := NextRip(ctx.vmcs))
  }

  /** The specification of one exit on one chain: defaults, dispatch until claimed, then
      write-back and advance if claimed; an unclaimed exit discards the descriptor and
      keeps only what the handlers themselves did to the VMCS. The log record holds the
      descriptor as the chain left it. */
  function Resolved(access: Access, gpr: GprIndex, chain: seq<Handler<Context>>, vmcs: Vmcs): (r: Resolution)
    ensures var start := Start(access, gpr, vmcs);
      && (r.handled ==>
            && 1 <= r.invoked <= |chain|
            && FirstClaimAt(chain, r.invoked - 1, start)
            && r.vmcs == Complete(access, gpr, ReplyAt(chain, r.invoked - 1, start))
            && r.record == Record(ReplyAt(chain, r.invoked - 1, start).info.val, ReplyAt(chain, r.invoked - 1, start).info.shadow))
      && (!r.handled ==>
            && r.invoked == |chain|
            && AllDecline(chain, start)
            && r.vmcs == After(chain, |chain|, start).vmcs
            && r.record == Record(After(chain, |chain|, start).info.val, After(chain, |chain|, start).info.shadow))
  {
    var start := Start(access, gpr, vmcs);
    var d := Dispatch(chain, start);
    DispatchSpec(chain, start);
    Resolution(d.claimed, d.invoked,
               if d.claimed then Complete(access, gpr, d.ctx) else d.ctx.vmcs,
               Record(d.ctx.info.val, d.ctx.info.shadow))
  }

  /** The architectural effect of the trapped instruction without a hypervisor:
      the value moves to its destination and the guest moves past the instruction. */
  function Native(access: Access, gpr: GprIndex, vmcs: Vmcs): Vmcs
  {
    match access
    case WriteCr0 => vmcs.(guestCr0 := vmcs.gprs[gpr], guestRip := NextRip(vmcs))
    case ReadCr3 => vmcs.(gprs := vmcs.gprs[gpr := vmcs.guestCr3], guestRip := NextRip(vmcs))
    case WriteCr3 => vmcs.(guestCr3 := vmcs.gprs[gpr], guestRip := NextRip(vmcs))
    case WriteCr4 => vmcs.(guestCr4 := vmcs.gprs[gpr], guestRip := NextRip(vmcs))
  }

  /** A handler that claims the exit and leaves the descriptor and VMCS as it found them
      makes the exit behave like the native instruction: the defaults round-trip (the
      read shadow is written back with its own value, a read of CR3 delivers the guest
      CR3 unchanged). */
  lemma PassThroughIsNative(access: Access, gpr: GprIndex, vmcs: Vmcs)
    ensures Complete(access, gpr, Start(access, gpr, vmcs)) == Native(access, gpr, vmcs)
  {
  }

  /** If no handler on the chain changes `val`, the exit carries the default value: it is
      logged, and a claimed exit that does not ignore the write stores it. */
  lemma UntouchedValKeepsDefault(access: Access, gpr: GprIndex, chain: seq<Handler<Context>>, vmcs: Vmcs)
    requires forall i, c :: 0 <= i < |chain| ==> chain[i](c).ctx.info.val == c.info.val
    ensures var r := Resolved(access, gpr, chain, vmcs);
      && r.record.val == Source(access, gpr, vmcs)
      && (r.handled && !ReplyAt(chain, r.invoked - 1, Start(access, gpr, vmcs)).info.ignoreWrite ==>
            Target(access, gpr, r.vmcs) == Source(access, gpr, vmcs))
  {
    var start := Start(access, gpr, vmcs);
    DispatchPreserves(chain, start, (c: Context) => c.info.val == Source(access, gpr, vmcs));
    DispatchSpec(chain, start);
  }

  /** If no handler on the chain changes `shadow`, the exit carries the default shadow: it
      is logged, and a claimed CR0 or CR4 write that does not ignore the write leaves the
      read shadow as it was. */
  lemma UntouchedShadowKeepsDefault(access: Access, gpr: GprIndex, chain: seq<Handler<Context>>, vmcs: Vmcs)
    requires forall i, c :: 0 <= i < |chain| ==> chain[i](c).ctx.info.shadow == c.info.shadow
    ensures var r := Resolved(access, gpr, chain, vmcs);
      && r.record.shadow == DefaultShadow(access, vmcs)
      && (r.handled && !ReplyAt(chain, r.invoked - 1, Start(access, gpr, vmcs)).info.ignoreWrite ==>
            (access == WriteCr0 ==> r.vmcs.cr0ReadShadow == vmcs.cr0ReadShadow) &&
            (access == WriteCr4 ==> r.vmcs.cr4ReadShadow == vmcs.cr4ReadShadow))
  {
    var start := Start(access, gpr, vmcs);
    DispatchPreserves(chain, start, (c: Context) => c.info.shadow == DefaultShadow(access, vmcs));
    DispatchSpec(chain, start);
  }

  /** With no handler registered the defaults are still computed and logged, the exit
      is unclaimed, and the descriptor is discarded: the VMCS is left as it was. */
  lemma EmptyChainDiscardsDescriptor(access: Access, gpr: GprIndex, vmcs: Vmcs)
    ensures Resolved(access, gpr, [], vmcs)
         == Resolution(false, 0, vmcs, Record(Source(access, gpr, vmcs), DefaultShadow(access, vmcs)))
  {
  }

  /** One exit on one chain, the body shared by the four `handle_*` paths: build the
      defaults, run the chain, and complete a claimed exit. */
  method Resolve(access: Access, gpr: GprIndex, chain: seq<Handler<Context>>, vmcs: Vmcs)
    returns (handled: bool, vmcs': Vmcs, record: Record)
    ensures Resolution(handled, Dispatch(chain, Start(access, gpr, vmcs)).invoked, vmcs', record)
         == Resolved(access, gpr, chain, vmcs)
  {
    var claimed, invoked, out := RunChain(chain, Context(vmcs, DefaultInfo(access, gpr, vmcs)));
    handled := claimed;
    record := Record(out.info.val, out.info.shadow);
    if claimed {
      vmcs' := Complete(access, gpr, out);
    } else {
      vmcs' := out.vmcs;
    }
  }

  class ControlRegisterHandler {
    /** The four chains; each calls its last registered handler first. */
    var wrcr0Handlers: seq<Handler<Context>>
    var rdcr3Handlers: seq<Handler<Context>>
    var wrcr3Handlers: seq<Handler<Context>>
    var wrcr4Handlers: seq<Handler<Context>>
    /** The per-register logs (read and write exits on CR3 share one). */
    var cr0Log: seq<Record>
    var cr3Log: seq<Record>
    var cr4Log: seq<Record>
    /** Logging is on (a debug build with the log enabled). */
    const logEnabled: bool

    constructor (logEnabled: bool)
      ensures wrcr0Handlers == [] && rdcr3Handlers == [] && wrcr3Handlers == [] && wrcr4Handlers == []
      ensures cr0Log == [] && cr3Log == [] && cr4Log == []
      ensures this.logEnabled == logEnabled
    {
      wrcr0Handlers, rdcr3Handlers, wrcr3Handlers, wrcr4Handlers := [], [], [], [];
      cr0Log, cr3Log, cr4Log := [], [], [];
      this.logEnabled := logEnabled;
    }

    /** The chain an access dispatches to. */
    function Chain(access: Access): seq<Handler<Context>>
      reads this
    {
      match access
      case WriteCr0 => wrcr0Handlers
      case ReadCr3 => rdcr3Handlers
      case WriteCr3 => wrcr3Handlers
      case WriteCr4 => wrcr4Handlers
    }

    /** The log an access appends to. */
    function Log(access: Access): seq<Record>
      reads this
    {
      match access
      case WriteCr0 => cr0Log
      case ReadCr3 => cr3Log
      case WriteCr3 => cr3Log
      case WriteCr4 => cr4Log
    }

    /** `add_wrcr0_handler`: prepends to the write-CR0 chain; the other chains are untouched. */
    method AddWrCr0Handler(h: Handler<Context>)
      modifies this`wrcr0Handlers
      ensures wrcr0Handlers == [h] + old(wrcr0Handlers)
      ensures rdcr3Handlers == old(rdcr3Handlers) && wrcr3Handlers == old(wrcr3Handlers) && wrcr4Handlers == old(wrcr4Handlers)
    {
      wrcr0Handlers := [h] + wrcr0Handlers;
    }

    /** `add_rdcr3_handler`: prepends to the read-CR3 chain; the other chains are untouched. */
    method AddRdCr3Handler(h: Handler<Context>)
      modifies this`rdcr3Handlers
      ensures rdcr3Handlers == [h] + old(rdcr3Handlers)
      ensures wrcr0Handlers == old(wrcr0Handlers) && wrcr3Handlers == old(wrcr3Handlers) && wrcr4Handlers == old(wrcr4Handlers)
    {
      rdcr3Handlers := [h] + rdcr3Handlers;
    }

    /** `add_wrcr3_handler`: prepends to the write-CR3 chain; the other chains are untouched. */
    method AddWrCr3Handler(h: Handler<Context>)
      modifies this`wrcr3Handlers
      ensures wrcr3Handlers == [h] + old(wrcr3Handlers)
      ensures wrcr0Handlers == old(wrcr0Handlers) && rdcr3Handlers == old(rdcr3Handlers) && wrcr4Handlers == old(wrcr4Handlers)
    {
      wrcr3Handlers := [h] + wrcr3Handlers;
    }

    /** `add_wrcr4_handler`: prepends to the write-CR4 chain; the other chains are untouched. */
    method AddWrCr4Handler(h: Handler<Context>)
      modifies this`wrcr4Handlers
      ensures wrcr4Handlers == [h] + old(wrcr4Handlers)
      ensures wrcr0Handlers == old(wrcr0Handlers) && rdcr3Handlers == old(rdcr3Handlers) && wrcr3Handlers == old(wrcr3Handlers)
    {
      wrcr4Handlers := [h] + wrcr4Handlers;
    }

    /** `enable_wrcr0_exiting`: the CR0 guest/host mask gets `mask`, the CR0 read shadow `shadow`. */
    method EnableWrCr0Exiting(vmcs: Vmcs, mask: u64, shadow: u64) returns (vmcs': Vmcs)
      ensures vmcs'.cr0GuestHostMask == mask && vmcs'.cr0ReadShadow == shadow
      ensures vmcs' == vmcs.(cr0GuestHostMask := mask, cr0ReadShadow := shadow)
    {
      vmcs' := vmcs.(cr0GuestHostMask := mask);
      vmcs' := vmcs'.(cr0ReadShadow := shadow);
    }

    /** `enable_rdcr3_exiting`: turns on CR3-store exiting. */
    method EnableRdCr3Exiting(vmcs: Vmcs) returns (vmcs': Vmcs)
      ensures vmcs'.cr3StoreExiting
      ensures vmcs' == vmcs.(cr3StoreExiting := true)
    {
      vmcs' := vmcs.(cr3StoreExiting := true);
    }

    /** `enable_wrcr3_exiting`: turns on CR3-load exiting. */
    method EnableWrCr3Exiting(vmcs: Vmcs) returns (vmcs': Vmcs)
      ensures vmcs'.cr3LoadExiting
      ensures vmcs' == vmcs.(cr3LoadExiting := true)
    {
      vmcs' := vmcs.(cr3LoadExiting := true);
    }

    /** `enable_wrcr4_exiting`: the CR4 guest/host mask gets `mask`, the CR4 read shadow `shadow`. */
    method EnableWrCr4Exiting(vmcs: Vmcs, mask: u64, shadow: u64) returns (vmcs': Vmcs)
      ensures vmcs'.cr4GuestHostMask == mask && vmcs'.cr4ReadShadow == shadow
      ensures vmcs' == vmcs.(cr4GuestHostMask := mask, cr4ReadShadow := shadow)
    {
      vmcs' := vmcs.(cr4GuestHostMask := mask);
      vmcs' := vmcs'.(cr4ReadShadow := shadow);
    }

    /** `handle_wrcr0`. */
    method HandleWrCr0(vmcs: Vmcs, gpr: GprIndex) returns (handled: bool, vmcs': Vmcs)
      modifies this`cr0Log
      ensures var r := Resolved(WriteCr0, gpr, wrcr0Handlers, vmcs);
        && handled == r.handled && vmcs' == r.vmcs
        && cr0Log == old(cr0Log) + (if logEnabled then [r.record] else [])
    {
      var record;
      handled, vmcs', record := Resolve(WriteCr0, gpr, wrcr0Handlers, vmcs);
      if logEnabled {
        cr0Log := cr0Log + [record];
      }
    }

    /** `handle_rdcr3`. */
    method HandleRdCr3(vmcs: Vmcs, gpr: GprIndex) returns (handled: bool, vmcs': Vmcs)
      modifies this`cr3Log
      ensures var r := Resolved(ReadCr3, gpr, rdcr3Handlers, vmcs);
        && handled == r.handled && vmcs' == r.vmcs
        && cr3Log == old(cr3Log) + (if logEnabled then [r.record] else [])
    {
      var record;
      handled, vmcs', record := Resolve(ReadCr3, gpr, rdcr3Handlers, vmcs);
      if logEnabled {
        cr3Log := cr3Log + [record];
      }
    }

    /** `handle_wrcr3`. */
    method HandleWrCr3(vmcs: Vmcs, gpr: GprIndex) returns (handled: bool, vmcs': Vmcs)
      modifies this`cr3Log
      ensures var r := Resolved(WriteCr3, gpr, wrcr3Handlers, vmcs);
        && handled == r.handled && vmcs' == r.vmcs
        && cr3Log == old(cr3Log) + (if logEnabled then [r.record] else [])
    {
      var record;
      handled, vmcs', record := Resolve(WriteCr3, gpr, wrcr3Handlers, vmcs);
      if logEnabled {
        cr3Log := cr3Log + [record];
      }
    }

    /** `handle_wrcr4`. */
    method HandleWrCr4(vmcs: Vmcs, gpr: GprIndex) returns (handled: bool, vmcs': Vmcs)
      modifies this`cr4Log
      ensures var r := Resolved(WriteCr4, gpr, wrcr4Handlers, vmcs);
        && handled == r.handled && vmcs' == r.vmcs
        && cr4Log == old(cr4Log) + (if logEnabled then [r.record] else [])
    {
      var record;
      handled, vmcs', record := Resolve(WriteCr4, gpr, wrcr4Handlers, vmcs);
      if logEnabled {
        cr4Log := cr4Log + [record];
      }
    }

    /** `handle`: routes the decoded exit to its path. `false` means no handler claimed it. */
    method Handle(vmcs: Vmcs, exit: Exit) returns (handled: bool, vmcs': Vmcs)
      modifies this`cr0Log, this`cr3Log, this`cr4Log
      ensures var r := Resolved(exit.access, exit.gpr, Chain(exit.access), vmcs);
        && handled == r.handled && vmcs' == r.vmcs
        && Log(exit.access) == old(Log(exit.access)) + (if logEnabled then [r.record] else [])
      ensures exit.access != WriteCr0 ==> cr0Log == old(cr0Log)
      ensures exit.access == WriteCr0 || exit.access == WriteCr4 ==> cr3Log == old(cr3Log)
      ensures exit.access != WriteCr4 ==> cr4Log == old(cr4Log)
    {
      match exit.access {
        case WriteCr0 => handled, vmcs' := HandleWrCr0(vmcs, exit.gpr);
        case ReadCr3 => handled, vmcs' := HandleRdCr3(vmcs, exit.gpr);
        case WriteCr3 => handled, vmcs' := HandleWrCr3(vmcs, exit.gpr);
        case WriteCr4 => handled, vmcs' := HandleWrCr4(vmcs, exit.gpr);
      }
    }
  }
}
