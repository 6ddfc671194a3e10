/** The external-interrupt exit virtualizer: one handler chain for every
    external-interrupt exit, a 256-entry per-vector exit counter that counts only
    while logging is on, and the two coupled VMCS controls that turn exiting on
    and off. An exit that no handler claims is fatal. */
module ExternalInterrupt {
  import opened MachineTypes
  import opened HandlerChain

  const VECTOR_COUNT := 256

  /** The per-exit record handed to the handlers (`info_t`). */
  datatype Info = Info(vector: Vector)

  /** What a handler receives and may change: the VMCS and the info record. */
  datatype Context = Context(vmcs: Vmcs, info: Info)

  /** How an external-interrupt exit ends: claimed by a handler, or the fatal
      "unhandled interrupt vector" failure. There is no ordinary `false`. */
  datatype Outcome = Handled | UnhandledVector(vector: Vector)

  /** The counter table of a freshly constructed virtualizer. */
  function Zeros(): (counts: seq<u64>)
    ensures |counts| == VECTOR_COUNT
    ensures forall v :: 0 <= v < VECTOR_COUNT ==> counts[v] == 0
  {
    seq(VECTOR_COUNT, _ => 0)
  }

  /** The counter table after one exit on `vector`: only that vector's counter moves,
      by one (64-bit), and only while logging is enabled. */
  function CountExit(counts: seq<u64>, vector: Vector, enabled: bool): (r: seq<u64>)
    requires |counts| == VECTOR_COUNT
    ensures |r| == VECTOR_COUNT
    ensures enabled && counts[vector] as int + 1 < TWO_64 ==> r[vector] as int == counts[vector] as int + 1
    ensures enabled && counts[vector] as int + 1 == TWO_64 ==> r[vector] == 0
    ensures forall w :: 0 <= w < VECTOR_COUNT && (w != vector || !enabled) ==> r[w] == counts[w]
  {
    if enabled then counts[vector := Inc(counts[vector])] else counts
  }

  /** The counter table after a sequence of exits, in delivery order. */
  function Tally(counts: seq<u64>, vectors: seq<Vector>, enabled: bool): (r: seq<u64>)
    requires |counts| == VECTOR_COUNT
    ensures |r| == VECTOR_COUNT
    decreases |vectors|
  {
    if vectors == [] then counts
    else Tally(CountExit(counts, vectors[0], enabled), vectors[1..], enabled)
  }

  /** With logging enabled and no counter reaching 2^64, each counter grows by the
      number of exits delivered on its vector. */
  lemma {:induction false} TallyCountsOccurrences(counts: seq<u64>, vectors: seq<Vector>, v: Vector)
    requires |counts| == VECTOR_COUNT
    requires counts[v] as int + |vectors| < TWO_64
    ensures Tally(counts, vectors, true)[v] as int == counts[v] as int + multiset(vectors)[v]
    decreases |vectors|
  {
    if vectors != [] {
      assert vectors == [vectors[0]] + vectors[1..];
      assert multiset(vectors) == multiset{vectors[0]} + multiset(vectors[1..]);
      TallyCountsOccurrences(CountExit(counts, vectors[0], true), vectors[1..], v);
    }
  }

  /** With logging disabled the counter table never changes, whatever the exits. */
  lemma {:induction false} TallyDisabledKeepsCounts(counts: seq<u64>, vectors: seq<Vector>)
    requires |counts| == VECTOR_COUNT
    ensures Tally(counts, vectors, false) == counts
    decreases |vectors|
  {
    if vectors != [] {
      TallyDisabledKeepsCounts(CountExit(counts, vectors[0], false), vectors[1..]);
    }
  }

  /** The two exiting controls are either both set or both clear. */
  predicate ExitingCoupled(vmcs: Vmcs)
  {
    vmcs.externalInterruptExiting == vmcs.acknowledgeInterruptOnExit
  }

  class ExternalInterruptHandler {
    /** `m_handlers`: the last registered handler is called first. */
    var handlers: seq<Handler<Context>>
    /** `m_log`: one exit counter per vector. */
    const log: array<u64>
    /** Logging is on (a debug build with the log enabled). */
    const logEnabled: bool

    ghost predicate Valid()
      reads this
    {
      log.Length == VECTOR_COUNT
    }

    /** An empty chain and an all-zero counter table. */
    constructor (logEnabled: bool)
      ensures Valid() && fresh(log)
      ensures handlers == [] && log[..] == Zeros() && this.logEnabled == logEnabled
    {
      handlers := [];
      log := new u64[VECTOR_COUNT](_ => 0);
      this.logEnabled := logEnabled;
    }

    /** `add_handler`: puts `h` at the front of the chain; the old chain follows unchanged. */
    method AddHandler(h: Handler<Context>)
      modifies this`handlers
      ensures handlers == [h] + old(handlers)
      ensures |handlers| == |old(handlers)| + 1 && handlers[0] == h && handlers[1..] == old(handlers)
    {
      handlers := [h] + handlers;
    }

    /** `enable_exiting`: sets external-interrupt exiting and acknowledge-interrupt-on-exit together. */
    method EnableExiting(vmcs: Vmcs) returns (vmcs': Vmcs)
      ensures vmcs'.externalInterruptExiting && vmcs'.acknowledgeInterruptOnExit
      ensures ExitingCoupled(vmcs')
      ensures vmcs' == vmcs.(externalInterruptExiting := true, acknowledgeInterruptOnExit := true)
    {
      vmcs' := vmcs.(externalInterruptExiting := true);
      vmcs' := vmcs'.(acknowledgeInterruptOnExit := true);
    }

    /** `disable_exiting`: clears both controls together. */
    method DisableExiting(vmcs: Vmcs) returns (vmcs': Vmcs)
      ensures !vmcs'.externalInterruptExiting && !vmcs'.acknowledgeInterruptOnExit
      ensures ExitingCoupled(vmcs')
      ensures vmcs' == vmcs.(externalInterruptExiting := false, acknowledgeInterruptOnExit := false)
    {
      vmcs' := vmcs.(externalInterruptExiting := false);
      vmcs' := vmcs'.(acknowledgeInterruptOnExit := false);
    }

    /** `dump_log`: the vectors it reports, exactly those with a nonzero count, ascending. */
    method DumpLog() returns (reported: seq<Vector>)
      requires Valid()
      ensures forall k :: 0 <= k < |reported| ==> log[reported[k]] != 0
      ensures forall v :: 0 <= v < VECTOR_COUNT && log[v] != 0 ==> v in reported
      ensures forall j, k :: 0 <= j < k < |reported| ==> reported[j] < reported[k]
    {
      reported := [];
      var i := 0;
      while i < VECTOR_COUNT
        invariant 0 <= i <= VECTOR_COUNT
        invariant forall k :: 0 <= k < |reported| ==> reported[k] < i && log[reported[k]] != 0
        invariant forall v :: 0 <= v < i && log[v] != 0 ==> v in reported
        invariant forall j, k :: 0 <= j < k < |reported| ==> reported[j] < reported[k]
      {
        if log[i] > 0 {
          reported := reported + [i];
        }
        i := i + 1;
      }
    }

    /** `handle`: counts the exit on its vector when logging is on (before any handler
        runs, so an unclaimed exit is counted too), then dispatches the chain front to
        back. The first claiming handler ends the exit; if none claims, the outcome is
        the fatal failure naming the vector the info record holds after the chain. */
    method Handle(vmcs: Vmcs) returns (outcome: Outcome, vmcs': Vmcs)
      requires Valid()
      modifies log
      ensures log[..] == CountExit(old(log[..]), vmcs.exitInterruptionVector, logEnabled)
      ensures var start := Context(vmcs, Info(vmcs.exitInterruptionVector));
        var d := Dispatch(handlers, start);
        && vmcs' == d.ctx.vmcs
        && (outcome.Handled? <==> d.claimed)
        && (outcome.Handled? ==> FirstClaimAt(handlers, d.invoked - 1, start) && d.ctx == ReplyAt(handlers, d.invoked - 1, start))
        && (outcome.UnhandledVector? ==>
              AllDecline(handlers, start) && d.ctx == After(handlers, |handlers|, start) &&
              outcome == UnhandledVector(d.ctx.info.vector))
    {
      var info := Info(vmcs.exitInterruptionVector);
      if logEnabled {
        log[info.vector] := Inc(log[info.vector]);
      }
      var start := Context(vmcs, info);
      var claimed, invoked, out := RunChain(handlers, start);
      DispatchSpec(handlers, start);
      vmcs' := out.vmcs;
      if claimed {
        outcome := Handled;
      } else {
        outcome := UnhandledVector(out.info.vector);
      }
    }
  }
}
