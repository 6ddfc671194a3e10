/** Machine-level value types shared by both virtualizers, and the virtual-machine
    control structure (with the guest general-purpose registers saved beside it)
    as a plain record of named fields. */
module MachineTypes {

  const TWO_64: int := 0x1_0000_0000_0000_0000

  /** A 64-bit unsigned field value (`uint64_t`, `vmcs_n::value_type`). */
  newtype u64 = x: int | 0 <= x < 0x1_0000_0000_0000_0000

  /** An interrupt vector, as the 8-bit vector of the exit interruption-information field. */
  type Vector = v: int | 0 <= v < 256

  /** Which of the sixteen guest general-purpose registers an exit names. */
  type GprIndex = r: int | 0 <= r < 16

  /** The guest general-purpose registers saved on exit. */
  type GprFile = s: seq<u64> | |s| == 16
    witness [0, 0, 0, 0, 0, 0, 0, 0, 0, 0, 0, 0, 0, 0, 0, 0]

  /** Unsigned 64-bit increment: wraps to 0 past the largest value. */
  function Inc(x: u64): u64
  {
    if x as int + 1 == TWO_64 then 0 else x + 1
  }

  /** The VMCS fields the two virtualizers read or write. */
  datatype Vmcs = Vmcs(
    // pin-based VM-execution control "external-interrupt exiting"
    externalInterruptExiting: bool,
    // VM-exit control "acknowledge interrupt on exit"
    acknowledgeInterruptOnExit: bool,
    // primary processor-based VM-execution controls "CR3-load exiting" / "CR3-store exiting"
    cr3LoadExiting: bool,
    cr3StoreExiting: bool,
    // guest/host masks and read shadows for CR0 and CR4
    cr0GuestHostMask: u64,
    cr0ReadShadow: u64,
    cr4GuestHostMask: u64,
    cr4ReadShadow: u64,
    // guest-state area
    guestCr0: u64,
    guestCr3: u64,
    guestCr4: u64,
    guestRip: u64,
    // exit-information fields
    exitInstructionLength: u64,
    exitInterruptionVector: Vector,
    // guest general-purpose registers (saved state, not a VMCS field proper)
    gprs: GprFile
  )

  /** The guest instruction pointer just past the trapping instruction (64-bit wrap). */
  function NextRip(vmcs: Vmcs): u64
  {
    ((vmcs.guestRip as int + vmcs.exitInstructionLength as int) % TWO_64) as u64
  }
}
