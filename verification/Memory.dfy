/** Memory ranges of VMs, the hotplug request for a target, and the address bits hotplug needs. */
module Memory {
  import opened Options
  import opened Powers

  const SLOT: int := 128

  /** `validateMemoryHotplugRange`. */
  predicate RangeOk(min: int, max: int) {
    min > 0 && max > 0 && (max == min || (max - min >= SLOT && (max - min) % SLOT == 0))
  }

  // ---------------------------------------------------------------- the request for a target

  function Clamp(min: int, max: int, target: int): int {
    var t := if target < min then min else target;
    if t > max then max else t
  }

  function RoundUp(x: int): int {
    if x > 0 then (x + 127) / 128 * 128 else x
  }

  /** The size that `setVMMemoryTarget` asks for. */
  function Requested(min: int, max: int, target: int): int {
    var over := Clamp(min, max, target) - min;
    var rounded := RoundUp(if over < 0 then 0 else over);
    if rounded > max - min then max - min else rounded
  }

  lemma RoundUpLeast(x: int, m: int)
    requires x >= 0
    ensures RoundUp(x) % SLOT == 0 && x <= RoundUp(x)
    ensures m >= 0 && m % SLOT == 0 && x <= m ==> RoundUp(x) <= m
  {
  }

  /** The request is the least whole number of slots that covers the clamped target, within the range. */
  lemma RequestedLeast(min: int, max: int, target: int, m: int)
    requires RangeOk(min, max)
    ensures var r := Requested(min, max, target);
      && r % SLOT == 0 && 0 <= r <= max - min && Clamp(min, max, target) <= min + r
      && (m >= 0 && m % SLOT == 0 && Clamp(min, max, target) <= min + m ==> r <= m)
  {
    var over := Clamp(min, max, target) - min;
    RoundUpLeast(over, m);
    RoundUpLeast(over, max - min);
  }

  /** The final cap never changes the request. */
  lemma CapNeverBinds(min: int, max: int, target: int)
    requires RangeOk(min, max)
    ensures Requested(min, max, target) == RoundUp(Clamp(min, max, target) - min)
  {
    RoundUpLeast(Clamp(min, max, target) - min, max - min);
  }

  lemma RequestedMonotone(min: int, max: int, target: int, more: int)
    requires RangeOk(min, max) && target <= more
    ensures Requested(min, max, target) <= Requested(min, max, more)
  {
    RequestedLeast(min, max, target, Requested(min, max, more));
    RequestedLeast(min, max, more, 0);
  }

  // ---------------------------------------------------------------- address bits

  const WORD: nat := 0x1_0000_0000_0000_0000
  const HOTPLUG_BASE: nat := 0x80_0000_0000
  const MIB: nat := 0x10_0000

  /** `bits.Len64`. */
  function Len64(x: nat): nat {
    if x == 0 then 0 else 1 + Len64(x / 2)
  }

  lemma {:induction false} Len64Least(x: nat, b: nat)
    ensures x < Pow2(b) <==> Len64(x) <= b
    decreases x
  {
    if x > 0 {
      if b == 0 {
        assert Pow2(0) == 1;
      } else {
        Len64Least(x / 2, b - 1);
        assert Pow2(b) == 2 * Pow2(b - 1);
      }
    }
  }

  /** `requiredVirtioMemPhysicalAddressBits`, in 64-bit arithmetic. */
  function RequiredBits(hotplugMiB: int): nat {
    if hotplugMiB <= 0 then 0
    else Len64((HOTPLUG_BASE + hotplugMiB * MIB % WORD + WORD - 1) % WORD)
  }

  /** The memory up to the end of the hotplug area fits in so many address bits. */
  predicate Fits(hotplugMiB: nat, b: nat) {
    HOTPLUG_BASE + hotplugMiB * MIB <= Pow2(b)
  }

  predicate LeastBits(hotplugMiB: nat, b: nat) {
    Fits(hotplugMiB, b) && (b > 0 ==> !Fits(hotplugMiB, b - 1))
  }

  const MOST: nat := 0x1000_0000_0000 - 0x8_0000

  lemma NoWrap(h: nat)
    requires 0 < h <= MOST
    ensures (HOTPLUG_BASE + h * MIB % WORD + WORD - 1) % WORD == HOTPLUG_BASE + h * MIB - 1
  {
    assert h * MIB <= WORD - HOTPLUG_BASE;
  }

  lemma Pow2Dword()
    ensures Pow2(64) == WORD
  {
    Pow2Word();
    Pow2Double(32, 0x1_0000_0000);
  }

  /** The result is the least sufficient number of bits exactly up to the size where 64 bits overflow. */
  lemma RequiredBitsExact(h: nat)
    requires h > 0
    ensures LeastBits(h, RequiredBits(h)) <==> h <= MOST
  {
    Pow2Dword();
    if h <= MOST {
      NoWrap(h);
      var end, b := HOTPLUG_BASE + h * MIB - 1, RequiredBits(h);
      Len64Least(end, b);
      if b > 0 {
        Len64Least(end, b - 1);
      }
    } else {
      var end := (HOTPLUG_BASE + h * MIB % WORD + WORD - 1) % WORD;
      Len64Least(end, 64);
      Pow2Mono(RequiredBits(h), 64);
    }
  }

  // ---------------------------------------------------------------- host configuration and resizes

  datatype HostMemory = HostMemory(bootMiB: int, hotplugMiB: Option<int>, degraded: bool)

  /** `virtioMemSupportedForRange`; `physicalBits` is unknown on some hosts. */
  predicate Usable(min: int, max: int, physicalBits: Option<int>) {
    RangeOk(min, max) && max > min && (physicalBits.Some? ==> physicalBits.value >= RequiredBits(max - min))
  }

  /** `memoryConfigForHost`. */
  function ConfigFor(min: int, max: int, physicalBits: Option<int>): Result<HostMemory> {
    if !RangeOk(min, max) then Err
    else if max <= min then Ok(HostMemory(max, None, false))
    else if !Usable(min, max, physicalBits) then Ok(HostMemory(max, None, true))
    else Ok(HostMemory(min, Some(max - min), false))
  }

  /** Boot memory and hotplug memory together are always the maximum. */
  lemma ConfigTotals(min: int, max: int, physicalBits: Option<int>)
    requires ConfigFor(min, max, physicalBits).Ok?
    ensures var c := ConfigFor(min, max, physicalBits).value;
      && c.bootMiB + (if c.hotplugMiB.Some? then c.hotplugMiB.value else 0) == max
      && (c.degraded ==> c.hotplugMiB.None? && max > min)
  {
  }

  datatype Resize = NotRunning | Unchanged(effectiveMiB: int) | Patch(requestedMiB: int)

  /** What `setVMMemoryTarget` does with a target. */
  function SetTarget(min: int, max: int, target: int, running: bool, physicalBits: Option<int>): Resize {
    if !running then NotRunning
    else if max == min then Unchanged(min)
    else if !(max > min && Usable(min, max, physicalBits)) then Unchanged(max)
    else Patch(Requested(min, max, target))
  }

  /** A resize reaches only VMs that were configured with hotplug, and stays within what was configured. */
  lemma ResizeNeedsHotplug(min: int, max: int, target: int, running: bool, physicalBits: Option<int>)
    requires RangeOk(min, max)
    ensures var c := ConfigFor(min, max, physicalBits).value;
      var r := SetTarget(min, max, target, running, physicalBits);
      && (r.Patch? <==> running && c.hotplugMiB.Some?)
      && (r.Patch? ==> 0 <= r.requestedMiB <= c.hotplugMiB.value && r.requestedMiB % SLOT == 0)
      && (r.Unchanged? ==> r.effectiveMiB == c.bootMiB)
  {
    RequestedLeast(min, max, target, 0);
  }
}
