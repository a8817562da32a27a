/** `check_memory_health`: memory and swap usage, with byte totals reported in
    gibibytes rounded to two decimals. */
module MemoryProbe {
  import opened Common

  /** The fields of `psutil.virtual_memory()` the monitor reads. */
  datatype VirtualMemory = VirtualMemory(percent: real, total: nat, available: nat)

  /** The fields of `psutil.swap_memory()` the monitor reads. */
  datatype SwapMemory = SwapMemory(percent: real, total: nat)

  /** The memory section. Sizes are in hundredths of a gibibyte: 1636 stands for 16.36. */
  datatype MemoryReport =
    | MemoryFields(usage: real, totalGiB: nat, availableGiB: nat, swapUsage: real, swapTotalGiB: nat)
    | MemoryError(message: string)

  /** `1024 ** 3` */
  const GiB: nat := 1073741824

  function Distance(a: int, b: int): nat {
    if a >= b then a - b else b - a
  }

  /** `h` hundredths of a GiB is what `round(bytes / 1024 ** 3, 2)` gives: the
      hundredth nearest to the exact quotient, an exact tie going to the even one. */
  predicate IsRoundedGiB(h: nat, bytes: nat) {
    && 2 * Distance(h * GiB, 100 * bytes) <= GiB
    && (2 * Distance(h * GiB, 100 * bytes) == GiB ==> h % 2 == 0)
  }

  /** `round(bytes / 1024 ** 3, 2)` in hundredths, computed on integers. */
  function RoundGiB(bytes: nat): (h: nat)
    ensures IsRoundedGiB(h, bytes)
  {
    var q := (100 * bytes) / GiB;
    var rem := (100 * bytes) % GiB;
    assert 100 * bytes == q * GiB + rem;
    if 2 * rem < GiB then q
    else if 2 * rem > GiB then q + 1
    else if q % 2 == 0 then q
    else q + 1
  }

  /** Only one number of hundredths is correctly rounded, so the rounding is fully determined. */
  lemma RoundedGiBUnique(bytes: nat, h: nat)
    requires IsRoundedGiB(h, bytes)
    ensures h == RoundGiB(bytes)
  {
    var x := 100 * bytes;
    var q, rem := x / GiB, x % GiB;
    assert x == q * GiB + rem;
    var d := h - q;
    assert h * GiB - x == d * GiB - rem;
    assert d <= -1 ==> d * GiB + GiB <= 0;
    assert d >= 2 ==> d * GiB >= 2 * GiB;
    assert d == 1 ==> d * GiB == GiB;
    assert d == 0 ==> d * GiB == 0;
  }

  /** The reported value differs from the exact size in gibibytes by at most half a hundredth. */
  lemma RoundGiBIsClose(bytes: nat)
    ensures var h := RoundGiB(bytes);
            -0.005 <= (h as real) / 100.0 - (bytes as real) / (GiB as real) <= 0.005
  {
    var h := RoundGiB(bytes);
    var g := GiB as real;
    var diff := (h * GiB - 100 * bytes) as real;
    assert -g <= 2.0 * diff <= g;
    assert (h as real) / 100.0 - (bytes as real) / g == diff / (100.0 * g);
  }

  /** `check_memory_health`. A failing psutil query turns the section into an
      error carrying its message; otherwise the percentages pass through and
      every size is correctly rounded to hundredths of a GiB. */
  function CheckMemoryHealth(vm: Sampled<VirtualMemory>, swap: Sampled<SwapMemory>): (r: MemoryReport)
    ensures r.MemoryError? <==> vm.Raised? || swap.Raised?
    ensures vm.Raised? ==> r == MemoryError(vm.fault.message)
    ensures vm.Returned? && swap.Raised? ==> r == MemoryError(swap.fault.message)
    ensures r.MemoryFields? ==>
              && r.usage == vm.value.percent && r.swapUsage == swap.value.percent
              && IsRoundedGiB(r.totalGiB, vm.value.total)
              && IsRoundedGiB(r.availableGiB, vm.value.available)
              && IsRoundedGiB(r.swapTotalGiB, swap.value.total)
  {
    match vm
    case Raised(f) => MemoryError(f.message)
    case Returned(m) =>
      match swap
      case Raised(f) => MemoryError(f.message)
      case Returned(s) =>
        MemoryFields(m.percent, RoundGiB(m.total), RoundGiB(m.available), s.percent, RoundGiB(s.total))
  }
}
