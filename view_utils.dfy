/**
 * The nil-guarded formatting helpers of pkg/utils/view.go. A Go pointer is
 * an Option; every helper renders a nil pointer as "". Floats are exact
 * reals here, so a division is exact, and `%.2f` of a finite value is the
 * parameter `fixed2`; a division by zero gives an IEEE infinity or NaN,
 * which fmt renders as "+Inf", "-Inf" or "NaN".
 *
 * The storage size in `StorageUsagePercentageByFreeSpace` is an int32 and
 * the source multiplies it by 2^30 in int32 arithmetic (line 33), so the
 * byte count wraps for every size of 2 GB or more. `StorageBytesAsWritten`
 * is that product; `StorageBytes` is the product the helper means, which
 * the rest of the model uses.
 */
module ViewUtils {
  import opened Wrappers
  import opened Text

  /** An IEEE double as far as these helpers can produce one. */
  datatype Float = Finite(v: real) | PosInf | NegInf | NaN

  /** IEEE division of two finite values. */
  function Div(a: real, b: real): (r: Float)
    ensures b != 0.0 <==> r.Finite?
    ensures r.Finite? ==> r.v * b == a
  {
    if b != 0.0 then Finite(a / b) else if a > 0.0 then PosInf else if a < 0.0 then NegInf else NaN
  }

  /** fmt's `%.2f`: `fixed2` for a finite value, and the IEEE names otherwise. */
  function Fixed2(x: Float, fixed2: real -> string): (r: string)
    ensures x.Finite? ==> r == fixed2(x.v)
  {
    match x
    case Finite(v) => fixed2(v)
    case PosInf => "+Inf"
    case NegInf => "-Inf"
    case NaN => "NaN"
  }

  const GiB: int := 1024 * 1024 * 1024
  const MiB: real := 1024.0 * 1024.0

  /** `PFloat64ToString` (lines 5-10). */
  function PFloat64ToString(v: Option<real>, fixed2: real -> string): (r: string)
    ensures v.None? ==> r == ""
    ensures v.Some? ==> r == fixed2(v.value)
  {
    if v.None? then "" else fixed2(v.value)
  }

  /** The `%.2f%%` rendering of `Percentage`. */
  function PercentText(x: Float, fixed2: real -> string): (r: string)
    ensures |r| > 0 && r[|r| - 1] == '%'
  {
    Fixed2(x, fixed2) + "%"
  }

  /** `Percentage` (lines 12-17). */
  function Percentage(v: Option<real>, fixed2: real -> string): (r: string)
    ensures v.None? <==> r == ""
    ensures v.Some? ==> r == fixed2(v.value) + "%"
  {
    if v.None? then "" else PercentText(Finite(v.value), fixed2)
  }

  /** `MemoryUsagePercentageByFreeSpace` (lines 19-27): the used share of the memory. */
  function MemoryUsagePercentageByFreeSpace(free: Option<real>, memorySizeGB: real, fixed2: real -> string): (r: string)
    ensures free.None? <==> r == ""
  {
    if free.None? then ""
    else
      var bytes := memorySizeGB * GiB as real;
      PercentText(Div(bytes - free.value, bytes), fixed2)
  }

  /**
   * The memory share is the used bytes over all bytes, printed as it is
   * (a fraction, not multiplied by 100); a zero memory size prints an IEEE
   * name.
   */
  lemma MemoryUsageShare(free: real, memorySizeGB: real, fixed2: real -> string)
    ensures memorySizeGB != 0.0 ==>
              MemoryUsagePercentageByFreeSpace(Some(free), memorySizeGB, fixed2) ==
              fixed2((memorySizeGB * GiB as real - free) / (memorySizeGB * GiB as real)) + "%"
    ensures memorySizeGB == 0.0 ==>
              MemoryUsagePercentageByFreeSpace(Some(free), memorySizeGB, fixed2) in {"NaN%", "+Inf%", "-Inf%"}
  {
    var bytes := memorySizeGB * GiB as real;
    var x := Div(bytes - free, bytes);
    assert MemoryUsagePercentageByFreeSpace(Some(free), memorySizeGB, fixed2) == Fixed2(x, fixed2) + "%";
    if memorySizeGB == 0.0 {
      assert bytes == 0.0 && !x.Finite?;
      if x.PosInf? {
        assert Fixed2(x, fixed2) + "%" == "+Inf%";
      } else if x.NegInf? {
        assert Fixed2(x, fixed2) + "%" == "-Inf%";
      } else {
        assert Fixed2(x, fixed2) + "%" == "NaN%";
      }
    }
  }

  /** Line 33 as written: the byte count as an int32 product, which wraps. */
  function StorageBytesAsWritten(size: Int32): (r: Int32)
    ensures (r - size * GiB) % 0x1_0000_0000 == 0
  {
    Wrap32(size * GiB)
  }

  /** The byte count the helper means: the size in GiB times 2^30, which always fits in 64 bits. */
  function StorageBytes(size: Int32): (r: int)
    ensures MinInt64 <= r <= MaxInt64
    ensures size > 0 <==> r > 0
    ensures r / GiB == size
  {
    size * GiB
  }

  /** The used share of the storage, given its byte count. */
  function StorageUsage(free: real, bytes: int): Float {
    Div(bytes as real - free, bytes as real)
  }

  /** `StorageUsagePercentageByFreeSpace` (lines 29-37), with the byte count of `StorageBytes`. */
  function StorageUsagePercentageByFreeSpace(free: Option<real>, size: Option<Int32>, fixed2: real -> string): (r: string)
    ensures free.None? || size.None? <==> r == ""
  {
    if free.None? || size.None? then ""
    else PercentText(StorageUsage(free.value, StorageBytes(size.value)), fixed2)
  }

  /** The helper as written, with the wrapped byte count. */
  function StorageUsagePercentageAsWritten(free: Option<real>, size: Option<Int32>, fixed2: real -> string): (r: string)
    ensures free.None? || size.None? <==> r == ""
  {
    if free.None? || size.None? then ""
    else PercentText(StorageUsage(free.value, StorageBytesAsWritten(size.value)), fixed2)
  }

  /** With the intended byte count, a free space within the storage gives a share between 0 and 1. */
  lemma StorageUsageInRange(free: real, size: Int32)
    requires size > 0 && 0.0 <= free <= StorageBytes(size) as real
    ensures StorageUsage(free, StorageBytes(size)).Finite?
    ensures 0.0 <= StorageUsage(free, StorageBytes(size)).v <= 1.0
  {
    var b := StorageBytes(size) as real;
    var u := StorageUsage(free, StorageBytes(size)).v;
    assert u * b == b - free;
    if u > 1.0 {
      assert (u - 1.0) * b > 0.0;
    } else if u < 0.0 {
      assert (0.0 - u) * b > 0.0;
    }
  }

  /** Only the sizes 0 and 1 (and negative ones down to -2) survive the int32 product unchanged. */
  lemma StorageBytesAsWrittenExact(size: Int32)
    requires -2 <= size <= 1
    ensures StorageBytesAsWritten(size) == StorageBytes(size)
  {
  }

  /** Every size that is a multiple of 4 GB, the usual volume sizes among them, wraps to zero bytes. */
  lemma StorageBytesAsWrittenZero(size: Int32)
    requires size % 4 == 0
    ensures StorageBytesAsWritten(size) == 0
  {
    var k := size / 4;
    assert size * GiB == k * 0x1_0000_0000;
    var x := size * GiB - MinInt32;
    assert x == k * 0x1_0000_0000 + 0x8000_0000;
    ModAdd(k, 0x8000_0000);
  }

  /** Adding a multiple of 2^32 leaves the remainder. */
  lemma ModAdd(k: int, b: int)
    requires 0 <= b < 0x1_0000_0000
    ensures (k * 0x1_0000_0000 + b) % 0x1_0000_0000 == b
  {
  }

  /**
   * The wrong readings: a 2 GB volume with 1 GiB free gets a used share of
   * 1.5 instead of 0.5, and a 100 GB volume with any free space shows "-Inf%".
   */
  lemma StorageUsageAsWrittenWrong(fixed2: real -> string)
    ensures StorageBytesAsWritten(2) == MinInt32
    ensures StorageUsage(GiB as real, StorageBytesAsWritten(2)) == Finite(1.5)
    ensures StorageUsage(GiB as real, StorageBytes(2)) == Finite(0.5)
    ensures StorageUsagePercentageAsWritten(Some(1.0), Some(100), fixed2) == "-Inf%"
    ensures StorageUsagePercentageByFreeSpace(Some(1.0), Some(100), fixed2) == fixed2((100.0 * GiB as real - 1.0) / (100.0 * GiB as real)) + "%"
  {
    StorageBytesAsWrittenZero(100);
  }

  /** `PNetworkThroughputMbps` (lines 39-45): bytes per second as megabits per second. */
  function PNetworkThroughputMbps(v: Option<real>, fixed2: real -> string): (r: string)
    ensures v.None? <==> r == ""
  {
    if v.None? then "" else fixed2(v.value / MiB * 8.0) + " Mbps"
  }

  /** `PStorageThroughputMbps` (lines 47-53). */
  function PStorageThroughputMbps(v: Option<real>, fixed2: real -> string): (r: string)
    ensures v.None? <==> r == ""
  {
    if v.None? then "" else fixed2(v.value / (1024.0 * 1024.0) * 8.0) + " Mbps"
  }

  /** `NetworkThroughputMbps` (lines 55-57): divides by 2^20 but, unlike the pointer helpers, not by 8 bits. */
  function NetworkThroughputMbps(v: real, fixed2: real -> string): (r: string) {
    fixed2(v / MiB) + " Mbps"
  }

  /** The two pointer helpers agree, and both read 8 times the value the plain helper reads. */
  lemma ThroughputHelpersAgree(v: real, fixed2: real -> string)
    ensures PStorageThroughputMbps(Some(v), fixed2) == PNetworkThroughputMbps(Some(v), fixed2)
    ensures PNetworkThroughputMbps(Some(v), fixed2) == NetworkThroughputMbps(v * 8.0, fixed2)
  {
    assert v / MiB * 8.0 == v * 8.0 / MiB;
  }

  /** `PInt32ToString` (lines 59-64): "" for nil, else the decimal text, which reads back as the number. */
  function PInt32ToString(v: Option<Int32>): (r: string)
    ensures v.None? <==> r == ""
    ensures v.Some? ==> ParseInt(r) == Some(v.value)
  {
    if v.None? then "" else
      var s := IntToString(v.value);
      ParseIntToString(v.value);
      s
  }

  /** `PString` (lines 66-71). */
  function PString(v: Option<string>): (r: string)
    ensures v.None? ==> r == ""
    ensures v.Some? ==> r == v.value
  {
    if v.None? then "" else v.value
  }

  /** `SizeByteToGB` (lines 72-78): the stored number unscaled, then " GB". */
  function SizeByteToGB(v: Option<Int32>): (r: string)
    ensures v.None? <==> r == ""
    ensures v.Some? ==> |r| > 3 && r[|r| - 3..] == " GB" && ParseInt(r[..|r| - 3]) == Some(v.value)
  {
    if v.None? then "" else
      var s := PInt32ToString(v);
      assert (s + " GB")[..|s|] == s;
      s + " GB"
  }

  /** Every pointer-taking helper renders nil as "". */
  lemma NilRendersEmpty(fixed2: real -> string, memorySizeGB: real, size: Option<Int32>)
    ensures PFloat64ToString(None, fixed2) == "" && Percentage(None, fixed2) == ""
    ensures MemoryUsagePercentageByFreeSpace(None, memorySizeGB, fixed2) == ""
    ensures StorageUsagePercentageByFreeSpace(None, size, fixed2) == ""
    ensures PNetworkThroughputMbps(None, fixed2) == "" && PStorageThroughputMbps(None, fixed2) == ""
    ensures PInt32ToString(None) == "" && PString(None) == "" && SizeByteToGB(None) == ""
  {
  }
}
