/** The allocate-fill-print routine of memoryAllocation/memory_alloc.c: ask the
    allocator for a buffer of `Num` ints, stop with status 0 if it refuses,
    otherwise store i + 1 in slot i for every i and print the slots in order,
    each followed by ", ". The allocator's answer is an input; the buffer is an
    `array<int>` written in place. */
module MemoryAlloc {
  import Format

  datatype Option<T> = None | Some(value: T)

  /** The number of elements the program allocates. */
  const Num: nat := 8

  /** The largest value of a C `int` (32 bits). */
  const IntMax: int := 0x7fff_ffff

  /** The exit status of the program on both of its paths. */
  const ExitStatus: int := 0

  /** The buffer contents the fill loop produces for `n` slots: the contents
      for `n - 1` slots followed by the value `n`. */
  function Filled(n: nat): (s: seq<int>)
    ensures |s| == n
  {
    if n == 0 then [] else Filled(n - 1) + [n]
  }

  /** Slot i of a filled buffer holds i + 1. */
  lemma {:induction false} FilledAt(n: nat, i: nat)
    requires i < n
    ensures |Filled(n)| == n && Filled(n)[i] == i + 1
  {
    if i < n - 1 {
      FilledAt(n - 1, i);
    }
  }

  /** The stored values strictly increase with the index. */
  lemma FilledIncreasing(n: nat, i: nat, j: nat)
    requires i < j < n
    ensures Filled(n)[i] < Filled(n)[j]
  {
    FilledAt(n, i);
    FilledAt(n, j);
  }

  /** Every stored value lies in [1, n]; so for n <= IntMax none of the
      additions `i + 1` overflows a C `int`. */
  lemma FilledBounds(n: nat, i: nat)
    requires i < n
    ensures 1 <= Filled(n)[i] <= n
  {
    FilledAt(n, i);
  }

  /** For the program's own size the buffer is 1, 2, ..., 8. */
  lemma FilledNum()
    ensures Filled(Num) == [1, 2, 3, 4, 5, 6, 7, 8]
  {
    forall i | 0 <= i < Num
      ensures Filled(Num)[i] == [1, 2, 3, 4, 5, 6, 7, 8][i]
    {
      FilledAt(Num, i);
    }
  }

  /** The text the read-back loop writes for buffer contents `s`: each value
      in `%d` form followed by ", ". */
  function Render(s: seq<int>): string {
    if s == [] then "" else Item(s[0]) + Render(s[1..])
  }

  /** The text printed for one slot. */
  function Item(x: int): string {
    Format.Decimal(x) + ", "
  }

  /** Printing one more slot appends exactly that slot's text. */
  lemma {:induction false} RenderSnoc(s: seq<int>, x: int)
    ensures Render(s + [x]) == Render(s) + Item(x)
  {
    var t := s + [x];
    if s == [] {
      assert t[1..] == [];
    } else {
      assert t[0] == s[0] && t[1..] == s[1..] + [x];
      RenderSnoc(s[1..], x);
      assert Render(t) == Item(s[0]) + Render(s[1..] + [x]);
    }
  }

  /** For the program's own size the printed line is "1, 2, 3, 4, 5, 6, 7, 8, ". */
  lemma RenderNum()
    ensures Render(Filled(Num)) == "1, 2, 3, 4, 5, 6, 7, 8, "
  {
    assert Render(Filled(0)) == "";
    RenderDigitStep(1, "", "1, ");
    RenderDigitStep(2, "1, ", "1, 2, ");
    RenderDigitStep(3, "1, 2, ", "1, 2, 3, ");
    RenderDigitStep(4, "1, 2, 3, ", "1, 2, 3, 4, ");
    RenderDigitStep(5, "1, 2, 3, 4, ", "1, 2, 3, 4, 5, ");
    RenderDigitStep(6, "1, 2, 3, 4, 5, ", "1, 2, 3, 4, 5, 6, ");
    RenderDigitStep(7, "1, 2, 3, 4, 5, 6, ", "1, 2, 3, 4, 5, 6, 7, ");
    RenderDigitStep(8, "1, 2, 3, 4, 5, 6, 7, ", "1, 2, 3, 4, 5, 6, 7, 8, ");
  }

  /** For a single-digit `k`, the line for `k` filled slots is the line for
      `k - 1` slots followed by the digit of `k` and ", ". */
  lemma RenderDigitStep(k: nat, line: string, next: string)
    requires 1 <= k <= 9 && Render(Filled(k - 1)) == line
    requires next == line + [Format.DigitChar(k), ',', ' ']
    ensures Render(Filled(k)) == next
  {
    RenderFilledStep(k);
  }

  /** Filling one more slot adds that slot's text at the end of the line. */
  lemma RenderFilledStep(n: nat)
    requires 0 < n
    ensures Render(Filled(n)) == Render(Filled(n - 1)) + Item(n)
  {
    RenderSnoc(Filled(n - 1), n);
  }

  /** The allocation request. `available` is the allocator's answer: on
      success the result is a new buffer of exactly `n` slots, on failure
      there is no buffer. */
  method Allocate(n: nat, available: bool) returns (ptr: Option<array<int>>)
    ensures ptr.Some? <==> available
    ensures ptr.Some? ==> fresh(ptr.value) && ptr.value.Length == n
  {
    if available {
      var a := new int[n];
      ptr := Some(a);
    } else {
      ptr := None;
    }
  }

  /** The fill loop: slot i receives i + 1, in index order, and only slots
      0 .. a.Length - 1 are written. */
  method Fill(a: array<int>)
    modifies a
    ensures a[..] == Filled(a.Length)
    ensures forall i :: 0 <= i < a.Length ==> a[i] == i + 1
  {
    for i := 0 to a.Length
      invariant forall k :: 0 <= k < i ==> a[k] == k + 1
    {
      a[i] := i + 1;
    }
    forall k | 0 <= k < a.Length
      ensures a[..][k] == Filled(a.Length)[k]
    {
      FilledAt(a.Length, k);
    }
  }

  /** The read-back loop: reads every slot in index order and yields the
      values printed and the printed text. It has no modifies clause, so the
      buffer is the same before and after. */
  method ReadBack(a: array<int>) returns (printed: seq<int>, text: string)
    ensures printed == a[..]
    ensures text == Render(a[..])
  {
    printed, text := [], "";
    for i := 0 to a.Length
      invariant printed == a[..i]
      invariant text == Render(a[..i])
    {
      assert a[..i + 1] == a[..i] + [a[i]];
      RenderSnoc(a[..i], a[i]);
      printed := printed + [a[i]];
      text := text + Item(a[i]);
    }
    assert a[..a.Length] == a[..];
  }

  /** The whole routine for a buffer of `n` slots. `final` is the buffer's
      contents after the read-back loop (None when nothing was allocated). On
      allocation failure nothing is filled or printed; both paths end with
      status 0. */
  method RunProgram(n: nat, available: bool)
    returns (status: int, printed: seq<int>, text: string, final: Option<seq<int>>)
    ensures status == ExitStatus
    ensures final.Some? <==> available
    ensures !available ==> printed == [] && text == ""
    ensures available ==> final == Some(Filled(n)) && printed == Filled(n)
    ensures available ==> text == Render(Filled(n))
  {
    var ptr := Allocate(n, available);
    if ptr.None? {
      return ExitStatus, [], "", None;
    }
    var buf := ptr.value;
    Fill(buf);
    printed, text := ReadBack(buf);
    final := Some(buf[..]);
    status := ExitStatus;
  }

  /** The program as written, with `Num` == 8 slots. */
  method Program(available: bool) returns (status: int, printed: seq<int>, text: string)
    ensures status == ExitStatus
    ensures !available ==> printed == [] && text == ""
    ensures available ==> printed == [1, 2, 3, 4, 5, 6, 7, 8]
    ensures available ==> text == "1, 2, 3, 4, 5, 6, 7, 8, "
  {
    var final;
    status, printed, text, final := RunProgram(Num, available);
    FilledNum();
    RenderNum();
  }
}
