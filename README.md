# Allocate, fill and print a buffer of ints

This project models the memory-allocation demo of the repository
(`memoryAllocation/memory_alloc.c`): its `main` asks `malloc` for a buffer of
`num` = 8 ints. If the allocator refuses, it prints a message and exits with
status 0. Otherwise it stores `i + 1` in slot `i` for `i = 0 .. num - 1`. It then
reads the slots back in index order and prints each one as `%d` followed by
`", "`.

The model is in two modules:

- `MemoryAlloc` (`memory_alloc.dfy`). The heap buffer is an `array<int>`.
  Whether `malloc` succeeds is an input flag (`available`). `Allocate` returns
  `Option<array<int>>`; the new array's contents are arbitrary, like the
  uninitialised memory `malloc` returns, and `Fill` proves its result from any
  starting contents. `Fill` is the in-place fill loop, proved against the
  specification function `Filled(n)` (the contents for `n - 1` slots followed
  by `n`). `ReadBack` is the read/print loop, which yields the values printed and
  the printed text `Render(a[..])`. `RunProgram` runs the whole routine for any
  capacity `n`. `Program` is the concrete instance with `n == 8`.
- `Format` (`format.dfy`). The `%d` conversion (`Decimal`) and its inverse
  (`ParseDecimal`), with a round-trip lemma.

Two facts are not stated as postconditions because the language guarantees
them. Both loops only touch indices `0 .. num - 1`: every array access is
bounds-checked by the verifier. The read-back loop leaves the buffer unchanged:
`ReadBack` has no `modifies` clause. `RunProgram` also returns the buffer
contents captured after the read-back loop and states that they are still
`Filled(n)`.

The allocation-failure path is an error path, so a failure exit status might
be expected there. The code calls `exit(0)` instead
(memoryAllocation/memory_alloc.c:10), and the model follows the code:
`RunProgram` ends with status `ExitStatus` == 0 on both paths. On the success
path, `main` runs off its end, and in C that returns 0.

## Model

| member | source | states |
|---|---|---|
| `MemoryAlloc.Filled` | memoryAllocation/memory_alloc.c:15-17 | the contents after filling `n` slots have exactly `n` elements |
| `MemoryAlloc.FilledAt` | memoryAllocation/memory_alloc.c:15-17 | after the fill loop, slot `i` holds `i + 1` for every `i < n` |
| `MemoryAlloc.FilledIncreasing` | memoryAllocation/memory_alloc.c:16 | the stored values strictly increase with the index |
| `MemoryAlloc.FilledBounds` | memoryAllocation/memory_alloc.c:16 | every stored value lies in `[1, n]`, so for `n` up to `INT_MAX` no `i + 1` overflows a C `int` |
| `MemoryAlloc.FilledNum` | memoryAllocation/memory_alloc.c:4-17 | for `num = 8` the buffer is `[1, 2, 3, 4, 5, 6, 7, 8]` |
| `MemoryAlloc.RenderSnoc` | memoryAllocation/memory_alloc.c:19-20 | printing one more slot appends exactly that slot's `%d` text and `", "` to the line |
| `MemoryAlloc.RenderFilledStep` | memoryAllocation/memory_alloc.c:15-20 | the line for `n` filled slots is the line for `n - 1` slots followed by `n` and `", "` |
| `MemoryAlloc.RenderDigitStep` | memoryAllocation/memory_alloc.c:15-20 | for a single-digit `k`, the line grows by that digit and `", "` when slot `k - 1` is added |
| `MemoryAlloc.RenderNum` | memoryAllocation/memory_alloc.c:19-21 | for `num = 8` the printed line is `"1, 2, 3, 4, 5, 6, 7, 8, "` |
| `MemoryAlloc.Allocate` | memoryAllocation/memory_alloc.c:7-8 | success gives a new buffer of exactly `n` slots; failure gives no buffer |
| `MemoryAlloc.Fill` | memoryAllocation/memory_alloc.c:15-17 | the loop (invariant: slots `0 .. k-1` hold index + 1) leaves the buffer equal to `Filled(n)`, every slot `i` holding `i + 1` |
| `MemoryAlloc.ReadBack` | memoryAllocation/memory_alloc.c:19-21 | the values printed are the buffer's slots in index order, and the text is each slot's `%d` form followed by `", "` |
| `MemoryAlloc.RunProgram` | memoryAllocation/memory_alloc.c:7-21 | status is 0 on both paths; on failure nothing is filled or printed and no buffer exists; on success the printed values are `Filled(n)`, the text is their rendering, and the buffer still holds `Filled(n)` after printing |
| `MemoryAlloc.Program` | memoryAllocation/memory_alloc.c:3-22 | with `num = 8`: status 0; on failure nothing printed; on success prints `1, 2, 3, 4, 5, 6, 7, 8, ` |
| `Format.DigitChar` | memoryAllocation/memory_alloc.c:20 | the character `%d` writes for one decimal digit is one of `'0'` to `'9'` |
| `Format.NatToDecimal` | memoryAllocation/memory_alloc.c:20 | the `%d` digits of a natural number are non-empty, all decimal digits, with no leading zero, and a single digit exactly for values below 10 |
| `Format.Decimal` | memoryAllocation/memory_alloc.c:20 | the `%d` text is non-empty, starts with `-` exactly for negative values, and is otherwise digits |
| `Format.DigitsValueOfDecimal` | memoryAllocation/memory_alloc.c:20 | reading the digits written for `n` gives back `n` |
| `Format.DecimalRoundTrip` | memoryAllocation/memory_alloc.c:20 | `ParseDecimal(Decimal(x)) == x` for every integer `x` |
| `Format.DecimalInjective` | memoryAllocation/memory_alloc.c:20 | distinct values are printed as distinct texts |

## Left out

- `timeFunctions/Clock.c` is not part of this model. It is a blocking `getchar` loop, `clock()` sampling and a floating-point division, with no logic of its own.
- `systemInfo/SystemInfo.c` is not part of this model. It wraps the `uname` system call and `perror`, and prints strings supplied by the kernel.
- What `malloc` does internally is external to the program, so only its success or failure is modelled, as the input `available`. The byte count `num * sizeof(int)` and its `size_t` arithmetic are not modelled.
- The status lines (memoryAllocation/memory_alloc.c:6, 9, 13, 18) are console I/O. They are not modelled. `RunProgram` returns only the element values printed and the element line's text.
- `MemoryAlloc.RunProgram`: values are unbounded integers. For capacities above `INT_MAX`, the C loop counter `i` and the value `i + 1` would overflow; this is not modelled. The program's capacity is 8, and `FilledBounds` shows that no overflow happens for `n <= INT_MAX`.
- The buffer is never freed (the source has no `free`). The unused variables `data` and the outer `i` (memoryAllocation/memory_alloc.c:4) have no effect.
- A bounds-checked single-slot `read(buffer, index)` returning an out-of-range error is not in the code, so it is not modelled. The plain reads `ptr[i]` of the read-back loop are inside `ReadBack`.
