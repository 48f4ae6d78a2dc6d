# SIFT4 string distance in Dafny

This project models `Distance` from the Go package `sift4` (sift4.go). It is
Siderite's SIFT4 approximate string distance. Two cursors walk the two
sequences in a single pass. Runs of matching symbols are counted, and a short
look-ahead after a mismatch resynchronises the cursors. An ordered window of
recent match positions detects transpositions. The scan may stop early once
its provisional distance exceeds a threshold.

The model is in four modules:

- `Window` (window.dfy) covers the offset record and the offset window. The
  function `Scan` describes the inner loop of the match branch record by
  record. `ScanSpec` states what that loop does to the window as a whole.
- `Sift4` (sift4.dfy) holds the specification of the scan. Each loop iteration
  is a chain of functions over a `State`: `Visit`, `Advance`, the early-exit
  test and `Settle`. `Step` is one iteration, `Run` is the scan to its end,
  and `Sift4Distance` is the returned value. The same module holds the
  implementation. `Distance` is an imperative method over a caller-reusable
  `Buffer` class. Its window is a `seq` field that the method truncates,
  deletes from in place and appends to. The method is proved to return
  `Sift4Distance` and to leave the final window in the buffer.
- `Sift4Properties` (properties.dfy) holds properties that relate several
  iterations or several calls.
- `Sift4Vectors` (vectors.dfy) derives the rows of the source's test table
  and its two examples from the model.

Termination is not obvious, because the cursors move backwards at
sift4.go:80-83, 89-90, 94-95 and 111-116. It is proved with the potential
`2*min(c1, c2) + (s1[c1] == s2[c2] ? 1 : 0)`, which strictly grows from one
loop head to the next.

The source has these quirks, and the model reproduces them:

- The record is copied before its flag is set (sift4.go:56, 62), so that write
  is lost.
- The stale test compares the cursors crosswise (sift4.go:67).
- The early exit uses a strict `>` (sift4.go:105).
- The buffer is cleared on entry (sift4.go:47) and not on exit. After a call
  it holds the last offset window. The trivial returns do not touch it.

Early exit is not monotone. For `halooooxo`/`hbloooogo` (sfit4_test.go:44), a
threshold of 5 ends the scan early with 6, yet the full scan gives 2
(`Sift4Vectors.HalooooxoHbloooogo`,
`Sift4Vectors.HalooooxoHbloooogoNoThreshold`). The rows at
sfit4_test.go:47-49 sit under a comment saying that early exit is not
reached. In the model, all three of them end in an early exit. For the first row,
the last iteration lemma of `Sift4Vectors.DistanceDifference` shows it. For
the other two, `Sift4Properties.DisjointDistance` does. This affects only the comment, not
the expected values.

## Model

| member | source | states |
|---|---|---|
| `Window.Abs` | sift4.go:123-128 | The absolute value is non-negative and equals `x` or `-x`. |
| `Window.FirstQualifying` | sift4.go:55-65 | The scan stops at the first record with `c1 <= o.c1 \|\| c2 <= o.c2`. No record before it qualifies. When no record qualifies, the index is the window length. |
| `Window.DropStale` | sift4.go:66-71 | Exactly the records that fail the crosswise stale test `c1 > o.c2 && c2 > o.c1` survive, in order. |
| `Window.ScanSpec` | sift4.go:55-73 | The window loop removes exactly the stale records before the first qualifying record and keeps the rest unchanged and in order. The transposition flag is `abs(c2-c1) >= abs(o.c2-o.c1)` of the first qualifying record. `trans` grows exactly when that flag is set or that record's stored flag is false. With no qualifying record there is no flag and no growth. |
| `Window.ScanBump` | sift4.go:58-64 | One window scan adds 0 or 1 to `trans`. |
| `Window.KeptRecordsUnchanged` | sift4.go:56-68 | Every record left in the window was in it before, with the same fields. The flag write on the copy does not reach the stored record. |
| `Sift4.Buffer.constructor` | sift4.go:5-9 | The zero value of `Buffer` holds an empty window. |
| `Sift4.FirstHit` | sift4.go:87-98 | The look-ahead returns the first offset below `maxOffset` with a match. At each offset it tries s1's side (`s1[c+i] == s2[c]`) before s2's side. No offset before the result matches. With no match, no offset below `maxOffset` matches. |
| `Sift4.ResyncLands` | sift4.go:80-102 | After a mismatch and a look-ahead hit, the next cursors are in range, sit on a matching pair, and keep `min(c1, c2)`. Without a hit, both cursors land on `min(c1, c2) + 1`. |
| `Sift4.Step` | sift4.go:49-117 | An iteration that does not exit early reaches a loop head where the invariant holds again: cursors within bounds, non-negative counters, and `lcss + localCS <= min(c1, c2)`. The termination measure there is strictly smaller. |
| `Sift4.Run` | sift4.go:49-117 | A scan that finishes stops in a state outside the loop condition with the invariant intact. An early exit happens only with `maxDistance > 0`, and it returns `max(c1, c2) - lcss + trans`, which is strictly greater than `maxDistance`. |
| `Sift4.Sift4Distance` | sift4.go:23-32 | The distance is never negative. |
| `Sift4.ScanOffsets` | sift4.go:55-73 | The in-place window loop, with its deletions and `break`, leaves in the buffer exactly the window that `Scan` describes. It returns that scan's flag and `trans` increment. |
| `Sift4.LookAhead` | sift4.go:87-98 | The look-ahead loop leaves the cursors one before the hit that `FirstHit` finds, or leaves them unchanged when there is none. |
| `Sift4.VisitCursors` | sift4.go:50-99 | The branch of the loop body on `s1[c1] == s2[c2]` produces exactly the `Visit` state. This includes the window in the buffer. |
| `Sift4.Distance` | sift4.go:23-121 | `Distance` returns `Sift4Distance` for every buffer argument: none, fresh, or left non-empty by an earlier call. The result is non-negative. A trivial input leaves the buffer as it was. Otherwise the buffer holds the window the scan ends with. |
| `Sift4Properties.TrivialCases` | sift4.go:24-32 | An empty `s1` gives `len(s2)`, an empty `s2` gives `len(s1)`, and equal sequences give 0, whatever the parameters. |
| `Sift4Properties.RunIgnoresThreshold` | sift4.go:104-108 | The threshold only decides whether the scan stops early. A scan that runs to the end is the same as the scan without a threshold. A threshold that is not positive changes nothing. |
| `Sift4Properties.EarlyExitAboveThreshold` | sift4.go:104-108 | With `maxDistance <= 0` the result is the full computation. Otherwise the result is either the full computation or a value strictly above a positive `maxDistance`. |
| `Sift4Properties.WindowStep` | sift4.go:55-75 | A mismatch leaves the window alone. A match produces `DropStale(prefix) + rest + [Offset(c1, c2, isTrans)]`, where `prefix` ends at the first qualifying record. |
| `Sift4Properties.RecordsNeverRewritten` | sift4.go:56-75 | After an iteration, every window record is an old record unchanged or the single record just appended. |
| `Sift4Properties.TransStep` | sift4.go:53-65 | `trans` grows by at most 1 per iteration, and only on a match. |
| `Sift4Properties.DisjointRun` | sift4.go:76-117 | With no common symbol, each iteration is a mismatch whose look-ahead finds nothing, so both cursors advance together. The scan ends at the shorter length or exits at `maxDistance + 1`. |
| `Sift4Properties.DisjointDistance` | sift4.go:87-120 | Two non-empty sequences with no common symbol are at distance `max(len)`. The exception is a positive threshold below the shorter length, which gives `maxDistance + 1`. |
| `Sift4Vectors.TrivialRows` | sfit4_test.go:34-37 | The test rows answered by the trivial cases give 3, 3, 0 and 0. |
| `Sift4Vectors.Examples` | sfit4_test.go:11-22 | `Distance("kitten", "sitting", 100, 5)` is 3 with no buffer, with a fresh buffer, and again with the same buffer after it was used. |
| `Sift4Vectors.KittenSitting` | sfit4_test.go:32 | kitten/sitting gives 3. |
| `Sift4Vectors.BookBack` | sfit4_test.go:33 | book/back gives 2. |
| `Sift4Vectors.AB` | sfit4_test.go:38 | a/b gives 1. |
| `Sift4Vectors.AbAbc` | sfit4_test.go:39 | ab/abc gives 1. |
| `Sift4Vectors.AbcAb` | sfit4_test.go:40 | abc/ab gives 1. |
| `Sift4Vectors.AbcDef` | sfit4_test.go:41 | abc/def gives 3. |
| `Sift4Vectors.HelloHelo` | sfit4_test.go:42 | hello/helo gives 1. |
| `Sift4Vectors.WorldWord` | sfit4_test.go:43 | world/word gives 1. |
| `Sift4Vectors.HalooooxoHbloooogo` | sfit4_test.go:44 | halooooxo/hbloooogo with threshold 5 gives 6, by an early exit. |
| `Sift4Vectors.HalooooxoHbloooogoNoThreshold` | sfit4_test.go:44 | The same pair without a threshold gives 2. |
| `Sift4Vectors.DistanceDifference` | sfit4_test.go:47 | distance/difference with threshold 5 gives 6, by an early exit. |
| `Sift4Vectors.AbcdefXyz` | sfit4_test.go:48 | abcdef/xyz with threshold 2 gives 3, by an early exit. |
| `Sift4Vectors.AbcdefXyzNoThreshold` | sfit4_test.go:48 | The same pair without a threshold gives 6. |
| `Sift4Vectors.LongXyz` | sfit4_test.go:49 | `abcdef` repeated six times against xyz, with threshold 2, gives 3. |
| `Sift4Vectors.AbcAcb` | sfit4_test.go:52-55 | abc/acb gives 1. This is one adjacent transposition, and the row appears twice. |
| `Sift4Vectors.AbBa` | sfit4_test.go:53 | ab/ba gives 1. |
| `Sift4Vectors.AbcdBadc` | sfit4_test.go:54 | abcd/badc gives 2, for two transpositions. |
| `Sift4Vectors.AabBaa` | sfit4_test.go:56 | aab/baa gives 1. The look-ahead hit here is on s2's side. |
| `Sift4Vectors.AbcdCdab` | sfit4_test.go:57 | abcd/cdab gives 2, for a cyclic shift. |
| `Sift4Vectors.ZeroOneOneOne` | sfit4_test.go:58 | 01/11 gives 1. |
| `Sift4Vectors.Zeros` | sfit4_test.go:59 | 00010/000010 gives 2. |

## Left out

- Sift4.Distance: requires `maxOffset >= 0`. In Go, a negative `maxOffset` makes `make` panic (sift4.go:44-45), but only when the buffer's slice is nil. With a slice already allocated, the call runs, and its look-ahead never probes. The model does not distinguish a nil slice from an empty one.
- Slice capacity and allocation (sift4.go:44-45) are not modelled. Capacity cannot be observed. A missing buffer becomes a fresh `Buffer` that the caller never sees.
- Symbols are any type with equality. Go compares the bytes of its strings. UTF-8 decoding plays no part in the source and is not modelled.
- Go's `int` is 64 bits wide. All counters are bounded by the sequence lengths, so the model uses unbounded integers.
- Sharing one `Buffer` between goroutines is a usage rule, not logic, and is not modelled.
- The benchmark and fuzz harnesses (sfit4_test.go:73-129) are not modelled. The fuzz harness asserts the trivial cases (`Sift4Properties.TrivialCases`) and non-negativity (`Sift4.Sift4Distance`).
- The model makes no claim that the result approximates or bounds the Damerau–Levenshtein distance, because the source makes none.
- The loop body of `Distance` is split into the methods `VisitCursors`, `ScanOffsets` and `LookAhead`. These follow the branch and the two inner loops of sift4.go:50-99. The statements and their order are those of the source.
