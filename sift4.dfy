/**
 * SIFT4 approximate string distance (sift4.go, `Distance`).
 *
 * The scan is specified step by step as functions over `State`, one loop
 * iteration at a time (`Visit`, `Advance`, the early-exit test and `Settle`),
 * and run to the end by `Run`; `Sift4Distance` is the distance the scan returns.
 * The method `Distance` is the scan as the source writes it, over a
 * caller-reusable `Buffer`, and is proved to return `Sift4Distance`.
 */
module Sift4 {
  import opened Window

  function Min(a: int, b: int): int { if a <= b then a else b }
  function Max(a: int, b: int): int { if a >= b then a else b }

  /** Caller-reusable scratch storage holding the offset window. */
  class Buffer {
    var offset: seq<Offset>

    /** The zero value: an empty window. */
    constructor ()
      ensures offset == []
    {
      offset := [];
    }
  }

  /** The variables of the scan at one point of one call. */
  datatype State = State(c1: int, c2: int, lcss: int, localCS: int, trans: int, window: seq<Offset>)

  const Start: State := State(0, 0, 0, 0, 0, [])

  /** The loop condition. */
  predicate InRange<T>(s1: seq<T>, s2: seq<T>, st: State)
  {
    0 <= st.c1 < |s1| && 0 <= st.c2 < |s2|
  }

  /** What holds at every loop head: the cursors are within (or at the end
      of) their sequences, the counters are non-negative, and the common
      subsequence counted so far is no longer than the shorter cursor. */
  predicate Inv<T>(s1: seq<T>, s2: seq<T>, st: State)
  {
    && 0 <= st.c1 <= |s1| && 0 <= st.c2 <= |s2|
    && 0 <= st.lcss && 0 <= st.localCS && 0 <= st.trans
    && st.lcss + st.localCS <= Min(st.c1, st.c2)
  }

  // ---------------------------------------------------------------------------
  // Look-ahead after a mismatch

  /** Where the look-ahead finds a match: `InS1(i)` when s1[c + i] == s2[c],
      `InS2(i)` when s1[c] == s2[c + i]. */
  datatype Hit = NoHit | InS1(i: int) | InS2(i: int)

  predicate HitS1<T(==)>(s1: seq<T>, s2: seq<T>, c: int, i: int)
    requires 0 <= c < |s2| && 0 <= i
  {
    c + i < |s1| && s1[c + i] == s2[c]
  }

  predicate HitS2<T(==)>(s1: seq<T>, s2: seq<T>, c: int, i: int)
    requires 0 <= c < |s1| && 0 <= i
  {
    c + i < |s2| && s1[c] == s2[c + i]
  }

  /** The look-ahead from the resynchronised cursor `c`, starting at offset
      `i`: the first offset below `maxOffset` with a hit, s1's side tried
      first at each offset. */
  function FirstHit<T(==)>(s1: seq<T>, s2: seq<T>, c: int, maxOffset: int, i: int): (h: Hit)
    requires 0 <= c < |s1| && c < |s2| && 0 <= i
    ensures h.InS1? ==> i <= h.i < maxOffset && HitS1(s1, s2, c, h.i)
    ensures h.InS2? ==> i <= h.i < maxOffset && !HitS1(s1, s2, c, h.i) && HitS2(s1, s2, c, h.i)
    ensures forall j :: i <= j < (if h.NoHit? then maxOffset else h.i) ==>
                          !HitS1(s1, s2, c, j) && !HitS2(s1, s2, c, j)
    decreases maxOffset - i
  {
    if i < maxOffset && (c + i < |s1| || c + i < |s2|) then
      if HitS1(s1, s2, c, i) then InS1(i)
      else if HitS2(s1, s2, c, i) then InS2(i)
      else FirstHit(s1, s2, c, maxOffset, i + 1)
    else NoHit
  }

  // ---------------------------------------------------------------------------
  // One iteration of the scan

  /** The branch on s1[c1] == s2[c2], before the cursors are incremented. On
      a match the window is scanned and the new record appended; on a
      mismatch the run is folded into `lcss`, both cursors drop to their
      minimum, and a look-ahead hit places them one before the match. */
  function Visit<T(==)>(s1: seq<T>, s2: seq<T>, maxOffset: int, st: State): State
    requires Inv(s1, s2, st) && InRange(s1, s2, st)
  {
    if s1[st.c1] == s2[st.c2] then
      var r := Scan(st.window, st.c1, st.c2);
      st.(localCS := st.localCS + 1, trans := st.trans + r.bump,
          window := r.kept + [Offset(st.c1, st.c2, r.isTrans)])
    else
      var m := Min(st.c1, st.c2);
      var (c1, c2) := Landing(FirstHit(s1, s2, m, maxOffset, 0), m);
      st.(c1 := c1, c2 := c2, lcss := st.lcss + st.localCS, localCS := 0)
  }

  /** The cursors after the look-ahead from `m`: one before the match found,
      so that the increment at the end of the iteration lands on it. */
  function Landing(h: Hit, m: int): (int, int)
  {
    match h
    case NoHit => (m, m)
    case InS1(i) => (m + i - 1, m - 1)
    case InS2(i) => (m - 1, m + i - 1)
  }

  function Advance(st: State): State
  {
    st.(c1 := st.c1 + 1, c2 := st.c2 + 1)
  }

  /** The distance reported if the scan stopped here. */
  function Provisional(st: State): int
  {
    Max(st.c1, st.c2) - st.lcss + st.trans
  }

  /** When a cursor has reached its end, the run is folded into `lcss` and
      both cursors drop to their minimum. */
  function Settle<T>(s1: seq<T>, s2: seq<T>, st: State): State
  {
    if st.c1 >= |s1| || st.c2 >= |s2| then
      var m := Min(st.c1, st.c2);
      st.(c1 := m, c2 := m, lcss := st.lcss + st.localCS, localCS := 0)
    else st
  }

  datatype Iteration = Exits(d: int, at: State) | Continues(next: State)

  /** 2*min(c1, c2), plus one when the cursors sit on a match. */
  function Potential<T(==)>(s1: seq<T>, s2: seq<T>, st: State): int
    requires InRange(s1, s2, st)
  {
    2 * Min(st.c1, st.c2) + (if s1[st.c1] == s2[st.c2] then 1 else 0)
  }

  /** The termination measure of the scan. */
  function Measure<T(==)>(s1: seq<T>, s2: seq<T>, st: State): nat
    requires Inv(s1, s2, st)
  {
    if InRange(s1, s2, st) then 2 * Min(|s1|, |s2|) - Potential(s1, s2, st) else 0
  }

  /** After a mismatch, a look-ahead hit brings the next loop head onto a
      matching pair with the same minimum cursor; without a hit both cursors
      land on the old minimum plus one. */
  lemma ResyncLands<T>(s1: seq<T>, s2: seq<T>, maxOffset: int, st: State)
    requires Inv(s1, s2, st) && InRange(s1, s2, st)
    ensures var m := Min(st.c1, st.c2);
            var n := Advance(Visit(s1, s2, maxOffset, st));
            s1[st.c1] != s2[st.c2] ==>
            if FirstHit(s1, s2, m, maxOffset, 0).NoHit? then n.c1 == n.c2 == m + 1
            else InRange(s1, s2, n) && s1[n.c1] == s2[n.c2] && Min(n.c1, n.c2) == m
  {
    var m := Min(st.c1, st.c2);
    var h := FirstHit(s1, s2, m, maxOffset, 0);
    if s1[st.c1] == s2[st.c2] {
    } else if h.InS1? {
      assert HitS1(s1, s2, m, h.i);
    } else if h.InS2? {
      assert HitS2(s1, s2, m, h.i);
    }
  }

  /** One loop iteration from a loop head: it either exits early with the
      provisional distance, or reaches the next loop head, where the
      invariant holds again and the measure is strictly smaller. */
  function Step<T(==)>(s1: seq<T>, s2: seq<T>, maxOffset: int, maxDistance: int, st: State): (it: Iteration)
    requires Inv(s1, s2, st) && InRange(s1, s2, st)
    ensures it.Continues? ==> Inv(s1, s2, it.next) && Measure(s1, s2, it.next) < Measure(s1, s2, st)
  {
    var mid := Advance(Visit(s1, s2, maxOffset, st));
    if maxDistance > 0 && Provisional(mid) > maxDistance then Exits(Provisional(mid), mid)
    else
      ScanBump(st.window, st.c1, st.c2);
      ResyncLands(s1, s2, maxOffset, st);
      Continues(Settle(s1, s2, mid))
  }

  datatype Outcome = EarlyExit(d: int, at: State) | Finished(at: State)

  /** The scan from a loop head to its end: an early exit with the state in
      which it happened, or the state in which the loop condition fails. */
  function Run<T(==)>(s1: seq<T>, s2: seq<T>, maxOffset: int, maxDistance: int, st: State): (o: Outcome)
    requires Inv(s1, s2, st)
    ensures o.Finished? ==> Inv(s1, s2, o.at) && !InRange(s1, s2, o.at)
    ensures o.EarlyExit? ==> maxDistance > 0 && o.d > maxDistance && o.d == Provisional(o.at)
    decreases Measure(s1, s2, st)
  {
    if !InRange(s1, s2, st) then Finished(st)
    else match Step(s1, s2, maxOffset, maxDistance, st)
      case Exits(d, at) => EarlyExit(d, at)
      case Continues(next) => Run(s1, s2, maxOffset, maxDistance, next)
  }

  /** Visit on a matching pair. */
  lemma VisitMatch<T>(s1: seq<T>, s2: seq<T>, maxOffset: int, st: State, r: ScanResult)
    requires Inv(s1, s2, st) && InRange(s1, s2, st) && s1[st.c1] == s2[st.c2]
    requires r == Scan(st.window, st.c1, st.c2)
    ensures Visit(s1, s2, maxOffset, st)
         == st.(localCS := st.localCS + 1, trans := st.trans + r.bump,
                window := r.kept + [Offset(st.c1, st.c2, r.isTrans)])
  {
  }

  /** Visit on a mismatching pair. */
  lemma VisitMismatch<T>(s1: seq<T>, s2: seq<T>, maxOffset: int, st: State, m: int, c1: int, c2: int)
    requires Inv(s1, s2, st) && InRange(s1, s2, st) && s1[st.c1] != s2[st.c2]
    requires m == Min(st.c1, st.c2) && (c1, c2) == Landing(FirstHit(s1, s2, m, maxOffset, 0), m)
    ensures Visit(s1, s2, maxOffset, st)
         == st.(c1 := c1, c2 := c2, lcss := st.lcss + st.localCS, localCS := 0)
  {
  }

  /** An iteration that exits early ends the scan with its provisional
      distance. */
  lemma RunExits<T>(s1: seq<T>, s2: seq<T>, maxOffset: int, maxDistance: int, st: State, mid: State)
    requires Inv(s1, s2, st) && InRange(s1, s2, st)
    requires mid == Advance(Visit(s1, s2, maxOffset, st))
    requires maxDistance > 0 && Provisional(mid) > maxDistance
    ensures Run(s1, s2, maxOffset, maxDistance, st) == EarlyExit(Provisional(mid), mid)
  {
  }

  /** An iteration that does not exit early reaches the next loop head
      `next`, from which the scan goes on. */
  lemma RunContinues<T>(s1: seq<T>, s2: seq<T>, maxOffset: int, maxDistance: int, st: State, mid: State, next: State)
    requires Inv(s1, s2, st) && InRange(s1, s2, st)
    requires mid == Advance(Visit(s1, s2, maxOffset, st))
    requires !(maxDistance > 0 && Provisional(mid) > maxDistance)
    requires next == Settle(s1, s2, mid)
    ensures Inv(s1, s2, next) && Measure(s1, s2, next) < Measure(s1, s2, st)
    ensures Run(s1, s2, maxOffset, maxDistance, st) == Run(s1, s2, maxOffset, maxDistance, next)
  {
    assert Step(s1, s2, maxOffset, maxDistance, st) == Continues(next);
  }

  predicate Trivial<T(==)>(s1: seq<T>, s2: seq<T>)
  {
    |s1| == 0 || |s2| == 0 || s1 == s2
  }

  /** The SIFT4 distance: the trivial cases first, then the scan, whose end
      result is max(|s1|, |s2|) - lcss + trans. It is never negative. */
  function Sift4Distance<T(==)>(s1: seq<T>, s2: seq<T>, maxOffset: int, maxDistance: int): (d: int)
    ensures d >= 0
  {
    if |s1| == 0 then |s2|
    else if |s2| == 0 then |s1|
    else if s1 == s2 then 0
    else Result(s1, s2, Run(s1, s2, maxOffset, maxDistance, Start))
  }

  /** The value returned at the end of the scan: the early-exit value, or
      max(|s1|, |s2|) - lcss + trans once the pending run is folded in. */
  function Result<T>(s1: seq<T>, s2: seq<T>, o: Outcome): int
  {
    match o
    case EarlyExit(d, _) => d
    case Finished(at) => Max(|s1|, |s2|) - (at.lcss + at.localCS) + at.trans
  }

  /** The offset window as the scan leaves it, at an early exit or at the end. */
  function FinalWindow<T(==)>(s1: seq<T>, s2: seq<T>, maxOffset: int, maxDistance: int): seq<Offset>
  {
    Run(s1, s2, maxOffset, maxDistance, Start).at.window
  }

  // ---------------------------------------------------------------------------
  // The implementation

  /** The inner loop of the match branch: walks the offset window from the
      front, deleting stale records in place, until the first qualifying
      record decides whether the match at (c1, c2) is a transposition. */
  method ScanOffsets(buffer: Buffer, c1: int, c2: int, trans: int) returns (isTrans: bool, trans': int)
    modifies buffer
    ensures var r := Scan(old(buffer.offset), c1, c2);
            buffer.offset == r.kept && isTrans == r.isTrans && trans' == trans + r.bump
  {
    isTrans, trans' := false, trans;
    ghost var w0 := buffer.offset;
    var i := 0;
    while i < |buffer.offset|
      invariant 0 <= i <= |buffer.offset|
      invariant !isTrans && trans' == trans
      invariant Scan(w0, c1, c2) == Keep(buffer.offset[..i], Scan(buffer.offset[i..], c1, c2))
      decreases |buffer.offset| - i
    {
      var ofs := buffer.offset[i];
      ScanAt(buffer.offset, i, c1, c2);
      if c1 <= ofs.c1 || c2 <= ofs.c2 {
        isTrans := Abs(c2 - c1) >= Abs(ofs.c2 - ofs.c1);
        if isTrans {
          trans' := trans' + 1;
        } else if !ofs.trans {
          ofs := ofs.(trans := true);  // a copy: the stored record keeps its flag
          trans' := trans' + 1;
        }
        KeepSplit(buffer.offset, i, Scan(buffer.offset[i..], c1, c2));
        break;
      }
      if c1 > ofs.c2 && c2 > ofs.c1 {
        ghost var w := buffer.offset;
        buffer.offset := buffer.offset[..i] + buffer.offset[i + 1..];
        assert buffer.offset[..i] == w[..i] && buffer.offset[i..] == w[i + 1..];
      } else {
        KeepStep(buffer.offset, i, Scan(buffer.offset[i + 1..], c1, c2));
        i := i + 1;
      }
    }
    assert i == |buffer.offset| ==> buffer.offset[i..] == [] && buffer.offset[..i] == buffer.offset;
  }

  /** The look-ahead loop of the mismatch branch, from both cursors at `c`:
      the cursors it leaves, one before the match it finds. */
  method LookAhead<T(==)>(s1: seq<T>, s2: seq<T>, c: int, maxOffset: int) returns (c1: int, c2: int)
    requires 0 <= c < |s1| && c < |s2|
    ensures (c1, c2) == Landing(FirstHit(s1, s2, c, maxOffset, 0), c)
  {
    c1, c2 := c, c;
    var i := 0;
    while i < maxOffset && (c1 + i < |s1| || c2 + i < |s2|)
      invariant 0 <= i
      invariant c1 == c2 == c
      invariant FirstHit(s1, s2, c, maxOffset, i) == FirstHit(s1, s2, c, maxOffset, 0)
      decreases maxOffset - i
    {
      if c1 + i < |s1| && s1[c1 + i] == s2[c2] {
        c1 := c1 + i - 1;
        c2 := c2 - 1;
        break;
      }
      if c2 + i < |s2| && s1[c1] == s2[c2 + i] {
        c1 := c1 - 1;
        c2 := c2 + i - 1;
        break;
      }
      i := i + 1;
    }
  }

  /** The body of the scan loop up to the cursor increment: the match branch
      with its window scan, or the mismatch branch with its resynchronisation
      and look-ahead. */
  method VisitCursors<T(==)>(s1: seq<T>, s2: seq<T>, maxOffset: int, buffer: Buffer,
                             c1: int, c2: int, lcss: int, localCS: int, trans: int)
    returns (c1': int, c2': int, lcss': int, localCS': int, trans': int)
    requires Inv(s1, s2, State(c1, c2, lcss, localCS, trans, buffer.offset))
    requires InRange(s1, s2, State(c1, c2, lcss, localCS, trans, buffer.offset))
    modifies buffer
    ensures State(c1', c2', lcss', localCS', trans', buffer.offset)
         == Visit(s1, s2, maxOffset, State(c1, c2, lcss, localCS, trans, old(buffer.offset)))
  {
    ghost var head := State(c1, c2, lcss, localCS, trans, buffer.offset);
    c1', c2', lcss', localCS', trans' := c1, c2, lcss, localCS, trans;
    if s1[c1'] == s2[c2'] {
      localCS' := localCS' + 1;
      var isTrans;
      isTrans, trans' := ScanOffsets(buffer, c1', c2', trans');
      buffer.offset := buffer.offset + [Offset(c1', c2', isTrans)];
      VisitMatch(s1, s2, maxOffset, head, Scan(head.window, c1, c2));
    } else {
      lcss' := lcss' + localCS';
      localCS' := 0;
      if c1' != c2' {
        c1' := Min(c1', c2');
        c2' := c1';
      }
      c1', c2' := LookAhead(s1, s2, c1', maxOffset);
      VisitMismatch(s1, s2, maxOffset, head, Min(c1, c2), c1', c2');
    }
  }

  /** SIFT4 distance of `s1` and `s2`, looking ahead `maxOffset` symbols after
      a mismatch and stopping as soon as the provisional distance exceeds a
      positive `maxDistance`. The buffer, when given, is cleared on entry to
      the scan and holds the last offset window on return; the result does
      not depend on it. */
  method Distance<T(==)>(s1: seq<T>, s2: seq<T>, maxOffset: int, maxDistance: int, buffer: Buffer?)
    returns (d: int)
    requires maxOffset >= 0
    modifies buffer
    ensures d == Sift4Distance(s1, s2, maxOffset, maxDistance)
    ensures d >= 0
    ensures buffer != null && Trivial(s1, s2) ==> buffer.offset == old(buffer.offset)
    ensures buffer != null && !Trivial(s1, s2) ==>
              buffer.offset == FinalWindow(s1, s2, maxOffset, maxDistance)
  {
    if |s1| == 0 {
      return |s2|;
    }
    if |s2| == 0 {
      return |s1|;
    }
    if s1 == s2 {
      return 0;
    }

    var c1, c2 := 0, 0;
    var lcss, localCS, trans := 0, 0, 0;

    var buf: Buffer;
    if buffer == null {
      buf := new Buffer();
    } else {
      buf := buffer;
    }
    buf.offset := [];

    ghost var outcome := Run(s1, s2, maxOffset, maxDistance, Start);
    assert Sift4Distance(s1, s2, maxOffset, maxDistance) == Result(s1, s2, outcome);
    assert FinalWindow(s1, s2, maxOffset, maxDistance) == outcome.at.window;
    while c1 < |s1| && c2 < |s2|
      invariant buffer != null ==> buf == buffer
      invariant Inv(s1, s2, State(c1, c2, lcss, localCS, trans, buf.offset))
      invariant Run(s1, s2, maxOffset, maxDistance, State(c1, c2, lcss, localCS, trans, buf.offset)) == outcome
      decreases Measure(s1, s2, State(c1, c2, lcss, localCS, trans, buf.offset))
    {
      ghost var head := State(c1, c2, lcss, localCS, trans, buf.offset);
      c1, c2, lcss, localCS, trans := VisitCursors(s1, s2, maxOffset, buf, c1, c2, lcss, localCS, trans);

      c1 := c1 + 1;
      c2 := c2 + 1;
      ghost var mid := State(c1, c2, lcss, localCS, trans, buf.offset);
      assert mid == Advance(Visit(s1, s2, maxOffset, head));

      if maxDistance > 0 {
        var provisional := Max(c1, c2) - lcss + trans;
        if provisional > maxDistance {
          RunExits(s1, s2, maxOffset, maxDistance, head, mid);
          return provisional;
        }
      }
      assert !(maxDistance > 0 && Provisional(mid) > maxDistance);

      if c1 >= |s1| || c2 >= |s2| {
        lcss := lcss + localCS;
        localCS := 0;
        c1 := Min(c1, c2);
        c2 := c1;
      }
      RunContinues(s1, s2, maxOffset, maxDistance, head, mid, State(c1, c2, lcss, localCS, trans, buf.offset));
    }

    lcss := lcss + localCS;
    return Max(|s1|, |s2|) - lcss + trans;
  }
}
