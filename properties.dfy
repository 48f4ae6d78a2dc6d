/**
 * Properties of the SIFT4 scan that relate several iterations or several
 * calls: the trivial cases, the early-exit threshold, what one iteration
 * does to the offset window and to the transposition count, and the
 * results the source's tests expect.
 */
module Sift4Properties {
  import opened Window
  import opened Sift4

  /** The trivial cases: an empty side gives the length of the other, equal
      sequences give 0, whatever the parameters. */
  lemma TrivialCases<T>(s1: seq<T>, s2: seq<T>, maxOffset: int, maxDistance: int)
    ensures |s1| == 0 ==> Sift4Distance(s1, s2, maxOffset, maxDistance) == |s2|
    ensures |s2| == 0 ==> Sift4Distance(s1, s2, maxOffset, maxDistance) == |s1|
    ensures s1 == s2 ==> Sift4Distance(s1, s2, maxOffset, maxDistance) == 0
  {
  }

  /** The threshold only decides whether the scan stops early: a scan that
      runs to the end with a threshold is the scan without one, and a
      threshold that is not positive changes nothing. */
  lemma {:induction false} RunIgnoresThreshold<T>(s1: seq<T>, s2: seq<T>, maxOffset: int, maxDistance: int, st: State)
    requires Inv(s1, s2, st)
    ensures Run(s1, s2, maxOffset, maxDistance, st).Finished? ==>
              Run(s1, s2, maxOffset, maxDistance, st) == Run(s1, s2, maxOffset, 0, st)
    ensures maxDistance <= 0 ==> Run(s1, s2, maxOffset, maxDistance, st) == Run(s1, s2, maxOffset, 0, st)
    decreases Measure(s1, s2, st)
  {
    if InRange(s1, s2, st) {
      var it := Step(s1, s2, maxOffset, maxDistance, st);
      if it.Continues? {
        assert Step(s1, s2, maxOffset, 0, st) == it;
        RunIgnoresThreshold(s1, s2, maxOffset, maxDistance, it.next);
      }
    }
  }

  /** Early exit never changes the result except by returning a value above
      a positive threshold; with a threshold that is not positive the result
      is the full computation. */
  lemma EarlyExitAboveThreshold<T>(s1: seq<T>, s2: seq<T>, maxOffset: int, maxDistance: int)
    ensures maxDistance <= 0 ==> Sift4Distance(s1, s2, maxOffset, maxDistance) == Sift4Distance(s1, s2, maxOffset, 0)
    ensures || Sift4Distance(s1, s2, maxOffset, maxDistance) == Sift4Distance(s1, s2, maxOffset, 0)
            || (maxDistance > 0 && Sift4Distance(s1, s2, maxOffset, maxDistance) > maxDistance)
  {
    RunIgnoresThreshold(s1, s2, maxOffset, maxDistance, Start);
  }

  /** One iteration on a matching pair removes from the window exactly the
      stale records before the first qualifying one, keeps the rest in order,
      and appends one record for the match, flagged as a transposition when
      the first qualifying record says so. A mismatch leaves the window as
      it is. */
  lemma WindowStep<T>(s1: seq<T>, s2: seq<T>, maxOffset: int, st: State)
    requires Inv(s1, s2, st) && InRange(s1, s2, st)
    ensures s1[st.c1] != s2[st.c2] ==> Visit(s1, s2, maxOffset, st).window == st.window
    ensures s1[st.c1] == s2[st.c2] ==>
              var w, c1, c2 := st.window, st.c1, st.c2;
              var k := FirstQualifying(w, c1, c2);
              Visit(s1, s2, maxOffset, st).window
                == DropStale(w[..k], c1, c2) + w[k..]
                   + [Offset(c1, c2, k < |w| && IsTransposition(w[k], c1, c2))]
  {
    ScanSpec(st.window, st.c1, st.c2);
  }

  /** Every record in the window after an iteration is either a record that
      was there before, unchanged, or the one record the iteration appended:
      a stored flag is never rewritten. */
  lemma RecordsNeverRewritten<T>(s1: seq<T>, s2: seq<T>, maxOffset: int, st: State)
    requires Inv(s1, s2, st) && InRange(s1, s2, st)
    ensures var w' := Visit(s1, s2, maxOffset, st).window;
            forall o :: o in w' ==> o in st.window || o == w'[|w'| - 1]
  {
    KeptRecordsUnchanged(st.window, st.c1, st.c2);
  }

  /** `trans` grows by at most one per iteration, and only on a match. */
  lemma TransStep<T>(s1: seq<T>, s2: seq<T>, maxOffset: int, maxDistance: int, st: State)
    requires Inv(s1, s2, st) && InRange(s1, s2, st)
    ensures var t := match Step(s1, s2, maxOffset, maxDistance, st)
                     case Exits(_, at) => at.trans
                     case Continues(next) => next.trans;
            && st.trans <= t <= st.trans + 1
            && (s1[st.c1] != s2[st.c2] ==> t == st.trans)
  {
    ScanBump(st.window, st.c1, st.c2);
  }

  /** No symbol of one sequence occurs in the other. */
  predicate NoCommonSymbol<T(==)>(s1: seq<T>, s2: seq<T>)
  {
    forall i, j :: 0 <= i < |s1| && 0 <= j < |s2| ==> s1[i] != s2[j]
  }

  /** With no symbol in common, every iteration is a mismatch whose
      look-ahead finds nothing, so both cursors advance together from a
      loop head (k, k) with nothing recorded; the scan either runs to the
      shorter end or exits at the first provisional distance above a
      positive threshold. */
  lemma {:induction false} DisjointRun<T>(s1: seq<T>, s2: seq<T>, maxOffset: int, maxDistance: int, k: int)
    requires NoCommonSymbol(s1, s2) && 0 <= k <= Min(|s1|, |s2|)
    requires !(maxDistance > 0 && k > maxDistance)
    ensures var n := Min(|s1|, |s2|);
            Run(s1, s2, maxOffset, maxDistance, State(k, k, 0, 0, 0, []))
              == if 0 < maxDistance < n then EarlyExit(maxDistance + 1, State(maxDistance + 1, maxDistance + 1, 0, 0, 0, []))
                 else Finished(State(n, n, 0, 0, 0, []))
    decreases Min(|s1|, |s2|) - k
  {
    var st := State(k, k, 0, 0, 0, []);
    if InRange(s1, s2, st) {
      assert FirstHit(s1, s2, k, maxOffset, 0) == NoHit;
      var mid := State(k + 1, k + 1, 0, 0, 0, []);
      VisitMismatch(s1, s2, maxOffset, st, k, k, k);
      if maxDistance > 0 && Provisional(mid) > maxDistance {
        RunExits(s1, s2, maxOffset, maxDistance, st, mid);
      } else {
        RunContinues(s1, s2, maxOffset, maxDistance, st, mid, mid);
        DisjointRun(s1, s2, maxOffset, maxDistance, k + 1);
      }
    }
  }

  /** Two non-empty sequences with no symbol in common are as far apart as
      the longer one is long, unless a positive threshold below the shorter
      length stops the scan one past the threshold. */
  lemma DisjointDistance<T>(s1: seq<T>, s2: seq<T>, maxOffset: int, maxDistance: int)
    requires |s1| > 0 && |s2| > 0 && NoCommonSymbol(s1, s2)
    ensures Sift4Distance(s1, s2, maxOffset, maxDistance)
         == if 0 < maxDistance < Min(|s1|, |s2|) then maxDistance + 1 else Max(|s1|, |s2|)
  {
    assert s1[0] != s2[0];
    DisjointRun(s1, s2, maxOffset, maxDistance, 0);
  }
}
