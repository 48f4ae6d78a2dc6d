/**
 * The rows of the source's test table (sfit4_test.go:24-60) and its two
 * examples (sfit4_test.go:11-22), derived from the model. Each vector is
 * proved iteration by iteration: one lemma per loop iteration names the
 * look-ahead probes it makes and the loop head it reaches, and the lemma
 * named after the vector chains them to the distance.
 */
module Sift4Vectors {
  import opened Window
  import opened Sift4
  import opened Sift4Properties

  /** The rows whose answer comes from the trivial cases (sfit4_test.go:34-37). */
  lemma TrivialRows()
    ensures Sift4Distance("", "abc", 100, 5) == 3
    ensures Sift4Distance("abc", "", 100, 5) == 3
    ensures Sift4Distance("", "", 100, 5) == 0
    ensures Sift4Distance("a", "a", 100, 5) == 0
  {
  }

  /** Both examples print 3 (sfit4_test.go:11-22): without a buffer, with a
      fresh one, and again with the same buffer after a call has left records
      in it. */
  method Examples() returns (d1: int, d2: int, d3: int)
    ensures d1 == 3 && d2 == 3 && d3 == 3
  {
    KittenSitting("kitten", "sitting");
    d1 := Distance("kitten", "sitting", 100, 5, null);
    var b := new Buffer();
    d2 := Distance("kitten", "sitting", 100, 5, b);
    d3 := Distance("kitten", "sitting", 100, 5, b);
  }

  /** Substitutions and an insertion (sfit4_test.go:32). */
  lemma KittenSitting(s1: string, s2: string)
    requires s1 == "kitten" && s2 == "sitting"
    ensures Sift4Distance(s1, s2, 100, 5) == 3
  {
    KittenSitting1(s1, s2);
    KittenSitting2(s1, s2);
    KittenSitting3(s1, s2);
    KittenSitting4(s1, s2);
    KittenSitting5(s1, s2);
    KittenSitting6(s1, s2);
  }

  /** Iteration 1: mismatch at (0, 0), the look-ahead from 0 finds nothing. */
  lemma KittenSitting1(s1: string, s2: string)
    requires |s1| == 6 && s1[0] == 'k' && s1[1] == 'i' && s1[2] == 't' && s1[3] == 't' && s1[4] == 'e' && s1[5] == 'n'
    requires |s2| == 7 && s2[0] == 's' && s2[1] == 'i' && s2[2] == 't' && s2[3] == 't' && s2[4] == 'i' && s2[5] == 'n' && s2[6] == 'g'
    ensures Run(s1, s2, 100, 5, State(0, 0, 0, 0, 0, [])) == Run(s1, s2, 100, 5, State(1, 1, 0, 0, 0, []))
  {
    assert FirstHit(s1, s2, 0, 100, 0) == FirstHit(s1, s2, 0, 100, 1);
    assert FirstHit(s1, s2, 0, 100, 1) == FirstHit(s1, s2, 0, 100, 2);
    assert FirstHit(s1, s2, 0, 100, 2) == FirstHit(s1, s2, 0, 100, 3);
    assert FirstHit(s1, s2, 0, 100, 3) == FirstHit(s1, s2, 0, 100, 4);
    assert FirstHit(s1, s2, 0, 100, 4) == FirstHit(s1, s2, 0, 100, 5);
    assert FirstHit(s1, s2, 0, 100, 5) == FirstHit(s1, s2, 0, 100, 6);
    assert FirstHit(s1, s2, 0, 100, 6) == FirstHit(s1, s2, 0, 100, 7);
    assert FirstHit(s1, s2, 0, 100, 7) == NoHit;
    VisitMismatch(s1, s2, 100, State(0, 0, 0, 0, 0, []), 0, 0, 0);
    RunContinues(s1, s2, 100, 5, State(0, 0, 0, 0, 0, []), State(1, 1, 0, 0, 0, []), State(1, 1, 0, 0, 0, []));
  }

  /** Iteration 2: 'i' matches at (1, 1). */
  lemma KittenSitting2(s1: string, s2: string)
    requires |s1| == 6 && s1[0] == 'k' && s1[1] == 'i' && s1[2] == 't' && s1[3] == 't' && s1[4] == 'e' && s1[5] == 'n'
    requires |s2| == 7 && s2[0] == 's' && s2[1] == 'i' && s2[2] == 't' && s2[3] == 't' && s2[4] == 'i' && s2[5] == 'n' && s2[6] == 'g'
    ensures Run(s1, s2, 100, 5, State(1, 1, 0, 0, 0, [])) == Run(s1, s2, 100, 5, State(2, 2, 0, 1, 0, [Offset(1, 1, false)]))
  {
    VisitMatch(s1, s2, 100, State(1, 1, 0, 0, 0, []), ScanResult([], false, 0));
    RunContinues(s1, s2, 100, 5, State(1, 1, 0, 0, 0, []), State(2, 2, 0, 1, 0, [Offset(1, 1, false)]), State(2, 2, 0, 1, 0, [Offset(1, 1, false)]));
  }

  /** Iteration 3: 't' matches at (2, 2), stale records are dropped. */
  lemma KittenSitting3(s1: string, s2: string)
    requires |s1| == 6 && s1[0] == 'k' && s1[1] == 'i' && s1[2] == 't' && s1[3] == 't' && s1[4] == 'e' && s1[5] == 'n'
    requires |s2| == 7 && s2[0] == 's' && s2[1] == 'i' && s2[2] == 't' && s2[3] == 't' && s2[4] == 'i' && s2[5] == 'n' && s2[6] == 'g'
    ensures Run(s1, s2, 100, 5, State(2, 2, 0, 1, 0, [Offset(1, 1, false)])) == Run(s1, s2, 100, 5, State(3, 3, 0, 2, 0, [Offset(2, 2, false)]))
  {
    VisitMatch(s1, s2, 100, State(2, 2, 0, 1, 0, [Offset(1, 1, false)]), ScanResult([], false, 0));
    RunContinues(s1, s2, 100, 5, State(2, 2, 0, 1, 0, [Offset(1, 1, false)]), State(3, 3, 0, 2, 0, [Offset(2, 2, false)]), State(3, 3, 0, 2, 0, [Offset(2, 2, false)]));
  }

  /** Iteration 4: 't' matches at (3, 3), stale records are dropped. */
  lemma KittenSitting4(s1: string, s2: string)
    requires |s1| == 6 && s1[0] == 'k' && s1[1] == 'i' && s1[2] == 't' && s1[3] == 't' && s1[4] == 'e' && s1[5] == 'n'
    requires |s2| == 7 && s2[0] == 's' && s2[1] == 'i' && s2[2] == 't' && s2[3] == 't' && s2[4] == 'i' && s2[5] == 'n' && s2[6] == 'g'
    ensures Run(s1, s2, 100, 5, State(3, 3, 0, 2, 0, [Offset(2, 2, false)])) == Run(s1, s2, 100, 5, State(4, 4, 0, 3, 0, [Offset(3, 3, false)]))
  {
    VisitMatch(s1, s2, 100, State(3, 3, 0, 2, 0, [Offset(2, 2, false)]), ScanResult([], false, 0));
    RunContinues(s1, s2, 100, 5, State(3, 3, 0, 2, 0, [Offset(2, 2, false)]), State(4, 4, 0, 3, 0, [Offset(3, 3, false)]), State(4, 4, 0, 3, 0, [Offset(3, 3, false)]));
  }

  /** Iteration 5: mismatch at (4, 4), the look-ahead from 4 finds nothing. */
  lemma KittenSitting5(s1: string, s2: string)
    requires |s1| == 6 && s1[0] == 'k' && s1[1] == 'i' && s1[2] == 't' && s1[3] == 't' && s1[4] == 'e' && s1[5] == 'n'
    requires |s2| == 7 && s2[0] == 's' && s2[1] == 'i' && s2[2] == 't' && s2[3] == 't' && s2[4] == 'i' && s2[5] == 'n' && s2[6] == 'g'
    ensures Run(s1, s2, 100, 5, State(4, 4, 0, 3, 0, [Offset(3, 3, false)])) == Run(s1, s2, 100, 5, State(5, 5, 3, 0, 0, [Offset(3, 3, false)]))
  {
    assert FirstHit(s1, s2, 4, 100, 0) == FirstHit(s1, s2, 4, 100, 1);
    assert FirstHit(s1, s2, 4, 100, 1) == FirstHit(s1, s2, 4, 100, 2);
    assert FirstHit(s1, s2, 4, 100, 2) == FirstHit(s1, s2, 4, 100, 3);
    assert FirstHit(s1, s2, 4, 100, 3) == NoHit;
    VisitMismatch(s1, s2, 100, State(4, 4, 0, 3, 0, [Offset(3, 3, false)]), 4, 4, 4);
    RunContinues(s1, s2, 100, 5, State(4, 4, 0, 3, 0, [Offset(3, 3, false)]), State(5, 5, 3, 0, 0, [Offset(3, 3, false)]), State(5, 5, 3, 0, 0, [Offset(3, 3, false)]));
  }

  /** Iteration 6: 'n' matches at (5, 5), stale records are dropped; a cursor reaches its end. */
  lemma KittenSitting6(s1: string, s2: string)
    requires |s1| == 6 && s1[0] == 'k' && s1[1] == 'i' && s1[2] == 't' && s1[3] == 't' && s1[4] == 'e' && s1[5] == 'n'
    requires |s2| == 7 && s2[0] == 's' && s2[1] == 'i' && s2[2] == 't' && s2[3] == 't' && s2[4] == 'i' && s2[5] == 'n' && s2[6] == 'g'
    ensures Run(s1, s2, 100, 5, State(5, 5, 3, 0, 0, [Offset(3, 3, false)])) == Finished(State(6, 6, 4, 0, 0, [Offset(5, 5, false)]))
  {
    VisitMatch(s1, s2, 100, State(5, 5, 3, 0, 0, [Offset(3, 3, false)]), ScanResult([], false, 0));
    RunContinues(s1, s2, 100, 5, State(5, 5, 3, 0, 0, [Offset(3, 3, false)]), State(6, 6, 3, 1, 0, [Offset(5, 5, false)]), State(6, 6, 4, 0, 0, [Offset(5, 5, false)]));
    assert Run(s1, s2, 100, 5, State(6, 6, 4, 0, 0, [Offset(5, 5, false)])) == Finished(State(6, 6, 4, 0, 0, [Offset(5, 5, false)]));
  }

  /** Two substitutions (sfit4_test.go:33). */
  lemma BookBack(s1: string, s2: string)
    requires s1 == "book" && s2 == "back"
    ensures Sift4Distance(s1, s2, 100, 5) == 2
  {
    BookBack1(s1, s2);
    BookBack2(s1, s2);
    BookBack3(s1, s2);
    BookBack4(s1, s2);
  }

  /** Iteration 1: 'b' matches at (0, 0). */
  lemma BookBack1(s1: string, s2: string)
    requires |s1| == 4 && s1[0] == 'b' && s1[1] == 'o' && s1[2] == 'o' && s1[3] == 'k'
    requires |s2| == 4 && s2[0] == 'b' && s2[1] == 'a' && s2[2] == 'c' && s2[3] == 'k'
    ensures Run(s1, s2, 100, 5, State(0, 0, 0, 0, 0, [])) == Run(s1, s2, 100, 5, State(1, 1, 0, 1, 0, [Offset(0, 0, false)]))
  {
    VisitMatch(s1, s2, 100, State(0, 0, 0, 0, 0, []), ScanResult([], false, 0));
    RunContinues(s1, s2, 100, 5, State(0, 0, 0, 0, 0, []), State(1, 1, 0, 1, 0, [Offset(0, 0, false)]), State(1, 1, 0, 1, 0, [Offset(0, 0, false)]));
  }

  /** Iteration 2: mismatch at (1, 1), the look-ahead from 1 finds nothing. */
  lemma BookBack2(s1: string, s2: string)
    requires |s1| == 4 && s1[0] == 'b' && s1[1] == 'o' && s1[2] == 'o' && s1[3] == 'k'
    requires |s2| == 4 && s2[0] == 'b' && s2[1] == 'a' && s2[2] == 'c' && s2[3] == 'k'
    ensures Run(s1, s2, 100, 5, State(1, 1, 0, 1, 0, [Offset(0, 0, false)])) == Run(s1, s2, 100, 5, State(2, 2, 1, 0, 0, [Offset(0, 0, false)]))
  {
    assert FirstHit(s1, s2, 1, 100, 0) == FirstHit(s1, s2, 1, 100, 1);
    assert FirstHit(s1, s2, 1, 100, 1) == FirstHit(s1, s2, 1, 100, 2);
    assert FirstHit(s1, s2, 1, 100, 2) == FirstHit(s1, s2, 1, 100, 3);
    assert FirstHit(s1, s2, 1, 100, 3) == NoHit;
    VisitMismatch(s1, s2, 100, State(1, 1, 0, 1, 0, [Offset(0, 0, false)]), 1, 1, 1);
    RunContinues(s1, s2, 100, 5, State(1, 1, 0, 1, 0, [Offset(0, 0, false)]), State(2, 2, 1, 0, 0, [Offset(0, 0, false)]), State(2, 2, 1, 0, 0, [Offset(0, 0, false)]));
  }

  /** Iteration 3: mismatch at (2, 2), the look-ahead from 2 finds nothing. */
  lemma BookBack3(s1: string, s2: string)
    requires |s1| == 4 && s1[0] == 'b' && s1[1] == 'o' && s1[2] == 'o' && s1[3] == 'k'
    requires |s2| == 4 && s2[0] == 'b' && s2[1] == 'a' && s2[2] == 'c' && s2[3] == 'k'
    ensures Run(s1, s2, 100, 5, State(2, 2, 1, 0, 0, [Offset(0, 0, false)])) == Run(s1, s2, 100, 5, State(3, 3, 1, 0, 0, [Offset(0, 0, false)]))
  {
    assert FirstHit(s1, s2, 2, 100, 0) == FirstHit(s1, s2, 2, 100, 1);
    assert FirstHit(s1, s2, 2, 100, 1) == FirstHit(s1, s2, 2, 100, 2);
    assert FirstHit(s1, s2, 2, 100, 2) == NoHit;
    VisitMismatch(s1, s2, 100, State(2, 2, 1, 0, 0, [Offset(0, 0, false)]), 2, 2, 2);
    RunContinues(s1, s2, 100, 5, State(2, 2, 1, 0, 0, [Offset(0, 0, false)]), State(3, 3, 1, 0, 0, [Offset(0, 0, false)]), State(3, 3, 1, 0, 0, [Offset(0, 0, false)]));
  }

  /** Iteration 4: 'k' matches at (3, 3), stale records are dropped; a cursor reaches its end. */
  lemma BookBack4(s1: string, s2: string)
    requires |s1| == 4 && s1[0] == 'b' && s1[1] == 'o' && s1[2] == 'o' && s1[3] == 'k'
    requires |s2| == 4 && s2[0] == 'b' && s2[1] == 'a' && s2[2] == 'c' && s2[3] == 'k'
    ensures Run(s1, s2, 100, 5, State(3, 3, 1, 0, 0, [Offset(0, 0, false)])) == Finished(State(4, 4, 2, 0, 0, [Offset(3, 3, false)]))
  {
    VisitMatch(s1, s2, 100, State(3, 3, 1, 0, 0, [Offset(0, 0, false)]), ScanResult([], false, 0));
    RunContinues(s1, s2, 100, 5, State(3, 3, 1, 0, 0, [Offset(0, 0, false)]), State(4, 4, 1, 1, 0, [Offset(3, 3, false)]), State(4, 4, 2, 0, 0, [Offset(3, 3, false)]));
    assert Run(s1, s2, 100, 5, State(4, 4, 2, 0, 0, [Offset(3, 3, false)])) == Finished(State(4, 4, 2, 0, 0, [Offset(3, 3, false)]));
  }

  /** One substitution (sfit4_test.go:38). */
  lemma AB(s1: string, s2: string)
    requires s1 == "a" && s2 == "b"
    ensures Sift4Distance(s1, s2, 100, 5) == 1
  {
    AB1(s1, s2);
  }

  /** Iteration 1: mismatch at (0, 0), the look-ahead from 0 finds nothing; a cursor reaches its end. */
  lemma AB1(s1: string, s2: string)
    requires |s1| == 1 && s1[0] == 'a'
    requires |s2| == 1 && s2[0] == 'b'
    ensures Run(s1, s2, 100, 5, State(0, 0, 0, 0, 0, [])) == Finished(State(1, 1, 0, 0, 0, []))
  {
    assert FirstHit(s1, s2, 0, 100, 0) == FirstHit(s1, s2, 0, 100, 1);
    assert FirstHit(s1, s2, 0, 100, 1) == NoHit;
    VisitMismatch(s1, s2, 100, State(0, 0, 0, 0, 0, []), 0, 0, 0);
    RunContinues(s1, s2, 100, 5, State(0, 0, 0, 0, 0, []), State(1, 1, 0, 0, 0, []), State(1, 1, 0, 0, 0, []));
    assert Run(s1, s2, 100, 5, State(1, 1, 0, 0, 0, [])) == Finished(State(1, 1, 0, 0, 0, []));
  }

  /** A trailing insertion (sfit4_test.go:39). */
  lemma AbAbc(s1: string, s2: string)
    requires s1 == "ab" && s2 == "abc"
    ensures Sift4Distance(s1, s2, 100, 5) == 1
  {
    AbAbc1(s1, s2);
    AbAbc2(s1, s2);
  }

  /** Iteration 1: 'a' matches at (0, 0). */
  lemma AbAbc1(s1: string, s2: string)
    requires |s1| == 2 && s1[0] == 'a' && s1[1] == 'b'
    requires |s2| == 3 && s2[0] == 'a' && s2[1] == 'b' && s2[2] == 'c'
    ensures Run(s1, s2, 100, 5, State(0, 0, 0, 0, 0, [])) == Run(s1, s2, 100, 5, State(1, 1, 0, 1, 0, [Offset(0, 0, false)]))
  {
    VisitMatch(s1, s2, 100, State(0, 0, 0, 0, 0, []), ScanResult([], false, 0));
    RunContinues(s1, s2, 100, 5, State(0, 0, 0, 0, 0, []), State(1, 1, 0, 1, 0, [Offset(0, 0, false)]), State(1, 1, 0, 1, 0, [Offset(0, 0, false)]));
  }

  /** Iteration 2: 'b' matches at (1, 1), stale records are dropped; a cursor reaches its end. */
  lemma AbAbc2(s1: string, s2: string)
    requires |s1| == 2 && s1[0] == 'a' && s1[1] == 'b'
    requires |s2| == 3 && s2[0] == 'a' && s2[1] == 'b' && s2[2] == 'c'
    ensures Run(s1, s2, 100, 5, State(1, 1, 0, 1, 0, [Offset(0, 0, false)])) == Finished(State(2, 2, 2, 0, 0, [Offset(1, 1, false)]))
  {
    VisitMatch(s1, s2, 100, State(1, 1, 0, 1, 0, [Offset(0, 0, false)]), ScanResult([], false, 0));
    RunContinues(s1, s2, 100, 5, State(1, 1, 0, 1, 0, [Offset(0, 0, false)]), State(2, 2, 0, 2, 0, [Offset(1, 1, false)]), State(2, 2, 2, 0, 0, [Offset(1, 1, false)]));
    assert Run(s1, s2, 100, 5, State(2, 2, 2, 0, 0, [Offset(1, 1, false)])) == Finished(State(2, 2, 2, 0, 0, [Offset(1, 1, false)]));
  }

  /** A trailing deletion (sfit4_test.go:40). */
  lemma AbcAb(s1: string, s2: string)
    requires s1 == "abc" && s2 == "ab"
    ensures Sift4Distance(s1, s2, 100, 5) == 1
  {
    AbcAb1(s1, s2);
    AbcAb2(s1, s2);
  }

  /** Iteration 1: 'a' matches at (0, 0). */
  lemma AbcAb1(s1: string, s2: string)
    requires |s1| == 3 && s1[0] == 'a' && s1[1] == 'b' && s1[2] == 'c'
    requires |s2| == 2 && s2[0] == 'a' && s2[1] == 'b'
    ensures Run(s1, s2, 100, 5, State(0, 0, 0, 0, 0, [])) == Run(s1, s2, 100, 5, State(1, 1, 0, 1, 0, [Offset(0, 0, false)]))
  {
    VisitMatch(s1, s2, 100, State(0, 0, 0, 0, 0, []), ScanResult([], false, 0));
    RunContinues(s1, s2, 100, 5, State(0, 0, 0, 0, 0, []), State(1, 1, 0, 1, 0, [Offset(0, 0, false)]), State(1, 1, 0, 1, 0, [Offset(0, 0, false)]));
  }

  /** Iteration 2: 'b' matches at (1, 1), stale records are dropped; a cursor reaches its end. */
  lemma AbcAb2(s1: string, s2: string)
    requires |s1| == 3 && s1[0] == 'a' && s1[1] == 'b' && s1[2] == 'c'
    requires |s2| == 2 && s2[0] == 'a' && s2[1] == 'b'
    ensures Run(s1, s2, 100, 5, State(1, 1, 0, 1, 0, [Offset(0, 0, false)])) == Finished(State(2, 2, 2, 0, 0, [Offset(1, 1, false)]))
  {
    VisitMatch(s1, s2, 100, State(1, 1, 0, 1, 0, [Offset(0, 0, false)]), ScanResult([], false, 0));
    RunContinues(s1, s2, 100, 5, State(1, 1, 0, 1, 0, [Offset(0, 0, false)]), State(2, 2, 0, 2, 0, [Offset(1, 1, false)]), State(2, 2, 2, 0, 0, [Offset(1, 1, false)]));
    assert Run(s1, s2, 100, 5, State(2, 2, 2, 0, 0, [Offset(1, 1, false)])) == Finished(State(2, 2, 2, 0, 0, [Offset(1, 1, false)]));
  }

  /** Nothing in common (sfit4_test.go:41). */
  lemma AbcDef(s1: string, s2: string)
    requires s1 == "abc" && s2 == "def"
    ensures Sift4Distance(s1, s2, 100, 5) == 3
  {
    DisjointDistance(s1, s2, 100, 5);
  }

  /** A deletion in the middle (sfit4_test.go:42). */
  lemma HelloHelo(s1: string, s2: string)
    requires s1 == "hello" && s2 == "helo"
    ensures Sift4Distance(s1, s2, 100, 5) == 1
  {
    HelloHelo1(s1, s2);
    HelloHelo2(s1, s2);
    HelloHelo3(s1, s2);
    HelloHelo4(s1, s2);
    HelloHelo5(s1, s2);
  }

  /** Iteration 1: 'h' matches at (0, 0). */
  lemma HelloHelo1(s1: string, s2: string)
    requires |s1| == 5 && s1[0] == 'h' && s1[1] == 'e' && s1[2] == 'l' && s1[3] == 'l' && s1[4] == 'o'
    requires |s2| == 4 && s2[0] == 'h' && s2[1] == 'e' && s2[2] == 'l' && s2[3] == 'o'
    ensures Run(s1, s2, 100, 5, State(0, 0, 0, 0, 0, [])) == Run(s1, s2, 100, 5, State(1, 1, 0, 1, 0, [Offset(0, 0, false)]))
  {
    VisitMatch(s1, s2, 100, State(0, 0, 0, 0, 0, []), ScanResult([], false, 0));
    RunContinues(s1, s2, 100, 5, State(0, 0, 0, 0, 0, []), State(1, 1, 0, 1, 0, [Offset(0, 0, false)]), State(1, 1, 0, 1, 0, [Offset(0, 0, false)]));
  }

  /** Iteration 2: 'e' matches at (1, 1), stale records are dropped. */
  lemma HelloHelo2(s1: string, s2: string)
    requires |s1| == 5 && s1[0] == 'h' && s1[1] == 'e' && s1[2] == 'l' && s1[3] == 'l' && s1[4] == 'o'
    requires |s2| == 4 && s2[0] == 'h' && s2[1] == 'e' && s2[2] == 'l' && s2[3] == 'o'
    ensures Run(s1, s2, 100, 5, State(1, 1, 0, 1, 0, [Offset(0, 0, false)])) == Run(s1, s2, 100, 5, State(2, 2, 0, 2, 0, [Offset(1, 1, false)]))
  {
    VisitMatch(s1, s2, 100, State(1, 1, 0, 1, 0, [Offset(0, 0, false)]), ScanResult([], false, 0));
    RunContinues(s1, s2, 100, 5, State(1, 1, 0, 1, 0, [Offset(0, 0, false)]), State(2, 2, 0, 2, 0, [Offset(1, 1, false)]), State(2, 2, 0, 2, 0, [Offset(1, 1, false)]));
  }

  /** Iteration 3: 'l' matches at (2, 2), stale records are dropped. */
  lemma HelloHelo3(s1: string, s2: string)
    requires |s1| == 5 && s1[0] == 'h' && s1[1] == 'e' && s1[2] == 'l' && s1[3] == 'l' && s1[4] == 'o'
    requires |s2| == 4 && s2[0] == 'h' && s2[1] == 'e' && s2[2] == 'l' && s2[3] == 'o'
    ensures Run(s1, s2, 100, 5, State(2, 2, 0, 2, 0, [Offset(1, 1, false)])) == Run(s1, s2, 100, 5, State(3, 3, 0, 3, 0, [Offset(2, 2, false)]))
  {
    VisitMatch(s1, s2, 100, State(2, 2, 0, 2, 0, [Offset(1, 1, false)]), ScanResult([], false, 0));
    RunContinues(s1, s2, 100, 5, State(2, 2, 0, 2, 0, [Offset(1, 1, false)]), State(3, 3, 0, 3, 0, [Offset(2, 2, false)]), State(3, 3, 0, 3, 0, [Offset(2, 2, false)]));
  }

  /** Iteration 4: mismatch at (3, 3), s2[3] is found 1 ahead in s1. */
  lemma HelloHelo4(s1: string, s2: string)
    requires |s1| == 5 && s1[0] == 'h' && s1[1] == 'e' && s1[2] == 'l' && s1[3] == 'l' && s1[4] == 'o'
    requires |s2| == 4 && s2[0] == 'h' && s2[1] == 'e' && s2[2] == 'l' && s2[3] == 'o'
    ensures Run(s1, s2, 100, 5, State(3, 3, 0, 3, 0, [Offset(2, 2, false)])) == Run(s1, s2, 100, 5, State(4, 3, 3, 0, 0, [Offset(2, 2, false)]))
  {
    assert FirstHit(s1, s2, 3, 100, 0) == FirstHit(s1, s2, 3, 100, 1);
    assert FirstHit(s1, s2, 3, 100, 1) == InS1(1);
    VisitMismatch(s1, s2, 100, State(3, 3, 0, 3, 0, [Offset(2, 2, false)]), 3, 3, 2);
    RunContinues(s1, s2, 100, 5, State(3, 3, 0, 3, 0, [Offset(2, 2, false)]), State(4, 3, 3, 0, 0, [Offset(2, 2, false)]), State(4, 3, 3, 0, 0, [Offset(2, 2, false)]));
  }

  /** Iteration 5: 'o' matches at (4, 3), stale records are dropped; a cursor reaches its end. */
  lemma HelloHelo5(s1: string, s2: string)
    requires |s1| == 5 && s1[0] == 'h' && s1[1] == 'e' && s1[2] == 'l' && s1[3] == 'l' && s1[4] == 'o'
    requires |s2| == 4 && s2[0] == 'h' && s2[1] == 'e' && s2[2] == 'l' && s2[3] == 'o'
    ensures Run(s1, s2, 100, 5, State(4, 3, 3, 0, 0, [Offset(2, 2, false)])) == Finished(State(4, 4, 4, 0, 0, [Offset(4, 3, false)]))
  {
    VisitMatch(s1, s2, 100, State(4, 3, 3, 0, 0, [Offset(2, 2, false)]), ScanResult([], false, 0));
    RunContinues(s1, s2, 100, 5, State(4, 3, 3, 0, 0, [Offset(2, 2, false)]), State(5, 4, 3, 1, 0, [Offset(4, 3, false)]), State(4, 4, 4, 0, 0, [Offset(4, 3, false)]));
    assert Run(s1, s2, 100, 5, State(4, 4, 4, 0, 0, [Offset(4, 3, false)])) == Finished(State(4, 4, 4, 0, 0, [Offset(4, 3, false)]));
  }

  /** A deletion near the end (sfit4_test.go:43). */
  lemma WorldWord(s1: string, s2: string)
    requires s1 == "world" && s2 == "word"
    ensures Sift4Distance(s1, s2, 100, 5) == 1
  {
    WorldWord1(s1, s2);
    WorldWord2(s1, s2);
    WorldWord3(s1, s2);
    WorldWord4(s1, s2);
    WorldWord5(s1, s2);
  }

  /** Iteration 1: 'w' matches at (0, 0). */
  lemma WorldWord1(s1: string, s2: string)
    requires |s1| == 5 && s1[0] == 'w' && s1[1] == 'o' && s1[2] == 'r' && s1[3] == 'l' && s1[4] == 'd'
    requires |s2| == 4 && s2[0] == 'w' && s2[1] == 'o' && s2[2] == 'r' && s2[3] == 'd'
    ensures Run(s1, s2, 100, 5, State(0, 0, 0, 0, 0, [])) == Run(s1, s2, 100, 5, State(1, 1, 0, 1, 0, [Offset(0, 0, false)]))
  {
    VisitMatch(s1, s2, 100, State(0, 0, 0, 0, 0, []), ScanResult([], false, 0));
    RunContinues(s1, s2, 100, 5, State(0, 0, 0, 0, 0, []), State(1, 1, 0, 1, 0, [Offset(0, 0, false)]), State(1, 1, 0, 1, 0, [Offset(0, 0, false)]));
  }

  /** Iteration 2: 'o' matches at (1, 1), stale records are dropped. */
  lemma WorldWord2(s1: string, s2: string)
    requires |s1| == 5 && s1[0] == 'w' && s1[1] == 'o' && s1[2] == 'r' && s1[3] == 'l' && s1[4] == 'd'
    requires |s2| == 4 && s2[0] == 'w' && s2[1] == 'o' && s2[2] == 'r' && s2[3] == 'd'
    ensures Run(s1, s2, 100, 5, State(1, 1, 0, 1, 0, [Offset(0, 0, false)])) == Run(s1, s2, 100, 5, State(2, 2, 0, 2, 0, [Offset(1, 1, false)]))
  {
    VisitMatch(s1, s2, 100, State(1, 1, 0, 1, 0, [Offset(0, 0, false)]), ScanResult([], false, 0));
    RunContinues(s1, s2, 100, 5, State(1, 1, 0, 1, 0, [Offset(0, 0, false)]), State(2, 2, 0, 2, 0, [Offset(1, 1, false)]), State(2, 2, 0, 2, 0, [Offset(1, 1, false)]));
  }

  /** Iteration 3: 'r' matches at (2, 2), stale records are dropped. */
  lemma WorldWord3(s1: string, s2: string)
    requires |s1| == 5 && s1[0] == 'w' && s1[1] == 'o' && s1[2] == 'r' && s1[3] == 'l' && s1[4] == 'd'
    requires |s2| == 4 && s2[0] == 'w' && s2[1] == 'o' && s2[2] == 'r' && s2[3] == 'd'
    ensures Run(s1, s2, 100, 5, State(2, 2, 0, 2, 0, [Offset(1, 1, false)])) == Run(s1, s2, 100, 5, State(3, 3, 0, 3, 0, [Offset(2, 2, false)]))
  {
    VisitMatch(s1, s2, 100, State(2, 2, 0, 2, 0, [Offset(1, 1, false)]), ScanResult([], false, 0));
    RunContinues(s1, s2, 100, 5, State(2, 2, 0, 2, 0, [Offset(1, 1, false)]), State(3, 3, 0, 3, 0, [Offset(2, 2, false)]), State(3, 3, 0, 3, 0, [Offset(2, 2, false)]));
  }

  /** Iteration 4: mismatch at (3, 3), s2[3] is found 1 ahead in s1. */
  lemma WorldWord4(s1: string, s2: string)
    requires |s1| == 5 && s1[0] == 'w' && s1[1] == 'o' && s1[2] == 'r' && s1[3] == 'l' && s1[4] == 'd'
    requires |s2| == 4 && s2[0] == 'w' && s2[1] == 'o' && s2[2] == 'r' && s2[3] == 'd'
    ensures Run(s1, s2, 100, 5, State(3, 3, 0, 3, 0, [Offset(2, 2, false)])) == Run(s1, s2, 100, 5, State(4, 3, 3, 0, 0, [Offset(2, 2, false)]))
  {
    assert FirstHit(s1, s2, 3, 100, 0) == FirstHit(s1, s2, 3, 100, 1);
    assert FirstHit(s1, s2, 3, 100, 1) == InS1(1);
    VisitMismatch(s1, s2, 100, State(3, 3, 0, 3, 0, [Offset(2, 2, false)]), 3, 3, 2);
    RunContinues(s1, s2, 100, 5, State(3, 3, 0, 3, 0, [Offset(2, 2, false)]), State(4, 3, 3, 0, 0, [Offset(2, 2, false)]), State(4, 3, 3, 0, 0, [Offset(2, 2, false)]));
  }

  /** Iteration 5: 'd' matches at (4, 3), stale records are dropped; a cursor reaches its end. */
  lemma WorldWord5(s1: string, s2: string)
    requires |s1| == 5 && s1[0] == 'w' && s1[1] == 'o' && s1[2] == 'r' && s1[3] == 'l' && s1[4] == 'd'
    requires |s2| == 4 && s2[0] == 'w' && s2[1] == 'o' && s2[2] == 'r' && s2[3] == 'd'
    ensures Run(s1, s2, 100, 5, State(4, 3, 3, 0, 0, [Offset(2, 2, false)])) == Finished(State(4, 4, 4, 0, 0, [Offset(4, 3, false)]))
  {
    VisitMatch(s1, s2, 100, State(4, 3, 3, 0, 0, [Offset(2, 2, false)]), ScanResult([], false, 0));
    RunContinues(s1, s2, 100, 5, State(4, 3, 3, 0, 0, [Offset(2, 2, false)]), State(5, 4, 3, 1, 0, [Offset(4, 3, false)]), State(4, 4, 4, 0, 0, [Offset(4, 3, false)]));
    assert Run(s1, s2, 100, 5, State(4, 4, 4, 0, 0, [Offset(4, 3, false)])) == Finished(State(4, 4, 4, 0, 0, [Offset(4, 3, false)]));
  }

  /** Substitutions far apart; the value comes from an early exit (sfit4_test.go:44). */
  lemma HalooooxoHbloooogo(s1: string, s2: string)
    requires s1 == "halooooxo" && s2 == "hbloooogo"
    ensures Sift4Distance(s1, s2, 100, 5) == 6
  {
    HalooooxoHbloooogo1(s1, s2);
    HalooooxoHbloooogo2(s1, s2);
    HalooooxoHbloooogo3(s1, s2);
    HalooooxoHbloooogo4(s1, s2);
    HalooooxoHbloooogo5(s1, s2);
    HalooooxoHbloooogo6(s1, s2);
    HalooooxoHbloooogo7(s1, s2);
  }

  /** Iteration 1: 'h' matches at (0, 0). */
  lemma HalooooxoHbloooogo1(s1: string, s2: string)
    requires |s1| == 9 && s1[0] == 'h' && s1[1] == 'a' && s1[2] == 'l' && s1[3] == 'o' && s1[4] == 'o' && s1[5] == 'o' && s1[6] == 'o' && s1[7] == 'x' && s1[8] == 'o'
    requires |s2| == 9 && s2[0] == 'h' && s2[1] == 'b' && s2[2] == 'l' && s2[3] == 'o' && s2[4] == 'o' && s2[5] == 'o' && s2[6] == 'o' && s2[7] == 'g' && s2[8] == 'o'
    ensures Run(s1, s2, 100, 5, State(0, 0, 0, 0, 0, [])) == Run(s1, s2, 100, 5, State(1, 1, 0, 1, 0, [Offset(0, 0, false)]))
  {
    VisitMatch(s1, s2, 100, State(0, 0, 0, 0, 0, []), ScanResult([], false, 0));
    RunContinues(s1, s2, 100, 5, State(0, 0, 0, 0, 0, []), State(1, 1, 0, 1, 0, [Offset(0, 0, false)]), State(1, 1, 0, 1, 0, [Offset(0, 0, false)]));
  }

  /** Iteration 2: mismatch at (1, 1), the look-ahead from 1 finds nothing. */
  lemma HalooooxoHbloooogo2(s1: string, s2: string)
    requires |s1| == 9 && s1[0] == 'h' && s1[1] == 'a' && s1[2] == 'l' && s1[3] == 'o' && s1[4] == 'o' && s1[5] == 'o' && s1[6] == 'o' && s1[7] == 'x' && s1[8] == 'o'
    requires |s2| == 9 && s2[0] == 'h' && s2[1] == 'b' && s2[2] == 'l' && s2[3] == 'o' && s2[4] == 'o' && s2[5] == 'o' && s2[6] == 'o' && s2[7] == 'g' && s2[8] == 'o'
    ensures Run(s1, s2, 100, 5, State(1, 1, 0, 1, 0, [Offset(0, 0, false)])) == Run(s1, s2, 100, 5, State(2, 2, 1, 0, 0, [Offset(0, 0, false)]))
  {
    assert FirstHit(s1, s2, 1, 100, 0) == FirstHit(s1, s2, 1, 100, 1);
    assert FirstHit(s1, s2, 1, 100, 1) == FirstHit(s1, s2, 1, 100, 2);
    assert FirstHit(s1, s2, 1, 100, 2) == FirstHit(s1, s2, 1, 100, 3);
    assert FirstHit(s1, s2, 1, 100, 3) == FirstHit(s1, s2, 1, 100, 4);
    assert FirstHit(s1, s2, 1, 100, 4) == FirstHit(s1, s2, 1, 100, 5);
    assert FirstHit(s1, s2, 1, 100, 5) == FirstHit(s1, s2, 1, 100, 6);
    assert FirstHit(s1, s2, 1, 100, 6) == FirstHit(s1, s2, 1, 100, 7);
    assert FirstHit(s1, s2, 1, 100, 7) == FirstHit(s1, s2, 1, 100, 8);
    assert FirstHit(s1, s2, 1, 100, 8) == NoHit;
    VisitMismatch(s1, s2, 100, State(1, 1, 0, 1, 0, [Offset(0, 0, false)]), 1, 1, 1);
    RunContinues(s1, s2, 100, 5, State(1, 1, 0, 1, 0, [Offset(0, 0, false)]), State(2, 2, 1, 0, 0, [Offset(0, 0, false)]), State(2, 2, 1, 0, 0, [Offset(0, 0, false)]));
  }

  /** Iteration 3: 'l' matches at (2, 2), stale records are dropped. */
  lemma HalooooxoHbloooogo3(s1: string, s2: string)
    requires |s1| == 9 && s1[0] == 'h' && s1[1] == 'a' && s1[2] == 'l' && s1[3] == 'o' && s1[4] == 'o' && s1[5] == 'o' && s1[6] == 'o' && s1[7] == 'x' && s1[8] == 'o'
    requires |s2| == 9 && s2[0] == 'h' && s2[1] == 'b' && s2[2] == 'l' && s2[3] == 'o' && s2[4] == 'o' && s2[5] == 'o' && s2[6] == 'o' && s2[7] == 'g' && s2[8] == 'o'
    ensures Run(s1, s2, 100, 5, State(2, 2, 1, 0, 0, [Offset(0, 0, false)])) == Run(s1, s2, 100, 5, State(3, 3, 1, 1, 0, [Offset(2, 2, false)]))
  {
    VisitMatch(s1, s2, 100, State(2, 2, 1, 0, 0, [Offset(0, 0, false)]), ScanResult([], false, 0));
    RunContinues(s1, s2, 100, 5, State(2, 2, 1, 0, 0, [Offset(0, 0, false)]), State(3, 3, 1, 1, 0, [Offset(2, 2, false)]), State(3, 3, 1, 1, 0, [Offset(2, 2, false)]));
  }

  /** Iteration 4: 'o' matches at (3, 3), stale records are dropped. */
  lemma HalooooxoHbloooogo4(s1: string, s2: string)
    requires |s1| == 9 && s1[0] == 'h' && s1[1] == 'a' && s1[2] == 'l' && s1[3] == 'o' && s1[4] == 'o' && s1[5] == 'o' && s1[6] == 'o' && s1[7] == 'x' && s1[8] == 'o'
    requires |s2| == 9 && s2[0] == 'h' && s2[1] == 'b' && s2[2] == 'l' && s2[3] == 'o' && s2[4] == 'o' && s2[5] == 'o' && s2[6] == 'o' && s2[7] == 'g' && s2[8] == 'o'
    ensures Run(s1, s2, 100, 5, State(3, 3, 1, 1, 0, [Offset(2, 2, false)])) == Run(s1, s2, 100, 5, State(4, 4, 1, 2, 0, [Offset(3, 3, false)]))
  {
    VisitMatch(s1, s2, 100, State(3, 3, 1, 1, 0, [Offset(2, 2, false)]), ScanResult([], false, 0));
    RunContinues(s1, s2, 100, 5, State(3, 3, 1, 1, 0, [Offset(2, 2, false)]), State(4, 4, 1, 2, 0, [Offset(3, 3, false)]), State(4, 4, 1, 2, 0, [Offset(3, 3, false)]));
  }

  /** Iteration 5: 'o' matches at (4, 4), stale records are dropped. */
  lemma HalooooxoHbloooogo5(s1: string, s2: string)
    requires |s1| == 9 && s1[0] == 'h' && s1[1] == 'a' && s1[2] == 'l' && s1[3] == 'o' && s1[4] == 'o' && s1[5] == 'o' && s1[6] == 'o' && s1[7] == 'x' && s1[8] == 'o'
    requires |s2| == 9 && s2[0] == 'h' && s2[1] == 'b' && s2[2] == 'l' && s2[3] == 'o' && s2[4] == 'o' && s2[5] == 'o' && s2[6] == 'o' && s2[7] == 'g' && s2[8] == 'o'
    ensures Run(s1, s2, 100, 5, State(4, 4, 1, 2, 0, [Offset(3, 3, false)])) == Run(s1, s2, 100, 5, State(5, 5, 1, 3, 0, [Offset(4, 4, false)]))
  {
    VisitMatch(s1, s2, 100, State(4, 4, 1, 2, 0, [Offset(3, 3, false)]), ScanResult([], false, 0));
    RunContinues(s1, s2, 100, 5, State(4, 4, 1, 2, 0, [Offset(3, 3, false)]), State(5, 5, 1, 3, 0, [Offset(4, 4, false)]), State(5, 5, 1, 3, 0, [Offset(4, 4, false)]));
  }

  /** Iteration 6: 'o' matches at (5, 5), stale records are dropped. */
  lemma HalooooxoHbloooogo6(s1: string, s2: string)
    requires |s1| == 9 && s1[0] == 'h' && s1[1] == 'a' && s1[2] == 'l' && s1[3] == 'o' && s1[4] == 'o' && s1[5] == 'o' && s1[6] == 'o' && s1[7] == 'x' && s1[8] == 'o'
    requires |s2| == 9 && s2[0] == 'h' && s2[1] == 'b' && s2[2] == 'l' && s2[3] == 'o' && s2[4] == 'o' && s2[5] == 'o' && s2[6] == 'o' && s2[7] == 'g' && s2[8] == 'o'
    ensures Run(s1, s2, 100, 5, State(5, 5, 1, 3, 0, [Offset(4, 4, false)])) == Run(s1, s2, 100, 5, State(6, 6, 1, 4, 0, [Offset(5, 5, false)]))
  {
    VisitMatch(s1, s2, 100, State(5, 5, 1, 3, 0, [Offset(4, 4, false)]), ScanResult([], false, 0));
    RunContinues(s1, s2, 100, 5, State(5, 5, 1, 3, 0, [Offset(4, 4, false)]), State(6, 6, 1, 4, 0, [Offset(5, 5, false)]), State(6, 6, 1, 4, 0, [Offset(5, 5, false)]));
  }

  /** Iteration 7: 'o' matches at (6, 6), stale records are dropped; the provisional distance 6 is over the threshold. */
  lemma HalooooxoHbloooogo7(s1: string, s2: string)
    requires |s1| == 9 && s1[0] == 'h' && s1[1] == 'a' && s1[2] == 'l' && s1[3] == 'o' && s1[4] == 'o' && s1[5] == 'o' && s1[6] == 'o' && s1[7] == 'x' && s1[8] == 'o'
    requires |s2| == 9 && s2[0] == 'h' && s2[1] == 'b' && s2[2] == 'l' && s2[3] == 'o' && s2[4] == 'o' && s2[5] == 'o' && s2[6] == 'o' && s2[7] == 'g' && s2[8] == 'o'
    ensures Run(s1, s2, 100, 5, State(6, 6, 1, 4, 0, [Offset(5, 5, false)])) == EarlyExit(6, State(7, 7, 1, 5, 0, [Offset(6, 6, false)]))
  {
    VisitMatch(s1, s2, 100, State(6, 6, 1, 4, 0, [Offset(5, 5, false)]), ScanResult([], false, 0));
    RunExits(s1, s2, 100, 5, State(6, 6, 1, 4, 0, [Offset(5, 5, false)]), State(7, 7, 1, 5, 0, [Offset(6, 6, false)]));
  }

  /** The same pair without a threshold: the full scan gives 2, so the 6 above is an early exit (sfit4_test.go:44). */
  lemma HalooooxoHbloooogoNoThreshold(s1: string, s2: string)
    requires s1 == "halooooxo" && s2 == "hbloooogo"
    ensures Sift4Distance(s1, s2, 100, 0) == 2
  {
    HalooooxoHbloooogoNoThreshold1(s1, s2);
    HalooooxoHbloooogoNoThreshold2(s1, s2);
    HalooooxoHbloooogoNoThreshold3(s1, s2);
    HalooooxoHbloooogoNoThreshold4(s1, s2);
    HalooooxoHbloooogoNoThreshold5(s1, s2);
    HalooooxoHbloooogoNoThreshold6(s1, s2);
    HalooooxoHbloooogoNoThreshold7(s1, s2);
    HalooooxoHbloooogoNoThreshold8(s1, s2);
    HalooooxoHbloooogoNoThreshold9(s1, s2);
  }

  /** Iteration 1: 'h' matches at (0, 0). */
  lemma HalooooxoHbloooogoNoThreshold1(s1: string, s2: string)
    requires |s1| == 9 && s1[0] == 'h' && s1[1] == 'a' && s1[2] == 'l' && s1[3] == 'o' && s1[4] == 'o' && s1[5] == 'o' && s1[6] == 'o' && s1[7] == 'x' && s1[8] == 'o'
    requires |s2| == 9 && s2[0] == 'h' && s2[1] == 'b' && s2[2] == 'l' && s2[3] == 'o' && s2[4] == 'o' && s2[5] == 'o' && s2[6] == 'o' && s2[7] == 'g' && s2[8] == 'o'
    ensures Run(s1, s2, 100, 0, State(0, 0, 0, 0, 0, [])) == Run(s1, s2, 100, 0, State(1, 1, 0, 1, 0, [Offset(0, 0, false)]))
  {
    VisitMatch(s1, s2, 100, State(0, 0, 0, 0, 0, []), ScanResult([], false, 0));
    RunContinues(s1, s2, 100, 0, State(0, 0, 0, 0, 0, []), State(1, 1, 0, 1, 0, [Offset(0, 0, false)]), State(1, 1, 0, 1, 0, [Offset(0, 0, false)]));
  }

  /** Iteration 2: mismatch at (1, 1), the look-ahead from 1 finds nothing. */
  lemma HalooooxoHbloooogoNoThreshold2(s1: string, s2: string)
    requires |s1| == 9 && s1[0] == 'h' && s1[1] == 'a' && s1[2] == 'l' && s1[3] == 'o' && s1[4] == 'o' && s1[5] == 'o' && s1[6] == 'o' && s1[7] == 'x' && s1[8] == 'o'
    requires |s2| == 9 && s2[0] == 'h' && s2[1] == 'b' && s2[2] == 'l' && s2[3] == 'o' && s2[4] == 'o' && s2[5] == 'o' && s2[6] == 'o' && s2[7] == 'g' && s2[8] == 'o'
    ensures Run(s1, s2, 100, 0, State(1, 1, 0, 1, 0, [Offset(0, 0, false)])) == Run(s1, s2, 100, 0, State(2, 2, 1, 0, 0, [Offset(0, 0, false)]))
  {
    assert FirstHit(s1, s2, 1, 100, 0) == FirstHit(s1, s2, 1, 100, 1);
    assert FirstHit(s1, s2, 1, 100, 1) == FirstHit(s1, s2, 1, 100, 2);
    assert FirstHit(s1, s2, 1, 100, 2) == FirstHit(s1, s2, 1, 100, 3);
    assert FirstHit(s1, s2, 1, 100, 3) == FirstHit(s1, s2, 1, 100, 4);
    assert FirstHit(s1, s2, 1, 100, 4) == FirstHit(s1, s2, 1, 100, 5);
    assert FirstHit(s1, s2, 1, 100, 5) == FirstHit(s1, s2, 1, 100, 6);
    assert FirstHit(s1, s2, 1, 100, 6) == FirstHit(s1, s2, 1, 100, 7);
    assert FirstHit(s1, s2, 1, 100, 7) == FirstHit(s1, s2, 1, 100, 8);
    assert FirstHit(s1, s2, 1, 100, 8) == NoHit;
    VisitMismatch(s1, s2, 100, State(1, 1, 0, 1, 0, [Offset(0, 0, false)]), 1, 1, 1);
    RunContinues(s1, s2, 100, 0, State(1, 1, 0, 1, 0, [Offset(0, 0, false)]), State(2, 2, 1, 0, 0, [Offset(0, 0, false)]), State(2, 2, 1, 0, 0, [Offset(0, 0, false)]));
  }

  /** Iteration 3: 'l' matches at (2, 2), stale records are dropped. */
  lemma HalooooxoHbloooogoNoThreshold3(s1: string, s2: string)
    requires |s1| == 9 && s1[0] == 'h' && s1[1] == 'a' && s1[2] == 'l' && s1[3] == 'o' && s1[4] == 'o' && s1[5] == 'o' && s1[6] == 'o' && s1[7] == 'x' && s1[8] == 'o'
    requires |s2| == 9 && s2[0] == 'h' && s2[1] == 'b' && s2[2] == 'l' && s2[3] == 'o' && s2[4] == 'o' && s2[5] == 'o' && s2[6] == 'o' && s2[7] == 'g' && s2[8] == 'o'
    ensures Run(s1, s2, 100, 0, State(2, 2, 1, 0, 0, [Offset(0, 0, false)])) == Run(s1, s2, 100, 0, State(3, 3, 1, 1, 0, [Offset(2, 2, false)]))
  {
    VisitMatch(s1, s2, 100, State(2, 2, 1, 0, 0, [Offset(0, 0, false)]), ScanResult([], false, 0));
    RunContinues(s1, s2, 100, 0, State(2, 2, 1, 0, 0, [Offset(0, 0, false)]), State(3, 3, 1, 1, 0, [Offset(2, 2, false)]), State(3, 3, 1, 1, 0, [Offset(2, 2, false)]));
  }

  /** Iteration 4: 'o' matches at (3, 3), stale records are dropped. */
  lemma HalooooxoHbloooogoNoThreshold4(s1: string, s2: string)
    requires |s1| == 9 && s1[0] == 'h' && s1[1] == 'a' && s1[2] == 'l' && s1[3] == 'o' && s1[4] == 'o' && s1[5] == 'o' && s1[6] == 'o' && s1[7] == 'x' && s1[8] == 'o'
    requires |s2| == 9 && s2[0] == 'h' && s2[1] == 'b' && s2[2] == 'l' && s2[3] == 'o' && s2[4] == 'o' && s2[5] == 'o' && s2[6] == 'o' && s2[7] == 'g' && s2[8] == 'o'
    ensures Run(s1, s2, 100, 0, State(3, 3, 1, 1, 0, [Offset(2, 2, false)])) == Run(s1, s2, 100, 0, State(4, 4, 1, 2, 0, [Offset(3, 3, false)]))
  {
    VisitMatch(s1, s2, 100, State(3, 3, 1, 1, 0, [Offset(2, 2, false)]), ScanResult([], false, 0));
    RunContinues(s1, s2, 100, 0, State(3, 3, 1, 1, 0, [Offset(2, 2, false)]), State(4, 4, 1, 2, 0, [Offset(3, 3, false)]), State(4, 4, 1, 2, 0, [Offset(3, 3, false)]));
  }

  /** Iteration 5: 'o' matches at (4, 4), stale records are dropped. */
  lemma HalooooxoHbloooogoNoThreshold5(s1: string, s2: string)
    requires |s1| == 9 && s1[0] == 'h' && s1[1] == 'a' && s1[2] == 'l' && s1[3] == 'o' && s1[4] == 'o' && s1[5] == 'o' && s1[6] == 'o' && s1[7] == 'x' && s1[8] == 'o'
    requires |s2| == 9 && s2[0] == 'h' && s2[1] == 'b' && s2[2] == 'l' && s2[3] == 'o' && s2[4] == 'o' && s2[5] == 'o' && s2[6] == 'o' && s2[7] == 'g' && s2[8] == 'o'
    ensures Run(s1, s2, 100, 0, State(4, 4, 1, 2, 0, [Offset(3, 3, false)])) == Run(s1, s2, 100, 0, State(5, 5, 1, 3, 0, [Offset(4, 4, false)]))
  {
    VisitMatch(s1, s2, 100, State(4, 4, 1, 2, 0, [Offset(3, 3, false)]), ScanResult([], false, 0));
    RunContinues(s1, s2, 100, 0, State(4, 4, 1, 2, 0, [Offset(3, 3, false)]), State(5, 5, 1, 3, 0, [Offset(4, 4, false)]), State(5, 5, 1, 3, 0, [Offset(4, 4, false)]));
  }

  /** Iteration 6: 'o' matches at (5, 5), stale records are dropped. */
  lemma HalooooxoHbloooogoNoThreshold6(s1: string, s2: string)
    requires |s1| == 9 && s1[0] == 'h' && s1[1] == 'a' && s1[2] == 'l' && s1[3] == 'o' && s1[4] == 'o' && s1[5] == 'o' && s1[6] == 'o' && s1[7] == 'x' && s1[8] == 'o'
    requires |s2| == 9 && s2[0] == 'h' && s2[1] == 'b' && s2[2] == 'l' && s2[3] == 'o' && s2[4] == 'o' && s2[5] == 'o' && s2[6] == 'o' && s2[7] == 'g' && s2[8] == 'o'
    ensures Run(s1, s2, 100, 0, State(5, 5, 1, 3, 0, [Offset(4, 4, false)])) == Run(s1, s2, 100, 0, State(6, 6, 1, 4, 0, [Offset(5, 5, false)]))
  {
    VisitMatch(s1, s2, 100, State(5, 5, 1, 3, 0, [Offset(4, 4, false)]), ScanResult([], false, 0));
    RunContinues(s1, s2, 100, 0, State(5, 5, 1, 3, 0, [Offset(4, 4, false)]), State(6, 6, 1, 4, 0, [Offset(5, 5, false)]), State(6, 6, 1, 4, 0, [Offset(5, 5, false)]));
  }

  /** Iteration 7: 'o' matches at (6, 6), stale records are dropped. */
  lemma HalooooxoHbloooogoNoThreshold7(s1: string, s2: string)
    requires |s1| == 9 && s1[0] == 'h' && s1[1] == 'a' && s1[2] == 'l' && s1[3] == 'o' && s1[4] == 'o' && s1[5] == 'o' && s1[6] == 'o' && s1[7] == 'x' && s1[8] == 'o'
    requires |s2| == 9 && s2[0] == 'h' && s2[1] == 'b' && s2[2] == 'l' && s2[3] == 'o' && s2[4] == 'o' && s2[5] == 'o' && s2[6] == 'o' && s2[7] == 'g' && s2[8] == 'o'
    ensures Run(s1, s2, 100, 0, State(6, 6, 1, 4, 0, [Offset(5, 5, false)])) == Run(s1, s2, 100, 0, State(7, 7, 1, 5, 0, [Offset(6, 6, false)]))
  {
    VisitMatch(s1, s2, 100, State(6, 6, 1, 4, 0, [Offset(5, 5, false)]), ScanResult([], false, 0));
    RunContinues(s1, s2, 100, 0, State(6, 6, 1, 4, 0, [Offset(5, 5, false)]), State(7, 7, 1, 5, 0, [Offset(6, 6, false)]), State(7, 7, 1, 5, 0, [Offset(6, 6, false)]));
  }

  /** Iteration 8: mismatch at (7, 7), the look-ahead from 7 finds nothing. */
  lemma HalooooxoHbloooogoNoThreshold8(s1: string, s2: string)
    requires |s1| == 9 && s1[0] == 'h' && s1[1] == 'a' && s1[2] == 'l' && s1[3] == 'o' && s1[4] == 'o' && s1[5] == 'o' && s1[6] == 'o' && s1[7] == 'x' && s1[8] == 'o'
    requires |s2| == 9 && s2[0] == 'h' && s2[1] == 'b' && s2[2] == 'l' && s2[3] == 'o' && s2[4] == 'o' && s2[5] == 'o' && s2[6] == 'o' && s2[7] == 'g' && s2[8] == 'o'
    ensures Run(s1, s2, 100, 0, State(7, 7, 1, 5, 0, [Offset(6, 6, false)])) == Run(s1, s2, 100, 0, State(8, 8, 6, 0, 0, [Offset(6, 6, false)]))
  {
    assert FirstHit(s1, s2, 7, 100, 0) == FirstHit(s1, s2, 7, 100, 1);
    assert FirstHit(s1, s2, 7, 100, 1) == FirstHit(s1, s2, 7, 100, 2);
    assert FirstHit(s1, s2, 7, 100, 2) == NoHit;
    VisitMismatch(s1, s2, 100, State(7, 7, 1, 5, 0, [Offset(6, 6, false)]), 7, 7, 7);
    RunContinues(s1, s2, 100, 0, State(7, 7, 1, 5, 0, [Offset(6, 6, false)]), State(8, 8, 6, 0, 0, [Offset(6, 6, false)]), State(8, 8, 6, 0, 0, [Offset(6, 6, false)]));
  }

  /** Iteration 9: 'o' matches at (8, 8), stale records are dropped; a cursor reaches its end. */
  lemma HalooooxoHbloooogoNoThreshold9(s1: string, s2: string)
    requires |s1| == 9 && s1[0] == 'h' && s1[1] == 'a' && s1[2] == 'l' && s1[3] == 'o' && s1[4] == 'o' && s1[5] == 'o' && s1[6] == 'o' && s1[7] == 'x' && s1[8] == 'o'
    requires |s2| == 9 && s2[0] == 'h' && s2[1] == 'b' && s2[2] == 'l' && s2[3] == 'o' && s2[4] == 'o' && s2[5] == 'o' && s2[6] == 'o' && s2[7] == 'g' && s2[8] == 'o'
    ensures Run(s1, s2, 100, 0, State(8, 8, 6, 0, 0, [Offset(6, 6, false)])) == Finished(State(9, 9, 7, 0, 0, [Offset(8, 8, false)]))
  {
    VisitMatch(s1, s2, 100, State(8, 8, 6, 0, 0, [Offset(6, 6, false)]), ScanResult([], false, 0));
    RunContinues(s1, s2, 100, 0, State(8, 8, 6, 0, 0, [Offset(6, 6, false)]), State(9, 9, 6, 1, 0, [Offset(8, 8, false)]), State(9, 9, 7, 0, 0, [Offset(8, 8, false)]));
    assert Run(s1, s2, 100, 0, State(9, 9, 7, 0, 0, [Offset(8, 8, false)])) == Finished(State(9, 9, 7, 0, 0, [Offset(8, 8, false)]));
  }

  /** Longer words; the value comes from an early exit (sfit4_test.go:47). */
  lemma DistanceDifference(s1: string, s2: string)
    requires s1 == "distance" && s2 == "difference"
    ensures Sift4Distance(s1, s2, 100, 5) == 6
  {
    DistanceDifference1(s1, s2);
    DistanceDifference2(s1, s2);
    DistanceDifference3(s1, s2);
    DistanceDifference4(s1, s2);
    DistanceDifference5(s1, s2);
    DistanceDifference6(s1, s2);
  }

  /** Iteration 1: 'd' matches at (0, 0). */
  lemma DistanceDifference1(s1: string, s2: string)
    requires |s1| == 8 && s1[0] == 'd' && s1[1] == 'i' && s1[2] == 's' && s1[3] == 't' && s1[4] == 'a' && s1[5] == 'n' && s1[6] == 'c' && s1[7] == 'e'
    requires |s2| == 10 && s2[0] == 'd' && s2[1] == 'i' && s2[2] == 'f' && s2[3] == 'f' && s2[4] == 'e' && s2[5] == 'r' && s2[6] == 'e' && s2[7] == 'n' && s2[8] == 'c' && s2[9] == 'e'
    ensures Run(s1, s2, 100, 5, State(0, 0, 0, 0, 0, [])) == Run(s1, s2, 100, 5, State(1, 1, 0, 1, 0, [Offset(0, 0, false)]))
  {
    VisitMatch(s1, s2, 100, State(0, 0, 0, 0, 0, []), ScanResult([], false, 0));
    RunContinues(s1, s2, 100, 5, State(0, 0, 0, 0, 0, []), State(1, 1, 0, 1, 0, [Offset(0, 0, false)]), State(1, 1, 0, 1, 0, [Offset(0, 0, false)]));
  }

  /** Iteration 2: 'i' matches at (1, 1), stale records are dropped. */
  lemma DistanceDifference2(s1: string, s2: string)
    requires |s1| == 8 && s1[0] == 'd' && s1[1] == 'i' && s1[2] == 's' && s1[3] == 't' && s1[4] == 'a' && s1[5] == 'n' && s1[6] == 'c' && s1[7] == 'e'
    requires |s2| == 10 && s2[0] == 'd' && s2[1] == 'i' && s2[2] == 'f' && s2[3] == 'f' && s2[4] == 'e' && s2[5] == 'r' && s2[6] == 'e' && s2[7] == 'n' && s2[8] == 'c' && s2[9] == 'e'
    ensures Run(s1, s2, 100, 5, State(1, 1, 0, 1, 0, [Offset(0, 0, false)])) == Run(s1, s2, 100, 5, State(2, 2, 0, 2, 0, [Offset(1, 1, false)]))
  {
    VisitMatch(s1, s2, 100, State(1, 1, 0, 1, 0, [Offset(0, 0, false)]), ScanResult([], false, 0));
    RunContinues(s1, s2, 100, 5, State(1, 1, 0, 1, 0, [Offset(0, 0, false)]), State(2, 2, 0, 2, 0, [Offset(1, 1, false)]), State(2, 2, 0, 2, 0, [Offset(1, 1, false)]));
  }

  /** Iteration 3: mismatch at (2, 2), the look-ahead from 2 finds nothing. */
  lemma DistanceDifference3(s1: string, s2: string)
    requires |s1| == 8 && s1[0] == 'd' && s1[1] == 'i' && s1[2] == 's' && s1[3] == 't' && s1[4] == 'a' && s1[5] == 'n' && s1[6] == 'c' && s1[7] == 'e'
    requires |s2| == 10 && s2[0] == 'd' && s2[1] == 'i' && s2[2] == 'f' && s2[3] == 'f' && s2[4] == 'e' && s2[5] == 'r' && s2[6] == 'e' && s2[7] == 'n' && s2[8] == 'c' && s2[9] == 'e'
    ensures Run(s1, s2, 100, 5, State(2, 2, 0, 2, 0, [Offset(1, 1, false)])) == Run(s1, s2, 100, 5, State(3, 3, 2, 0, 0, [Offset(1, 1, false)]))
  {
    assert FirstHit(s1, s2, 2, 100, 0) == FirstHit(s1, s2, 2, 100, 1);
    assert FirstHit(s1, s2, 2, 100, 1) == FirstHit(s1, s2, 2, 100, 2);
    assert FirstHit(s1, s2, 2, 100, 2) == FirstHit(s1, s2, 2, 100, 3);
    assert FirstHit(s1, s2, 2, 100, 3) == FirstHit(s1, s2, 2, 100, 4);
    assert FirstHit(s1, s2, 2, 100, 4) == FirstHit(s1, s2, 2, 100, 5);
    assert FirstHit(s1, s2, 2, 100, 5) == FirstHit(s1, s2, 2, 100, 6);
    assert FirstHit(s1, s2, 2, 100, 6) == FirstHit(s1, s2, 2, 100, 7);
    assert FirstHit(s1, s2, 2, 100, 7) == FirstHit(s1, s2, 2, 100, 8);
    assert FirstHit(s1, s2, 2, 100, 8) == NoHit;
    VisitMismatch(s1, s2, 100, State(2, 2, 0, 2, 0, [Offset(1, 1, false)]), 2, 2, 2);
    RunContinues(s1, s2, 100, 5, State(2, 2, 0, 2, 0, [Offset(1, 1, false)]), State(3, 3, 2, 0, 0, [Offset(1, 1, false)]), State(3, 3, 2, 0, 0, [Offset(1, 1, false)]));
  }

  /** Iteration 4: mismatch at (3, 3), the look-ahead from 3 finds nothing. */
  lemma DistanceDifference4(s1: string, s2: string)
    requires |s1| == 8 && s1[0] == 'd' && s1[1] == 'i' && s1[2] == 's' && s1[3] == 't' && s1[4] == 'a' && s1[5] == 'n' && s1[6] == 'c' && s1[7] == 'e'
    requires |s2| == 10 && s2[0] == 'd' && s2[1] == 'i' && s2[2] == 'f' && s2[3] == 'f' && s2[4] == 'e' && s2[5] == 'r' && s2[6] == 'e' && s2[7] == 'n' && s2[8] == 'c' && s2[9] == 'e'
    ensures Run(s1, s2, 100, 5, State(3, 3, 2, 0, 0, [Offset(1, 1, false)])) == Run(s1, s2, 100, 5, State(4, 4, 2, 0, 0, [Offset(1, 1, false)]))
  {
    assert FirstHit(s1, s2, 3, 100, 0) == FirstHit(s1, s2, 3, 100, 1);
    assert FirstHit(s1, s2, 3, 100, 1) == FirstHit(s1, s2, 3, 100, 2);
    assert FirstHit(s1, s2, 3, 100, 2) == FirstHit(s1, s2, 3, 100, 3);
    assert FirstHit(s1, s2, 3, 100, 3) == FirstHit(s1, s2, 3, 100, 4);
    assert FirstHit(s1, s2, 3, 100, 4) == FirstHit(s1, s2, 3, 100, 5);
    assert FirstHit(s1, s2, 3, 100, 5) == FirstHit(s1, s2, 3, 100, 6);
    assert FirstHit(s1, s2, 3, 100, 6) == FirstHit(s1, s2, 3, 100, 7);
    assert FirstHit(s1, s2, 3, 100, 7) == NoHit;
    VisitMismatch(s1, s2, 100, State(3, 3, 2, 0, 0, [Offset(1, 1, false)]), 3, 3, 3);
    RunContinues(s1, s2, 100, 5, State(3, 3, 2, 0, 0, [Offset(1, 1, false)]), State(4, 4, 2, 0, 0, [Offset(1, 1, false)]), State(4, 4, 2, 0, 0, [Offset(1, 1, false)]));
  }

  /** Iteration 5: mismatch at (4, 4), s2[4] is found 3 ahead in s1. */
  lemma DistanceDifference5(s1: string, s2: string)
    requires |s1| == 8 && s1[0] == 'd' && s1[1] == 'i' && s1[2] == 's' && s1[3] == 't' && s1[4] == 'a' && s1[5] == 'n' && s1[6] == 'c' && s1[7] == 'e'
    requires |s2| == 10 && s2[0] == 'd' && s2[1] == 'i' && s2[2] == 'f' && s2[3] == 'f' && s2[4] == 'e' && s2[5] == 'r' && s2[6] == 'e' && s2[7] == 'n' && s2[8] == 'c' && s2[9] == 'e'
    ensures Run(s1, s2, 100, 5, State(4, 4, 2, 0, 0, [Offset(1, 1, false)])) == Run(s1, s2, 100, 5, State(7, 4, 2, 0, 0, [Offset(1, 1, false)]))
  {
    assert FirstHit(s1, s2, 4, 100, 0) == FirstHit(s1, s2, 4, 100, 1);
    assert FirstHit(s1, s2, 4, 100, 1) == FirstHit(s1, s2, 4, 100, 2);
    assert FirstHit(s1, s2, 4, 100, 2) == FirstHit(s1, s2, 4, 100, 3);
    assert FirstHit(s1, s2, 4, 100, 3) == InS1(3);
    VisitMismatch(s1, s2, 100, State(4, 4, 2, 0, 0, [Offset(1, 1, false)]), 4, 6, 3);
    RunContinues(s1, s2, 100, 5, State(4, 4, 2, 0, 0, [Offset(1, 1, false)]), State(7, 4, 2, 0, 0, [Offset(1, 1, false)]), State(7, 4, 2, 0, 0, [Offset(1, 1, false)]));
  }

  /** Iteration 6: 'e' matches at (7, 4), stale records are dropped; the provisional distance 6 is over the threshold. */
  lemma DistanceDifference6(s1: string, s2: string)
    requires |s1| == 8 && s1[0] == 'd' && s1[1] == 'i' && s1[2] == 's' && s1[3] == 't' && s1[4] == 'a' && s1[5] == 'n' && s1[6] == 'c' && s1[7] == 'e'
    requires |s2| == 10 && s2[0] == 'd' && s2[1] == 'i' && s2[2] == 'f' && s2[3] == 'f' && s2[4] == 'e' && s2[5] == 'r' && s2[6] == 'e' && s2[7] == 'n' && s2[8] == 'c' && s2[9] == 'e'
    ensures Run(s1, s2, 100, 5, State(7, 4, 2, 0, 0, [Offset(1, 1, false)])) == EarlyExit(6, State(8, 5, 2, 1, 0, [Offset(7, 4, false)]))
  {
    VisitMatch(s1, s2, 100, State(7, 4, 2, 0, 0, [Offset(1, 1, false)]), ScanResult([], false, 0));
    RunExits(s1, s2, 100, 5, State(7, 4, 2, 0, 0, [Offset(1, 1, false)]), State(8, 5, 2, 1, 0, [Offset(7, 4, false)]));
  }

  /** Early exit at threshold 2 (sfit4_test.go:48). */
  lemma AbcdefXyz(s1: string, s2: string)
    requires s1 == "abcdef" && s2 == "xyz"
    ensures Sift4Distance(s1, s2, 100, 2) == 3
  {
    DisjointDistance(s1, s2, 100, 2);
  }

  /** The same pair without a threshold (sfit4_test.go:48). */
  lemma AbcdefXyzNoThreshold(s1: string, s2: string)
    requires s1 == "abcdef" && s2 == "xyz"
    ensures Sift4Distance(s1, s2, 100, 0) == 6
  {
    DisjointDistance(s1, s2, 100, 0);
  }

  /** Early exit on a long input (sfit4_test.go:49). */
  lemma LongXyz(s1: string, s2: string)
    requires s1 == "abcdefabcdefabcdefabcdefabcdefabcdef" && s2 == "xyz"
    ensures Sift4Distance(s1, s2, 100, 2) == 3
  {
    DisjointDistance(s1, s2, 100, 2);
  }

  /** One adjacent transposition (sfit4_test.go:52). */
  lemma AbcAcb(s1: string, s2: string)
    requires s1 == "abc" && s2 == "acb"
    ensures Sift4Distance(s1, s2, 100, 5) == 1
  {
    AbcAcb1(s1, s2);
    AbcAcb2(s1, s2);
    AbcAcb3(s1, s2);
    AbcAcb4(s1, s2);
  }

  /** Iteration 1: 'a' matches at (0, 0). */
  lemma AbcAcb1(s1: string, s2: string)
    requires |s1| == 3 && s1[0] == 'a' && s1[1] == 'b' && s1[2] == 'c'
    requires |s2| == 3 && s2[0] == 'a' && s2[1] == 'c' && s2[2] == 'b'
    ensures Run(s1, s2, 100, 5, State(0, 0, 0, 0, 0, [])) == Run(s1, s2, 100, 5, State(1, 1, 0, 1, 0, [Offset(0, 0, false)]))
  {
    VisitMatch(s1, s2, 100, State(0, 0, 0, 0, 0, []), ScanResult([], false, 0));
    RunContinues(s1, s2, 100, 5, State(0, 0, 0, 0, 0, []), State(1, 1, 0, 1, 0, [Offset(0, 0, false)]), State(1, 1, 0, 1, 0, [Offset(0, 0, false)]));
  }

  /** Iteration 2: mismatch at (1, 1), s2[1] is found 1 ahead in s1. */
  lemma AbcAcb2(s1: string, s2: string)
    requires |s1| == 3 && s1[0] == 'a' && s1[1] == 'b' && s1[2] == 'c'
    requires |s2| == 3 && s2[0] == 'a' && s2[1] == 'c' && s2[2] == 'b'
    ensures Run(s1, s2, 100, 5, State(1, 1, 0, 1, 0, [Offset(0, 0, false)])) == Run(s1, s2, 100, 5, State(2, 1, 1, 0, 0, [Offset(0, 0, false)]))
  {
    assert FirstHit(s1, s2, 1, 100, 0) == FirstHit(s1, s2, 1, 100, 1);
    assert FirstHit(s1, s2, 1, 100, 1) == InS1(1);
    VisitMismatch(s1, s2, 100, State(1, 1, 0, 1, 0, [Offset(0, 0, false)]), 1, 1, 0);
    RunContinues(s1, s2, 100, 5, State(1, 1, 0, 1, 0, [Offset(0, 0, false)]), State(2, 1, 1, 0, 0, [Offset(0, 0, false)]), State(2, 1, 1, 0, 0, [Offset(0, 0, false)]));
  }

  /** Iteration 3: 'c' matches at (2, 1), stale records are dropped. */
  lemma AbcAcb3(s1: string, s2: string)
    requires |s1| == 3 && s1[0] == 'a' && s1[1] == 'b' && s1[2] == 'c'
    requires |s2| == 3 && s2[0] == 'a' && s2[1] == 'c' && s2[2] == 'b'
    ensures Run(s1, s2, 100, 5, State(2, 1, 1, 0, 0, [Offset(0, 0, false)])) == Run(s1, s2, 100, 5, State(2, 2, 2, 0, 0, [Offset(2, 1, false)]))
  {
    VisitMatch(s1, s2, 100, State(2, 1, 1, 0, 0, [Offset(0, 0, false)]), ScanResult([], false, 0));
    RunContinues(s1, s2, 100, 5, State(2, 1, 1, 0, 0, [Offset(0, 0, false)]), State(3, 2, 1, 1, 0, [Offset(2, 1, false)]), State(2, 2, 2, 0, 0, [Offset(2, 1, false)]));
  }

  /** Iteration 4: mismatch at (2, 2), the look-ahead from 2 finds nothing; a cursor reaches its end. */
  lemma AbcAcb4(s1: string, s2: string)
    requires |s1| == 3 && s1[0] == 'a' && s1[1] == 'b' && s1[2] == 'c'
    requires |s2| == 3 && s2[0] == 'a' && s2[1] == 'c' && s2[2] == 'b'
    ensures Run(s1, s2, 100, 5, State(2, 2, 2, 0, 0, [Offset(2, 1, false)])) == Finished(State(3, 3, 2, 0, 0, [Offset(2, 1, false)]))
  {
    assert FirstHit(s1, s2, 2, 100, 0) == FirstHit(s1, s2, 2, 100, 1);
    assert FirstHit(s1, s2, 2, 100, 1) == NoHit;
    VisitMismatch(s1, s2, 100, State(2, 2, 2, 0, 0, [Offset(2, 1, false)]), 2, 2, 2);
    RunContinues(s1, s2, 100, 5, State(2, 2, 2, 0, 0, [Offset(2, 1, false)]), State(3, 3, 2, 0, 0, [Offset(2, 1, false)]), State(3, 3, 2, 0, 0, [Offset(2, 1, false)]));
    assert Run(s1, s2, 100, 5, State(3, 3, 2, 0, 0, [Offset(2, 1, false)])) == Finished(State(3, 3, 2, 0, 0, [Offset(2, 1, false)]));
  }

  /** A single transposition (sfit4_test.go:53). */
  lemma AbBa(s1: string, s2: string)
    requires s1 == "ab" && s2 == "ba"
    ensures Sift4Distance(s1, s2, 100, 5) == 1
  {
    AbBa1(s1, s2);
    AbBa2(s1, s2);
    AbBa3(s1, s2);
  }

  /** Iteration 1: mismatch at (0, 0), s2[0] is found 1 ahead in s1. */
  lemma AbBa1(s1: string, s2: string)
    requires |s1| == 2 && s1[0] == 'a' && s1[1] == 'b'
    requires |s2| == 2 && s2[0] == 'b' && s2[1] == 'a'
    ensures Run(s1, s2, 100, 5, State(0, 0, 0, 0, 0, [])) == Run(s1, s2, 100, 5, State(1, 0, 0, 0, 0, []))
  {
    assert FirstHit(s1, s2, 0, 100, 0) == FirstHit(s1, s2, 0, 100, 1);
    assert FirstHit(s1, s2, 0, 100, 1) == InS1(1);
    VisitMismatch(s1, s2, 100, State(0, 0, 0, 0, 0, []), 0, 0, -1);
    RunContinues(s1, s2, 100, 5, State(0, 0, 0, 0, 0, []), State(1, 0, 0, 0, 0, []), State(1, 0, 0, 0, 0, []));
  }

  /** Iteration 2: 'b' matches at (1, 0). */
  lemma AbBa2(s1: string, s2: string)
    requires |s1| == 2 && s1[0] == 'a' && s1[1] == 'b'
    requires |s2| == 2 && s2[0] == 'b' && s2[1] == 'a'
    ensures Run(s1, s2, 100, 5, State(1, 0, 0, 0, 0, [])) == Run(s1, s2, 100, 5, State(1, 1, 1, 0, 0, [Offset(1, 0, false)]))
  {
    VisitMatch(s1, s2, 100, State(1, 0, 0, 0, 0, []), ScanResult([], false, 0));
    RunContinues(s1, s2, 100, 5, State(1, 0, 0, 0, 0, []), State(2, 1, 0, 1, 0, [Offset(1, 0, false)]), State(1, 1, 1, 0, 0, [Offset(1, 0, false)]));
  }

  /** Iteration 3: mismatch at (1, 1), the look-ahead from 1 finds nothing; a cursor reaches its end. */
  lemma AbBa3(s1: string, s2: string)
    requires |s1| == 2 && s1[0] == 'a' && s1[1] == 'b'
    requires |s2| == 2 && s2[0] == 'b' && s2[1] == 'a'
    ensures Run(s1, s2, 100, 5, State(1, 1, 1, 0, 0, [Offset(1, 0, false)])) == Finished(State(2, 2, 1, 0, 0, [Offset(1, 0, false)]))
  {
    assert FirstHit(s1, s2, 1, 100, 0) == FirstHit(s1, s2, 1, 100, 1);
    assert FirstHit(s1, s2, 1, 100, 1) == NoHit;
    VisitMismatch(s1, s2, 100, State(1, 1, 1, 0, 0, [Offset(1, 0, false)]), 1, 1, 1);
    RunContinues(s1, s2, 100, 5, State(1, 1, 1, 0, 0, [Offset(1, 0, false)]), State(2, 2, 1, 0, 0, [Offset(1, 0, false)]), State(2, 2, 1, 0, 0, [Offset(1, 0, false)]));
    assert Run(s1, s2, 100, 5, State(2, 2, 1, 0, 0, [Offset(1, 0, false)])) == Finished(State(2, 2, 1, 0, 0, [Offset(1, 0, false)]));
  }

  /** Two transpositions (sfit4_test.go:54). */
  lemma AbcdBadc(s1: string, s2: string)
    requires s1 == "abcd" && s2 == "badc"
    ensures Sift4Distance(s1, s2, 100, 5) == 2
  {
    AbcdBadc1(s1, s2);
    AbcdBadc2(s1, s2);
    AbcdBadc3(s1, s2);
    AbcdBadc4(s1, s2);
    AbcdBadc5(s1, s2);
    AbcdBadc6(s1, s2);
  }

  /** Iteration 1: mismatch at (0, 0), s2[0] is found 1 ahead in s1. */
  lemma AbcdBadc1(s1: string, s2: string)
    requires |s1| == 4 && s1[0] == 'a' && s1[1] == 'b' && s1[2] == 'c' && s1[3] == 'd'
    requires |s2| == 4 && s2[0] == 'b' && s2[1] == 'a' && s2[2] == 'd' && s2[3] == 'c'
    ensures Run(s1, s2, 100, 5, State(0, 0, 0, 0, 0, [])) == Run(s1, s2, 100, 5, State(1, 0, 0, 0, 0, []))
  {
    assert FirstHit(s1, s2, 0, 100, 0) == FirstHit(s1, s2, 0, 100, 1);
    assert FirstHit(s1, s2, 0, 100, 1) == InS1(1);
    VisitMismatch(s1, s2, 100, State(0, 0, 0, 0, 0, []), 0, 0, -1);
    RunContinues(s1, s2, 100, 5, State(0, 0, 0, 0, 0, []), State(1, 0, 0, 0, 0, []), State(1, 0, 0, 0, 0, []));
  }

  /** Iteration 2: 'b' matches at (1, 0). */
  lemma AbcdBadc2(s1: string, s2: string)
    requires |s1| == 4 && s1[0] == 'a' && s1[1] == 'b' && s1[2] == 'c' && s1[3] == 'd'
    requires |s2| == 4 && s2[0] == 'b' && s2[1] == 'a' && s2[2] == 'd' && s2[3] == 'c'
    ensures Run(s1, s2, 100, 5, State(1, 0, 0, 0, 0, [])) == Run(s1, s2, 100, 5, State(2, 1, 0, 1, 0, [Offset(1, 0, false)]))
  {
    VisitMatch(s1, s2, 100, State(1, 0, 0, 0, 0, []), ScanResult([], false, 0));
    RunContinues(s1, s2, 100, 5, State(1, 0, 0, 0, 0, []), State(2, 1, 0, 1, 0, [Offset(1, 0, false)]), State(2, 1, 0, 1, 0, [Offset(1, 0, false)]));
  }

  /** Iteration 3: mismatch at (2, 1), the look-ahead from 1 finds nothing. */
  lemma AbcdBadc3(s1: string, s2: string)
    requires |s1| == 4 && s1[0] == 'a' && s1[1] == 'b' && s1[2] == 'c' && s1[3] == 'd'
    requires |s2| == 4 && s2[0] == 'b' && s2[1] == 'a' && s2[2] == 'd' && s2[3] == 'c'
    ensures Run(s1, s2, 100, 5, State(2, 1, 0, 1, 0, [Offset(1, 0, false)])) == Run(s1, s2, 100, 5, State(2, 2, 1, 0, 0, [Offset(1, 0, false)]))
  {
    assert FirstHit(s1, s2, 1, 100, 0) == FirstHit(s1, s2, 1, 100, 1);
    assert FirstHit(s1, s2, 1, 100, 1) == FirstHit(s1, s2, 1, 100, 2);
    assert FirstHit(s1, s2, 1, 100, 2) == FirstHit(s1, s2, 1, 100, 3);
    assert FirstHit(s1, s2, 1, 100, 3) == NoHit;
    VisitMismatch(s1, s2, 100, State(2, 1, 0, 1, 0, [Offset(1, 0, false)]), 1, 1, 1);
    RunContinues(s1, s2, 100, 5, State(2, 1, 0, 1, 0, [Offset(1, 0, false)]), State(2, 2, 1, 0, 0, [Offset(1, 0, false)]), State(2, 2, 1, 0, 0, [Offset(1, 0, false)]));
  }

  /** Iteration 4: mismatch at (2, 2), s2[2] is found 1 ahead in s1. */
  lemma AbcdBadc4(s1: string, s2: string)
    requires |s1| == 4 && s1[0] == 'a' && s1[1] == 'b' && s1[2] == 'c' && s1[3] == 'd'
    requires |s2| == 4 && s2[0] == 'b' && s2[1] == 'a' && s2[2] == 'd' && s2[3] == 'c'
    ensures Run(s1, s2, 100, 5, State(2, 2, 1, 0, 0, [Offset(1, 0, false)])) == Run(s1, s2, 100, 5, State(3, 2, 1, 0, 0, [Offset(1, 0, false)]))
  {
    assert FirstHit(s1, s2, 2, 100, 0) == FirstHit(s1, s2, 2, 100, 1);
    assert FirstHit(s1, s2, 2, 100, 1) == InS1(1);
    VisitMismatch(s1, s2, 100, State(2, 2, 1, 0, 0, [Offset(1, 0, false)]), 2, 2, 1);
    RunContinues(s1, s2, 100, 5, State(2, 2, 1, 0, 0, [Offset(1, 0, false)]), State(3, 2, 1, 0, 0, [Offset(1, 0, false)]), State(3, 2, 1, 0, 0, [Offset(1, 0, false)]));
  }

  /** Iteration 5: 'd' matches at (3, 2), stale records are dropped. */
  lemma AbcdBadc5(s1: string, s2: string)
    requires |s1| == 4 && s1[0] == 'a' && s1[1] == 'b' && s1[2] == 'c' && s1[3] == 'd'
    requires |s2| == 4 && s2[0] == 'b' && s2[1] == 'a' && s2[2] == 'd' && s2[3] == 'c'
    ensures Run(s1, s2, 100, 5, State(3, 2, 1, 0, 0, [Offset(1, 0, false)])) == Run(s1, s2, 100, 5, State(3, 3, 2, 0, 0, [Offset(3, 2, false)]))
  {
    VisitMatch(s1, s2, 100, State(3, 2, 1, 0, 0, [Offset(1, 0, false)]), ScanResult([], false, 0));
    RunContinues(s1, s2, 100, 5, State(3, 2, 1, 0, 0, [Offset(1, 0, false)]), State(4, 3, 1, 1, 0, [Offset(3, 2, false)]), State(3, 3, 2, 0, 0, [Offset(3, 2, false)]));
  }

  /** Iteration 6: mismatch at (3, 3), the look-ahead from 3 finds nothing; a cursor reaches its end. */
  lemma AbcdBadc6(s1: string, s2: string)
    requires |s1| == 4 && s1[0] == 'a' && s1[1] == 'b' && s1[2] == 'c' && s1[3] == 'd'
    requires |s2| == 4 && s2[0] == 'b' && s2[1] == 'a' && s2[2] == 'd' && s2[3] == 'c'
    ensures Run(s1, s2, 100, 5, State(3, 3, 2, 0, 0, [Offset(3, 2, false)])) == Finished(State(4, 4, 2, 0, 0, [Offset(3, 2, false)]))
  {
    assert FirstHit(s1, s2, 3, 100, 0) == FirstHit(s1, s2, 3, 100, 1);
    assert FirstHit(s1, s2, 3, 100, 1) == NoHit;
    VisitMismatch(s1, s2, 100, State(3, 3, 2, 0, 0, [Offset(3, 2, false)]), 3, 3, 3);
    RunContinues(s1, s2, 100, 5, State(3, 3, 2, 0, 0, [Offset(3, 2, false)]), State(4, 4, 2, 0, 0, [Offset(3, 2, false)]), State(4, 4, 2, 0, 0, [Offset(3, 2, false)]));
    assert Run(s1, s2, 100, 5, State(4, 4, 2, 0, 0, [Offset(3, 2, false)])) == Finished(State(4, 4, 2, 0, 0, [Offset(3, 2, false)]));
  }

  /** A look-ahead hit on the side of s2 (sfit4_test.go:56). */
  lemma AabBaa(s1: string, s2: string)
    requires s1 == "aab" && s2 == "baa"
    ensures Sift4Distance(s1, s2, 100, 5) == 1
  {
    AabBaa1(s1, s2);
    AabBaa2(s1, s2);
    AabBaa3(s1, s2);
    AabBaa4(s1, s2);
  }

  /** Iteration 1: mismatch at (0, 0), s1[0] is found 1 ahead in s2. */
  lemma AabBaa1(s1: string, s2: string)
    requires |s1| == 3 && s1[0] == 'a' && s1[1] == 'a' && s1[2] == 'b'
    requires |s2| == 3 && s2[0] == 'b' && s2[1] == 'a' && s2[2] == 'a'
    ensures Run(s1, s2, 100, 5, State(0, 0, 0, 0, 0, [])) == Run(s1, s2, 100, 5, State(0, 1, 0, 0, 0, []))
  {
    assert FirstHit(s1, s2, 0, 100, 0) == FirstHit(s1, s2, 0, 100, 1);
    assert FirstHit(s1, s2, 0, 100, 1) == InS2(1);
    VisitMismatch(s1, s2, 100, State(0, 0, 0, 0, 0, []), 0, -1, 0);
    RunContinues(s1, s2, 100, 5, State(0, 0, 0, 0, 0, []), State(0, 1, 0, 0, 0, []), State(0, 1, 0, 0, 0, []));
  }

  /** Iteration 2: 'a' matches at (0, 1). */
  lemma AabBaa2(s1: string, s2: string)
    requires |s1| == 3 && s1[0] == 'a' && s1[1] == 'a' && s1[2] == 'b'
    requires |s2| == 3 && s2[0] == 'b' && s2[1] == 'a' && s2[2] == 'a'
    ensures Run(s1, s2, 100, 5, State(0, 1, 0, 0, 0, [])) == Run(s1, s2, 100, 5, State(1, 2, 0, 1, 0, [Offset(0, 1, false)]))
  {
    VisitMatch(s1, s2, 100, State(0, 1, 0, 0, 0, []), ScanResult([], false, 0));
    RunContinues(s1, s2, 100, 5, State(0, 1, 0, 0, 0, []), State(1, 2, 0, 1, 0, [Offset(0, 1, false)]), State(1, 2, 0, 1, 0, [Offset(0, 1, false)]));
  }

  /** Iteration 3: 'a' matches at (1, 2). */
  lemma AabBaa3(s1: string, s2: string)
    requires |s1| == 3 && s1[0] == 'a' && s1[1] == 'a' && s1[2] == 'b'
    requires |s2| == 3 && s2[0] == 'b' && s2[1] == 'a' && s2[2] == 'a'
    ensures Run(s1, s2, 100, 5, State(1, 2, 0, 1, 0, [Offset(0, 1, false)])) == Run(s1, s2, 100, 5, State(2, 2, 2, 0, 0, [Offset(0, 1, false), Offset(1, 2, false)]))
  {
    VisitMatch(s1, s2, 100, State(1, 2, 0, 1, 0, [Offset(0, 1, false)]), ScanResult([Offset(0, 1, false)], false, 0));
    RunContinues(s1, s2, 100, 5, State(1, 2, 0, 1, 0, [Offset(0, 1, false)]), State(2, 3, 0, 2, 0, [Offset(0, 1, false), Offset(1, 2, false)]), State(2, 2, 2, 0, 0, [Offset(0, 1, false), Offset(1, 2, false)]));
  }

  /** Iteration 4: mismatch at (2, 2), the look-ahead from 2 finds nothing; a cursor reaches its end. */
  lemma AabBaa4(s1: string, s2: string)
    requires |s1| == 3 && s1[0] == 'a' && s1[1] == 'a' && s1[2] == 'b'
    requires |s2| == 3 && s2[0] == 'b' && s2[1] == 'a' && s2[2] == 'a'
    ensures Run(s1, s2, 100, 5, State(2, 2, 2, 0, 0, [Offset(0, 1, false), Offset(1, 2, false)])) == Finished(State(3, 3, 2, 0, 0, [Offset(0, 1, false), Offset(1, 2, false)]))
  {
    assert FirstHit(s1, s2, 2, 100, 0) == FirstHit(s1, s2, 2, 100, 1);
    assert FirstHit(s1, s2, 2, 100, 1) == NoHit;
    VisitMismatch(s1, s2, 100, State(2, 2, 2, 0, 0, [Offset(0, 1, false), Offset(1, 2, false)]), 2, 2, 2);
    RunContinues(s1, s2, 100, 5, State(2, 2, 2, 0, 0, [Offset(0, 1, false), Offset(1, 2, false)]), State(3, 3, 2, 0, 0, [Offset(0, 1, false), Offset(1, 2, false)]), State(3, 3, 2, 0, 0, [Offset(0, 1, false), Offset(1, 2, false)]));
    assert Run(s1, s2, 100, 5, State(3, 3, 2, 0, 0, [Offset(0, 1, false), Offset(1, 2, false)])) == Finished(State(3, 3, 2, 0, 0, [Offset(0, 1, false), Offset(1, 2, false)]));
  }

  /** A cyclic shift (sfit4_test.go:57). */
  lemma AbcdCdab(s1: string, s2: string)
    requires s1 == "abcd" && s2 == "cdab"
    ensures Sift4Distance(s1, s2, 100, 5) == 2
  {
    AbcdCdab1(s1, s2);
    AbcdCdab2(s1, s2);
    AbcdCdab3(s1, s2);
    AbcdCdab4(s1, s2);
    AbcdCdab5(s1, s2);
  }

  /** Iteration 1: mismatch at (0, 0), s2[0] is found 2 ahead in s1. */
  lemma AbcdCdab1(s1: string, s2: string)
    requires |s1| == 4 && s1[0] == 'a' && s1[1] == 'b' && s1[2] == 'c' && s1[3] == 'd'
    requires |s2| == 4 && s2[0] == 'c' && s2[1] == 'd' && s2[2] == 'a' && s2[3] == 'b'
    ensures Run(s1, s2, 100, 5, State(0, 0, 0, 0, 0, [])) == Run(s1, s2, 100, 5, State(2, 0, 0, 0, 0, []))
  {
    assert FirstHit(s1, s2, 0, 100, 0) == FirstHit(s1, s2, 0, 100, 1);
    assert FirstHit(s1, s2, 0, 100, 1) == FirstHit(s1, s2, 0, 100, 2);
    assert FirstHit(s1, s2, 0, 100, 2) == InS1(2);
    VisitMismatch(s1, s2, 100, State(0, 0, 0, 0, 0, []), 0, 1, -1);
    RunContinues(s1, s2, 100, 5, State(0, 0, 0, 0, 0, []), State(2, 0, 0, 0, 0, []), State(2, 0, 0, 0, 0, []));
  }

  /** Iteration 2: 'c' matches at (2, 0). */
  lemma AbcdCdab2(s1: string, s2: string)
    requires |s1| == 4 && s1[0] == 'a' && s1[1] == 'b' && s1[2] == 'c' && s1[3] == 'd'
    requires |s2| == 4 && s2[0] == 'c' && s2[1] == 'd' && s2[2] == 'a' && s2[3] == 'b'
    ensures Run(s1, s2, 100, 5, State(2, 0, 0, 0, 0, [])) == Run(s1, s2, 100, 5, State(3, 1, 0, 1, 0, [Offset(2, 0, false)]))
  {
    VisitMatch(s1, s2, 100, State(2, 0, 0, 0, 0, []), ScanResult([], false, 0));
    RunContinues(s1, s2, 100, 5, State(2, 0, 0, 0, 0, []), State(3, 1, 0, 1, 0, [Offset(2, 0, false)]), State(3, 1, 0, 1, 0, [Offset(2, 0, false)]));
  }

  /** Iteration 3: 'd' matches at (3, 1). */
  lemma AbcdCdab3(s1: string, s2: string)
    requires |s1| == 4 && s1[0] == 'a' && s1[1] == 'b' && s1[2] == 'c' && s1[3] == 'd'
    requires |s2| == 4 && s2[0] == 'c' && s2[1] == 'd' && s2[2] == 'a' && s2[3] == 'b'
    ensures Run(s1, s2, 100, 5, State(3, 1, 0, 1, 0, [Offset(2, 0, false)])) == Run(s1, s2, 100, 5, State(2, 2, 2, 0, 0, [Offset(2, 0, false), Offset(3, 1, false)]))
  {
    VisitMatch(s1, s2, 100, State(3, 1, 0, 1, 0, [Offset(2, 0, false)]), ScanResult([Offset(2, 0, false)], false, 0));
    RunContinues(s1, s2, 100, 5, State(3, 1, 0, 1, 0, [Offset(2, 0, false)]), State(4, 2, 0, 2, 0, [Offset(2, 0, false), Offset(3, 1, false)]), State(2, 2, 2, 0, 0, [Offset(2, 0, false), Offset(3, 1, false)]));
  }

  /** Iteration 4: mismatch at (2, 2), the look-ahead from 2 finds nothing. */
  lemma AbcdCdab4(s1: string, s2: string)
    requires |s1| == 4 && s1[0] == 'a' && s1[1] == 'b' && s1[2] == 'c' && s1[3] == 'd'
    requires |s2| == 4 && s2[0] == 'c' && s2[1] == 'd' && s2[2] == 'a' && s2[3] == 'b'
    ensures Run(s1, s2, 100, 5, State(2, 2, 2, 0, 0, [Offset(2, 0, false), Offset(3, 1, false)])) == Run(s1, s2, 100, 5, State(3, 3, 2, 0, 0, [Offset(2, 0, false), Offset(3, 1, false)]))
  {
    assert FirstHit(s1, s2, 2, 100, 0) == FirstHit(s1, s2, 2, 100, 1);
    assert FirstHit(s1, s2, 2, 100, 1) == FirstHit(s1, s2, 2, 100, 2);
    assert FirstHit(s1, s2, 2, 100, 2) == NoHit;
    VisitMismatch(s1, s2, 100, State(2, 2, 2, 0, 0, [Offset(2, 0, false), Offset(3, 1, false)]), 2, 2, 2);
    RunContinues(s1, s2, 100, 5, State(2, 2, 2, 0, 0, [Offset(2, 0, false), Offset(3, 1, false)]), State(3, 3, 2, 0, 0, [Offset(2, 0, false), Offset(3, 1, false)]), State(3, 3, 2, 0, 0, [Offset(2, 0, false), Offset(3, 1, false)]));
  }

  /** Iteration 5: mismatch at (3, 3), the look-ahead from 3 finds nothing; a cursor reaches its end. */
  lemma AbcdCdab5(s1: string, s2: string)
    requires |s1| == 4 && s1[0] == 'a' && s1[1] == 'b' && s1[2] == 'c' && s1[3] == 'd'
    requires |s2| == 4 && s2[0] == 'c' && s2[1] == 'd' && s2[2] == 'a' && s2[3] == 'b'
    ensures Run(s1, s2, 100, 5, State(3, 3, 2, 0, 0, [Offset(2, 0, false), Offset(3, 1, false)])) == Finished(State(4, 4, 2, 0, 0, [Offset(2, 0, false), Offset(3, 1, false)]))
  {
    assert FirstHit(s1, s2, 3, 100, 0) == FirstHit(s1, s2, 3, 100, 1);
    assert FirstHit(s1, s2, 3, 100, 1) == NoHit;
    VisitMismatch(s1, s2, 100, State(3, 3, 2, 0, 0, [Offset(2, 0, false), Offset(3, 1, false)]), 3, 3, 3);
    RunContinues(s1, s2, 100, 5, State(3, 3, 2, 0, 0, [Offset(2, 0, false), Offset(3, 1, false)]), State(4, 4, 2, 0, 0, [Offset(2, 0, false), Offset(3, 1, false)]), State(4, 4, 2, 0, 0, [Offset(2, 0, false), Offset(3, 1, false)]));
    assert Run(s1, s2, 100, 5, State(4, 4, 2, 0, 0, [Offset(2, 0, false), Offset(3, 1, false)])) == Finished(State(4, 4, 2, 0, 0, [Offset(2, 0, false), Offset(3, 1, false)]));
  }

  /** A substitution at the front (sfit4_test.go:58). */
  lemma ZeroOneOneOne(s1: string, s2: string)
    requires s1 == "01" && s2 == "11"
    ensures Sift4Distance(s1, s2, 100, 5) == 1
  {
    ZeroOneOneOne1(s1, s2);
    ZeroOneOneOne2(s1, s2);
    ZeroOneOneOne3(s1, s2);
  }

  /** Iteration 1: mismatch at (0, 0), s2[0] is found 1 ahead in s1. */
  lemma ZeroOneOneOne1(s1: string, s2: string)
    requires |s1| == 2 && s1[0] == '0' && s1[1] == '1'
    requires |s2| == 2 && s2[0] == '1' && s2[1] == '1'
    ensures Run(s1, s2, 100, 5, State(0, 0, 0, 0, 0, [])) == Run(s1, s2, 100, 5, State(1, 0, 0, 0, 0, []))
  {
    assert FirstHit(s1, s2, 0, 100, 0) == FirstHit(s1, s2, 0, 100, 1);
    assert FirstHit(s1, s2, 0, 100, 1) == InS1(1);
    VisitMismatch(s1, s2, 100, State(0, 0, 0, 0, 0, []), 0, 0, -1);
    RunContinues(s1, s2, 100, 5, State(0, 0, 0, 0, 0, []), State(1, 0, 0, 0, 0, []), State(1, 0, 0, 0, 0, []));
  }

  /** Iteration 2: '1' matches at (1, 0). */
  lemma ZeroOneOneOne2(s1: string, s2: string)
    requires |s1| == 2 && s1[0] == '0' && s1[1] == '1'
    requires |s2| == 2 && s2[0] == '1' && s2[1] == '1'
    ensures Run(s1, s2, 100, 5, State(1, 0, 0, 0, 0, [])) == Run(s1, s2, 100, 5, State(1, 1, 1, 0, 0, [Offset(1, 0, false)]))
  {
    VisitMatch(s1, s2, 100, State(1, 0, 0, 0, 0, []), ScanResult([], false, 0));
    RunContinues(s1, s2, 100, 5, State(1, 0, 0, 0, 0, []), State(2, 1, 0, 1, 0, [Offset(1, 0, false)]), State(1, 1, 1, 0, 0, [Offset(1, 0, false)]));
  }

  /** Iteration 3: '1' matches at (1, 1), and trans grows; a cursor reaches its end. */
  lemma ZeroOneOneOne3(s1: string, s2: string)
    requires |s1| == 2 && s1[0] == '0' && s1[1] == '1'
    requires |s2| == 2 && s2[0] == '1' && s2[1] == '1'
    ensures Run(s1, s2, 100, 5, State(1, 1, 1, 0, 0, [Offset(1, 0, false)])) == Finished(State(2, 2, 2, 0, 1, [Offset(1, 0, false), Offset(1, 1, false)]))
  {
    VisitMatch(s1, s2, 100, State(1, 1, 1, 0, 0, [Offset(1, 0, false)]), ScanResult([Offset(1, 0, false)], false, 1));
    RunContinues(s1, s2, 100, 5, State(1, 1, 1, 0, 0, [Offset(1, 0, false)]), State(2, 2, 1, 1, 1, [Offset(1, 0, false), Offset(1, 1, false)]), State(2, 2, 2, 0, 1, [Offset(1, 0, false), Offset(1, 1, false)]));
    assert Run(s1, s2, 100, 5, State(2, 2, 2, 0, 1, [Offset(1, 0, false), Offset(1, 1, false)])) == Finished(State(2, 2, 2, 0, 1, [Offset(1, 0, false), Offset(1, 1, false)]));
  }

  /** An insertion in a run of equal symbols (sfit4_test.go:59). */
  lemma Zeros(s1: string, s2: string)
    requires s1 == "00010" && s2 == "000010"
    ensures Sift4Distance(s1, s2, 100, 5) == 2
  {
    Zeros1(s1, s2);
    Zeros2(s1, s2);
    Zeros3(s1, s2);
    Zeros4(s1, s2);
    Zeros5(s1, s2);
    Zeros6(s1, s2);
    Zeros7(s1, s2);
  }

  /** Iteration 1: '0' matches at (0, 0). */
  lemma Zeros1(s1: string, s2: string)
    requires |s1| == 5 && s1[0] == '0' && s1[1] == '0' && s1[2] == '0' && s1[3] == '1' && s1[4] == '0'
    requires |s2| == 6 && s2[0] == '0' && s2[1] == '0' && s2[2] == '0' && s2[3] == '0' && s2[4] == '1' && s2[5] == '0'
    ensures Run(s1, s2, 100, 5, State(0, 0, 0, 0, 0, [])) == Run(s1, s2, 100, 5, State(1, 1, 0, 1, 0, [Offset(0, 0, false)]))
  {
    VisitMatch(s1, s2, 100, State(0, 0, 0, 0, 0, []), ScanResult([], false, 0));
    RunContinues(s1, s2, 100, 5, State(0, 0, 0, 0, 0, []), State(1, 1, 0, 1, 0, [Offset(0, 0, false)]), State(1, 1, 0, 1, 0, [Offset(0, 0, false)]));
  }

  /** Iteration 2: '0' matches at (1, 1), stale records are dropped. */
  lemma Zeros2(s1: string, s2: string)
    requires |s1| == 5 && s1[0] == '0' && s1[1] == '0' && s1[2] == '0' && s1[3] == '1' && s1[4] == '0'
    requires |s2| == 6 && s2[0] == '0' && s2[1] == '0' && s2[2] == '0' && s2[3] == '0' && s2[4] == '1' && s2[5] == '0'
    ensures Run(s1, s2, 100, 5, State(1, 1, 0, 1, 0, [Offset(0, 0, false)])) == Run(s1, s2, 100, 5, State(2, 2, 0, 2, 0, [Offset(1, 1, false)]))
  {
    VisitMatch(s1, s2, 100, State(1, 1, 0, 1, 0, [Offset(0, 0, false)]), ScanResult([], false, 0));
    RunContinues(s1, s2, 100, 5, State(1, 1, 0, 1, 0, [Offset(0, 0, false)]), State(2, 2, 0, 2, 0, [Offset(1, 1, false)]), State(2, 2, 0, 2, 0, [Offset(1, 1, false)]));
  }

  /** Iteration 3: '0' matches at (2, 2), stale records are dropped. */
  lemma Zeros3(s1: string, s2: string)
    requires |s1| == 5 && s1[0] == '0' && s1[1] == '0' && s1[2] == '0' && s1[3] == '1' && s1[4] == '0'
    requires |s2| == 6 && s2[0] == '0' && s2[1] == '0' && s2[2] == '0' && s2[3] == '0' && s2[4] == '1' && s2[5] == '0'
    ensures Run(s1, s2, 100, 5, State(2, 2, 0, 2, 0, [Offset(1, 1, false)])) == Run(s1, s2, 100, 5, State(3, 3, 0, 3, 0, [Offset(2, 2, false)]))
  {
    VisitMatch(s1, s2, 100, State(2, 2, 0, 2, 0, [Offset(1, 1, false)]), ScanResult([], false, 0));
    RunContinues(s1, s2, 100, 5, State(2, 2, 0, 2, 0, [Offset(1, 1, false)]), State(3, 3, 0, 3, 0, [Offset(2, 2, false)]), State(3, 3, 0, 3, 0, [Offset(2, 2, false)]));
  }

  /** Iteration 4: mismatch at (3, 3), s2[3] is found 1 ahead in s1. */
  lemma Zeros4(s1: string, s2: string)
    requires |s1| == 5 && s1[0] == '0' && s1[1] == '0' && s1[2] == '0' && s1[3] == '1' && s1[4] == '0'
    requires |s2| == 6 && s2[0] == '0' && s2[1] == '0' && s2[2] == '0' && s2[3] == '0' && s2[4] == '1' && s2[5] == '0'
    ensures Run(s1, s2, 100, 5, State(3, 3, 0, 3, 0, [Offset(2, 2, false)])) == Run(s1, s2, 100, 5, State(4, 3, 3, 0, 0, [Offset(2, 2, false)]))
  {
    assert FirstHit(s1, s2, 3, 100, 0) == FirstHit(s1, s2, 3, 100, 1);
    assert FirstHit(s1, s2, 3, 100, 1) == InS1(1);
    VisitMismatch(s1, s2, 100, State(3, 3, 0, 3, 0, [Offset(2, 2, false)]), 3, 3, 2);
    RunContinues(s1, s2, 100, 5, State(3, 3, 0, 3, 0, [Offset(2, 2, false)]), State(4, 3, 3, 0, 0, [Offset(2, 2, false)]), State(4, 3, 3, 0, 0, [Offset(2, 2, false)]));
  }

  /** Iteration 5: '0' matches at (4, 3), stale records are dropped. */
  lemma Zeros5(s1: string, s2: string)
    requires |s1| == 5 && s1[0] == '0' && s1[1] == '0' && s1[2] == '0' && s1[3] == '1' && s1[4] == '0'
    requires |s2| == 6 && s2[0] == '0' && s2[1] == '0' && s2[2] == '0' && s2[3] == '0' && s2[4] == '1' && s2[5] == '0'
    ensures Run(s1, s2, 100, 5, State(4, 3, 3, 0, 0, [Offset(2, 2, false)])) == Run(s1, s2, 100, 5, State(4, 4, 4, 0, 0, [Offset(4, 3, false)]))
  {
    VisitMatch(s1, s2, 100, State(4, 3, 3, 0, 0, [Offset(2, 2, false)]), ScanResult([], false, 0));
    RunContinues(s1, s2, 100, 5, State(4, 3, 3, 0, 0, [Offset(2, 2, false)]), State(5, 4, 3, 1, 0, [Offset(4, 3, false)]), State(4, 4, 4, 0, 0, [Offset(4, 3, false)]));
  }

  /** Iteration 6: mismatch at (4, 4), s1[4] is found 1 ahead in s2. */
  lemma Zeros6(s1: string, s2: string)
    requires |s1| == 5 && s1[0] == '0' && s1[1] == '0' && s1[2] == '0' && s1[3] == '1' && s1[4] == '0'
    requires |s2| == 6 && s2[0] == '0' && s2[1] == '0' && s2[2] == '0' && s2[3] == '0' && s2[4] == '1' && s2[5] == '0'
    ensures Run(s1, s2, 100, 5, State(4, 4, 4, 0, 0, [Offset(4, 3, false)])) == Run(s1, s2, 100, 5, State(4, 5, 4, 0, 0, [Offset(4, 3, false)]))
  {
    assert FirstHit(s1, s2, 4, 100, 0) == FirstHit(s1, s2, 4, 100, 1);
    assert FirstHit(s1, s2, 4, 100, 1) == InS2(1);
    VisitMismatch(s1, s2, 100, State(4, 4, 4, 0, 0, [Offset(4, 3, false)]), 4, 3, 4);
    RunContinues(s1, s2, 100, 5, State(4, 4, 4, 0, 0, [Offset(4, 3, false)]), State(4, 5, 4, 0, 0, [Offset(4, 3, false)]), State(4, 5, 4, 0, 0, [Offset(4, 3, false)]));
  }

  /** Iteration 7: '0' matches at (4, 5), and trans grows (a transposition); a cursor reaches its end. */
  lemma Zeros7(s1: string, s2: string)
    requires |s1| == 5 && s1[0] == '0' && s1[1] == '0' && s1[2] == '0' && s1[3] == '1' && s1[4] == '0'
    requires |s2| == 6 && s2[0] == '0' && s2[1] == '0' && s2[2] == '0' && s2[3] == '0' && s2[4] == '1' && s2[5] == '0'
    ensures Run(s1, s2, 100, 5, State(4, 5, 4, 0, 0, [Offset(4, 3, false)])) == Finished(State(5, 5, 5, 0, 1, [Offset(4, 3, false), Offset(4, 5, true)]))
  {
    VisitMatch(s1, s2, 100, State(4, 5, 4, 0, 0, [Offset(4, 3, false)]), ScanResult([Offset(4, 3, false)], true, 1));
    RunContinues(s1, s2, 100, 5, State(4, 5, 4, 0, 0, [Offset(4, 3, false)]), State(5, 6, 4, 1, 1, [Offset(4, 3, false), Offset(4, 5, true)]), State(5, 5, 5, 0, 1, [Offset(4, 3, false), Offset(4, 5, true)]));
    assert Run(s1, s2, 100, 5, State(5, 5, 5, 0, 1, [Offset(4, 3, false), Offset(4, 5, true)])) == Finished(State(5, 5, 5, 0, 1, [Offset(4, 3, false), Offset(4, 5, true)]));
  }
}
