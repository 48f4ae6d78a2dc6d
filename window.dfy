/**
 * The offset window of SIFT4: the ordered list of recent match positions that
 * the scan remembers in order to detect transpositions (sift4.go, `offset`
 * and the inner loop of the match branch of `Distance`).
 */
module Window {

  /** One remembered match: the two cursors at match time, and whether the
      match was itself counted as a transposition when it was recorded. */
  datatype Offset = Offset(c1: int, c2: int, trans: bool)

  /** Absolute value (the generic `abs` helper). */
  function Abs(x: int): (r: int)
    ensures r >= 0 && (r == x || r == -x)
  {
    if x < 0 then -x else x
  }

  /** The record is not strictly behind the current match in both dimensions:
      the scan stops at the first such record. */
  predicate Qualifies(o: Offset, c1: int, c2: int)
  {
    c1 <= o.c1 || c2 <= o.c2
  }

  /** The record has been passed by both cursors and is dropped. The test is
      crosswise on purpose: cursor 1 against the stored cursor 2 and cursor 2
      against the stored cursor 1. */
  predicate Stale(o: Offset, c1: int, c2: int)
  {
    c1 > o.c2 && c2 > o.c1
  }

  /** Whether a match at (c1, c2) is a transposition with respect to the
      record `o`: its cursor gap is at least the record's gap. */
  predicate IsTransposition(o: Offset, c1: int, c2: int)
  {
    Abs(c2 - c1) >= Abs(o.c2 - o.c1)
  }

  /** The outcome of scanning the window for one match: what remains of the
      window, the flag the new record gets, and how much `trans` grows. */
  datatype ScanResult = ScanResult(kept: seq<Offset>, isTrans: bool, bump: int)

  function Keep(prefix: seq<Offset>, r: ScanResult): ScanResult
  {
    r.(kept := prefix + r.kept)
  }

  /** The scan of the window for a match at (c1, c2), record by record, as the
      loop walks it: stop at the first qualifying record, drop the stale
      records met before it, keep the others. The write to the flag of the
      qualifying record is made on a copy, so no stored record ever changes. */
  function Scan(w: seq<Offset>, c1: int, c2: int): ScanResult
  {
    if w == [] then ScanResult([], false, 0)
    else if Qualifies(w[0], c1, c2) then
      var t := IsTransposition(w[0], c1, c2);
      ScanResult(w, t, if t || !w[0].trans then 1 else 0)
    else if Stale(w[0], c1, c2) then Scan(w[1..], c1, c2)
    else Keep([w[0]], Scan(w[1..], c1, c2))
  }

  lemma KeepSplit(w: seq<Offset>, i: nat, r: ScanResult)
    requires i <= |w| && r.kept == w[i..]
    ensures Keep(w[..i], r) == r.(kept := w)
  {
    assert w[..i] + w[i..] == w;
  }

  lemma KeepStep(w: seq<Offset>, i: nat, r: ScanResult)
    requires i < |w|
    ensures Keep(w[..i], Keep([w[i]], r)) == Keep(w[..i + 1], r)
  {
    assert w[..i] + [w[i]] == w[..i + 1];
  }

  /** Scan unrolled once at position `i` of the window. */
  lemma ScanAt(w: seq<Offset>, i: nat, c1: int, c2: int)
    requires i < |w|
    ensures Qualifies(w[i], c1, c2) ==>
              var t := IsTransposition(w[i], c1, c2);
              Scan(w[i..], c1, c2) == ScanResult(w[i..], t, if t || !w[i].trans then 1 else 0)
    ensures !Qualifies(w[i], c1, c2) && Stale(w[i], c1, c2) ==>
              Scan(w[i..], c1, c2) == Scan(w[i + 1..], c1, c2)
    ensures !Qualifies(w[i], c1, c2) && !Stale(w[i], c1, c2) ==>
              Scan(w[i..], c1, c2) == Keep([w[i]], Scan(w[i + 1..], c1, c2))
  {
    assert w[i..][1..] == w[i + 1..];
  }

  /** Index of the first qualifying record, or |w| when there is none. */
  function FirstQualifying(w: seq<Offset>, c1: int, c2: int): (k: nat)
    ensures k <= |w|
    ensures forall j :: 0 <= j < k ==> !Qualifies(w[j], c1, c2)
    ensures k < |w| ==> Qualifies(w[k], c1, c2)
  {
    if w == [] then 0
    else if Qualifies(w[0], c1, c2) then 0
    else 1 + FirstQualifying(w[1..], c1, c2)
  }

  /** The records of `w` that are not stale, in their original order. */
  function DropStale(w: seq<Offset>, c1: int, c2: int): (r: seq<Offset>)
    ensures |r| <= |w|
    ensures forall o :: o in r <==> o in w && !Stale(o, c1, c2)
  {
    if w == [] then []
    else (if Stale(w[0], c1, c2) then [] else [w[0]]) + DropStale(w[1..], c1, c2)
  }

  /** What one scan does to the window: it removes exactly the stale records
      that come before the first qualifying record, keeps every other record
      unchanged and in order, and decides the transposition flag and the
      growth of `trans` from the first qualifying record alone (no growth and
      no flag when there is none). */
  lemma {:induction false} ScanSpec(w: seq<Offset>, c1: int, c2: int)
    ensures var k := FirstQualifying(w, c1, c2);
            var r := Scan(w, c1, c2);
            && r.kept == DropStale(w[..k], c1, c2) + w[k..]
            && (k < |w| ==> r.isTrans == IsTransposition(w[k], c1, c2)
                            && r.bump == (if r.isTrans || !w[k].trans then 1 else 0))
            && (k == |w| ==> !r.isTrans && r.bump == 0)
  {
    if w != [] && !Qualifies(w[0], c1, c2) {
      var k, k' := FirstQualifying(w, c1, c2), FirstQualifying(w[1..], c1, c2);
      ScanSpec(w[1..], c1, c2);
      assert k == k' + 1;
      var r, r' := Scan(w, c1, c2), Scan(w[1..], c1, c2);
      var head := if Stale(w[0], c1, c2) then [] else [w[0]];
      assert r.kept == head + r'.kept;
      assert w[..k][1..] == w[1..][..k'];
      assert DropStale(w[..k], c1, c2) == head + DropStale(w[1..][..k'], c1, c2);
      assert w[k..] == w[1..][k'..];
    }
  }

  /** `trans` grows by at most one per scan. */
  lemma ScanBump(w: seq<Offset>, c1: int, c2: int)
    ensures 0 <= Scan(w, c1, c2).bump <= 1
  {
    ScanSpec(w, c1, c2);
  }

  /** No record of the window is altered by a scan: every record that remains
      was in the window before, with the same positions and the same flag. */
  lemma KeptRecordsUnchanged(w: seq<Offset>, c1: int, c2: int)
    ensures forall o :: o in Scan(w, c1, c2).kept ==> o in w
  {
    ScanSpec(w, c1, c2);
    var k := FirstQualifying(w, c1, c2);
    assert w == w[..k] + w[k..];
  }
}
