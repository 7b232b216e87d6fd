/**
 The cutoff line among scored rows, drawn once by a scan that remembers it and
 once row by row from each row and its predecessor.
 */
module CutoffRule {
  import opened Wrappers

  datatype Line = Rule | Row(i: nat)

  predicate Below(score: real, threshold: real) {
    score < threshold
  }

  predicate Descending(scores: seq<real>) {
    forall i, j :: 0 <= i < j < |scores| ==> scores[i] >= scores[j]
  }

  // --- The two renderings -------------------------------------------------------------------

  /** PreviewRowWithCutoff: the first row below, seen from the row and the one before. */
  predicate FirstBelow(scores: seq<real>, threshold: real, i: nat)
    requires i < |scores|
  {
    Below(scores[i], threshold) && (i == 0 || !Below(scores[i - 1], threshold))
  }

  /** The panel's list, up to n rows. */
  function Panel(scores: seq<real>, threshold: real, n: nat): seq<Line>
    requires n <= |scores|
  {
    if n == 0 then []
    else Panel(scores, threshold, n - 1) + (if FirstBelow(scores, threshold, n - 1) then [Rule] else []) + [Row(n - 1)]
  }

  /** renderScores after n rows: the line comes before the first row below, if there was one. */
  function Scan(scores: seq<real>, threshold: Option<real>, n: nat): seq<Line>
    requires n <= |scores|
  {
    if n == 0 then []
    else
      Scan(scores, threshold, n - 1)
      + (if threshold.Some? && Below(scores[n - 1], threshold.value) && !AnyBelow(scores, threshold.value, n - 1) then [Rule] else [])
      + [Row(n - 1)]
  }

  predicate AnyBelow(scores: seq<real>, threshold: real, n: nat)
    requires n <= |scores|
  {
    exists i :: 0 <= i < n && Below(scores[i], threshold)
  }

  method RenderScores(scores: seq<real>, threshold: Option<real>) returns (out: seq<Line>)
    ensures out == Scan(scores, threshold, |scores|)
  {
    out := [];
    if |scores| == 0 {
      return;
    }
    var cutDrawn := threshold == None;
    for n := 0 to |scores|
      invariant out == Scan(scores, threshold, n)
      invariant cutDrawn <==> threshold == None || AnyBelow(scores, threshold.value, n)
    {
      if !cutDrawn && scores[n] < threshold.value {
        out := out + [Rule];
        cutDrawn := true;
      }
      out := out + [Row(n)];
    }
  }

  /** preview.items.filter(i => i.similarity >= preview.threshold).length, over the first n. */
  function AboveCount(scores: seq<real>, threshold: real, n: nat): (r: nat)
    requires n <= |scores|
    ensures r <= n
  {
    if n == 0 then 0 else AboveCount(scores, threshold, n - 1) + if scores[n - 1] >= threshold then 1 else 0
  }

  // --- Where the line is ----------------------------------------------------------------------

  function Rows(from: nat, to: nat): (r: seq<Line>)
    requires from <= to
    ensures |r| == to - from && forall i :: 0 <= i < |r| ==> r[i] == Row(from + i)
  {
    seq(to - from, i requires 0 <= i < to - from => Row(from + i))
  }

  /** The rows with one line at cut, or none when all of them are above. */
  function Cut(cut: nat, n: nat): seq<Line>
    requires cut <= n
  {
    if cut == n then Rows(0, n) else Rows(0, cut) + [Rule] + Rows(cut, n)
  }

  /** On a descending list the rows at or above the threshold are the first AboveCount ones. */
  lemma {:induction false} AboveFirst(scores: seq<real>, threshold: real, n: nat)
    requires n <= |scores| && Descending(scores)
    ensures forall i :: 0 <= i < n ==> (Below(scores[i], threshold) <==> AboveCount(scores, threshold, n) <= i)
  {
    if n > 0 {
      AboveFirst(scores, threshold, n - 1);
      if !Below(scores[n - 1], threshold) {
        AllAbove(scores, threshold, n);
      }
    }
  }

  lemma {:induction false} AllAbove(scores: seq<real>, threshold: real, n: nat)
    requires n <= |scores| && forall i :: 0 <= i < n ==> !Below(scores[i], threshold)
    ensures AboveCount(scores, threshold, n) == n
  {
    if n > 0 {
      AllAbove(scores, threshold, n - 1);
    }
  }

  lemma {:induction false} CutSteps(cut: nat, n: nat)
    requires cut <= n
    ensures Cut(cut, n + 1) == Cut(cut, n) + (if cut == n then [Rule] else []) + [Row(n)]
    ensures Cut(n + 1, n + 1) == Cut(n, n) + [Row(n)]
  {
    assert Rows(cut, n + 1) == Rows(cut, n) + [Row(n)] && Rows(0, n + 1) == Rows(0, n) + [Row(n)];
    assert cut == n ==> Rows(cut, n) == [];
  }

  /** On every descending list both renderings draw the line at most once, at index AboveCount. */
  lemma {:induction false} BothCutAtAboveCount(scores: seq<real>, threshold: real, n: nat)
    requires n <= |scores| && Descending(scores)
    ensures Panel(scores, threshold, n) == Cut(AboveCount(scores, threshold, n), n)
    ensures Scan(scores, Some(threshold), n) == Cut(AboveCount(scores, threshold, n), n)
  {
    if n > 0 {
      BothCutAtAboveCount(scores, threshold, n - 1);
      NextRow(scores, threshold, n - 1);
      CutSteps(AboveCount(scores, threshold, n - 1), n - 1);
    }
  }

  /** What the row after the first n does to the line, seen from either rendering. */
  lemma NextRow(scores: seq<real>, threshold: real, n: nat)
    requires n < |scores| && Descending(scores)
    ensures var k := AboveCount(scores, threshold, n);
            && (AnyBelow(scores, threshold, n) <==> k < n)
            && (FirstBelow(scores, threshold, n) <==> k == n && Below(scores[n], threshold))
            && (k < n ==> Below(scores[n], threshold))
  {
    AboveFirst(scores, threshold, n);
    var k := AboveCount(scores, threshold, n);
    assert k < n ==> Below(scores[k], threshold);
  }

  /** A row is the first below after one above, and some earlier row was below already. */
  predicate DipsTwice(scores: seq<real>, threshold: real, n: nat)
    requires n <= |scores|
  {
    exists k :: 1 <= k < n && FirstBelow(scores, threshold, k) && AnyBelow(scores, threshold, k)
  }

  lemma {:induction false} PanelNeverShorter(scores: seq<real>, threshold: real, n: nat)
    requires n <= |scores|
    ensures !DipsTwice(scores, threshold, n) ==> Panel(scores, threshold, n) == Scan(scores, Some(threshold), n)
    ensures |Panel(scores, threshold, n)| >= |Scan(scores, Some(threshold), n)|
    ensures DipsTwice(scores, threshold, n) ==> |Panel(scores, threshold, n)| > |Scan(scores, Some(threshold), n)|
  {
    if n > 0 {
      PanelNeverShorter(scores, threshold, n - 1);
      var k := n - 1;
      var first := Below(scores[k], threshold) && !AnyBelow(scores, threshold, k);
      assert first ==> FirstBelow(scores, threshold, k);
      assert DipsTwice(scores, threshold, n) <==> DipsTwice(scores, threshold, k) || (FirstBelow(scores, threshold, k) && !first);
    }
  }

  /** On any list at all, sorted or not, the two renderings agree if and only if no score returns above and falls below again. */
  lemma AgreeIffOneDip(scores: seq<real>, threshold: real)
    ensures Panel(scores, threshold, |scores|) == Scan(scores, Some(threshold), |scores|) <==> !DipsTwice(scores, threshold, |scores|)
  {
    PanelNeverShorter(scores, threshold, |scores|);
  }
}
