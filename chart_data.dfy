/** The chart's dataset: a list of nullable numbers (a Java `List<Double>`
    whose entries may be null), and the two things the chart derives from it
    by scanning it front to back: which entries are drawn, and the scale
    value that bar heights are divided by. */
module ChartData {

  datatype Option<+T> = None | Some(value: T)

  /** One entry of the dataset; `None` stands for a Java null. */
  type Entry = Option<real>

  /** The indices of the non-null entries, in list order: the entries the
      painter draws, the k-th of them in the k-th bar position. */
  function NonNullIndices(values: seq<Entry>): (idx: seq<nat>)
    ensures forall k :: 0 <= k < |idx| ==> idx[k] < |values| && values[idx[k]].Some?
    ensures forall k, l :: 0 <= k < l < |idx| ==> idx[k] < idx[l]
    ensures |idx| <= |values|
  {
    if values == [] then []
    else
      var init := NonNullIndices(values[..|values| - 1]);
      if values[|values| - 1].Some? then init + [|values| - 1] else init
  }

  /** Every non-null entry is drawn: its index is among NonNullIndices. */
  lemma {:induction false} NonNullIndicesComplete(values: seq<Entry>, i: nat)
    requires i < |values| && values[i].Some?
    ensures exists k :: 0 <= k < |NonNullIndices(values)| && NonNullIndices(values)[k] == i
  {
    var n := |values| - 1;
    var init := NonNullIndices(values[..n]);
    if i == n {
      assert NonNullIndices(values)[|init|] == i;
    } else {
      NonNullIndicesComplete(values[..n], i);
      var k :| 0 <= k < |init| && init[k] == i;
      assert NonNullIndices(values)[k] == i;
    }
  }

  /** NonNullIndices of a longer prefix extends that of the shorter one by
      the next index exactly when that entry is non-null. */
  lemma NonNullIndicesStep(values: seq<Entry>, i: nat)
    requires i < |values|
    ensures NonNullIndices(values[..i + 1])
         == NonNullIndices(values[..i]) + (if values[i].Some? then [i] else [])
  {
    assert values[..i + 1][..i] == values[..i];
  }

  /** The running maximum of the loop in calculateMaxValue after it has seen
      `values`: it starts at 0 and takes a non-null value only when that
      value is strictly greater. */
  function ScanMax(values: seq<Entry>): (m: real)
    ensures m >= 0.0
  {
    if values == [] then 0.0
    else
      var m := ScanMax(values[..|values| - 1]);
      match values[|values| - 1]
      case Some(v) => if v > m then v else m
      case None => m
  }

  /** The scale value calculateMaxValue leaves behind: the running maximum,
      with 0 replaced by 1 so that it can be divided by. */
  function MaxValueOf(values: seq<Entry>): (r: real)
    ensures r > 0.0
  {
    var m := ScanMax(values);
    if m == 0.0 then 1.0 else m
  }

  /** There is a non-null entry greater than zero. */
  predicate HasPositive(values: seq<Entry>) {
    exists i :: 0 <= i < |values| && values[i].Some? && values[i].value > 0.0
  }

  /** `m` is at least every non-null entry. */
  predicate IsUpperBound(values: seq<Entry>, m: real) {
    forall i :: 0 <= i < |values| && values[i].Some? ==> values[i].value <= m
  }

  lemma {:induction false} ScanMaxIsUpperBound(values: seq<Entry>)
    ensures IsUpperBound(values, ScanMax(values))
  {
    if values != [] {
      var n := |values| - 1;
      ScanMaxIsUpperBound(values[..n]);
      assert forall i :: 0 <= i < n ==> values[i] == values[..n][i];
    }
  }

  /** The running maximum is 0 or one of the positive non-null entries. */
  lemma {:induction false} ScanMaxAttained(values: seq<Entry>)
    ensures ScanMax(values) == 0.0
         || exists i :: 0 <= i < |values| && values[i] == Some(ScanMax(values))
    ensures ScanMax(values) == 0.0 <==> !HasPositive(values)
  {
    if values != [] {
      var n := |values| - 1;
      var init := values[..n];
      ScanMaxAttained(init);
      ScanMaxIsUpperBound(values);
      if ScanMax(values) != ScanMax(init) {
        assert values[n] == Some(ScanMax(values));
      } else if ScanMax(init) != 0.0 {
        var i :| 0 <= i < n && init[i] == Some(ScanMax(init));
        assert values[i] == init[i];
      }
      if HasPositive(init) {
        var i :| 0 <= i < n && init[i].Some? && init[i].value > 0.0;
        assert values[i] == init[i];
      }
      if ScanMax(values) != 0.0 {
        var i :| 0 <= i < |values| && values[i] == Some(ScanMax(values));
        assert values[i].value > 0.0;
      }
    }
  }

  /** What calculateMaxValue computes, stated without the loop: the
      largest positive non-null entry when there is one, and 1 when there is
      none (an empty list, all entries null, or every value at most 0).
      Either way it is positive and at least every non-null entry. */
  lemma MaxValueOfCharacterised(values: seq<Entry>)
    ensures MaxValueOf(values) > 0.0
    ensures IsUpperBound(values, MaxValueOf(values))
    ensures HasPositive(values) ==>
              exists i :: 0 <= i < |values| && values[i] == Some(MaxValueOf(values))
    ensures !HasPositive(values) ==> MaxValueOf(values) == 1.0
  {
    ScanMaxIsUpperBound(values);
    ScanMaxAttained(values);
  }
}
