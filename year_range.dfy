/** `range(start, end)` and the year options of the form built from it. */
module YearRange {
  import opened Wrappers
  import Validation

  /** The largest length `Array(n)` accepts; a larger or negative length throws a RangeError. */
  const MaxArrayLength := 0xFFFF_FFFF

  /**
   * `Array(end - start + 1).fill(0).map((_, idx) => start + idx)`: the
   * consecutive integers from `start` to `end`, or None where `Array` throws.
   */
  function Range(start: int, end: int): (r: Option<seq<int>>)
    ensures r.Some? <==> 0 <= end - start + 1 <= MaxArrayLength
    ensures r.Some? ==> |r.value| == end - start + 1
  {
    var length := end - start + 1;
    if length < 0 || length > MaxArrayLength then None
    else
      var filled := seq(length, _ => 0);
      Some(seq(|filled|, idx requires 0 <= idx < |filled| => start + idx))
  }

  /** The values are exactly the integers from `start` to `end`, in strictly increasing order. */
  lemma RangeIsInterval(start: int, end: int)
    requires Range(start, end).Some?
    ensures forall x :: x in Range(start, end).value <==> start <= x <= end
    ensures forall i, j :: 0 <= i < j < |Range(start, end).value| ==>
      Range(start, end).value[i] < Range(start, end).value[j]
  {
    var r := Range(start, end).value;
    forall x | start <= x <= end
      ensures x in r
    {
      assert r[x - start] == x;
    }
  }

  /** The options of the year select. */
  const FirstYear := 2010
  const LastYear := 2021

  /**
   * The year select offers twelve years, none of them the placeholder 0, so
   * any chosen year passes the year rule while the placeholder fails it.
   */
  lemma YearOptionsPassYearRule()
    ensures Range(FirstYear, LastYear).Some?
    ensures |Range(FirstYear, LastYear).value| == 12
    ensures forall y :: y in Range(FirstYear, LastYear).value ==> !Validation.YearError(y).show
    ensures Validation.YearError(0).show
  {
    RangeIsInterval(FirstYear, LastYear);
  }
}
