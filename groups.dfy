/** Chunking of a list into consecutive groups, used to reveal the boxes a
    few at a time at the start of a session. */
module Groups {
  import opened Wrappers

  /// The concatenation of a list of lists.
  function Concat<T>(groups: seq<seq<T>>): seq<T> {
    if groups == [] then [] else Concat(groups[..|groups| - 1]) + groups[|groups| - 1]
  }

  /** The groups are the chunking of `list` by `size`: concatenated they give
      `list` back, every group is non-empty and holds at most `size` items,
      and every group but the last holds exactly `size`. */
  ghost predicate IsChunking<T>(groups: seq<seq<T>>, size: int, list: seq<T>) {
    && Concat(groups) == list
    && (forall k :: 0 <= k < |groups| ==> 0 < |groups[k]| <= size)
    && (forall k :: 0 <= k < |groups| - 1 ==> |groups[k]| == size)
  }

  /** Takes slices `list[i..i + groupSize]` for i = 0, groupSize, 2 * groupSize, ...
      below the list's length; the last slice is cut short at the end of the
      list. A step of 0 is an error (the range of start positions cannot step
      by 0); a negative step yields no start positions at all. */
  method SplitIntoGroupsOf<T>(groupSize: int, list: seq<T>) returns (r: Option<seq<seq<T>>>)
    ensures r.None? <==> groupSize == 0
    ensures groupSize < 0 ==> r == Some([])
    ensures groupSize > 0 ==> r.Some? && IsChunking(r.value, groupSize, list)
  {
    if groupSize == 0 {
      return None;
    }
    if groupSize < 0 {
      return Some([]);
    }
    var result: seq<seq<T>> := [];
    var i := 0;
    while i < |list|
      invariant 0 <= i < |list| + groupSize
      invariant Concat(result) == list[..if i < |list| then i else |list|]
      invariant forall k :: 0 <= k < |result| ==> 0 < |result[k]| <= groupSize
      invariant forall k :: 0 <= k < |result| - 1 ==> |result[k]| == groupSize
      invariant i >= |list| || forall k :: 0 <= k < |result| ==> |result[k]| == groupSize
      decreases |list| - i
    {
      var group := if i + groupSize <= |list| then list[i..i + groupSize] else list[i..];
      assert Concat(result + [group]) == Concat(result) + group;
      result := result + [group];
      i := i + groupSize;
    }
    return Some(result);
  }
}
