/**
 * The `{ total, data }` page every paginated query returns: `total` is the
 * length of the whole list and `data` is `list.slice(offset, offset + limit)`.
 * Offsets and limits are non-negative here.
 */
module Pagination {

  datatype Page<T> = Page(total: nat, data: seq<T>)

  function Min(a: int, b: int): int { if a <= b then a else b }

  function Max(a: int, b: int): int { if a >= b then a else b }

  /** Array.prototype.slice(start, end) for non-negative bounds: both are clamped to the length. */
  function Slice<T>(s: seq<T>, start: nat, end: nat): (r: seq<T>)
    ensures |r| == Max(0, Min(end, |s|) - Min(start, |s|))
    ensures forall i :: 0 <= i < |r| ==> r[i] == s[start + i]
  {
    if start >= |s| || end <= start then [] else s[start..Min(end, |s|)]
  }

  /** The page of `list` that skips `offset` items and keeps at most `limit`. */
  function Paginate<T>(list: seq<T>, offset: nat, limit: nat): (p: Page<T>)
    ensures p.total == |list|
    ensures |p.data| == Min(limit, Max(0, |list| - offset))
    ensures forall i :: 0 <= i < |p.data| ==> p.data[i] == list[offset + i]
  {
    Page(|list|, Slice(list, offset, offset + limit))
  }

  /** Array.prototype.map. */
  function Map<A, B>(f: A -> B, s: seq<A>): (r: seq<B>)
    ensures |r| == |s| && forall i :: 0 <= i < |s| ==> r[i] == f(s[i])
  {
    seq(|s|, i requires 0 <= i < |s| => f(s[i]))
  }

  /** Mapping then slicing gives the same page as slicing then mapping. */
  lemma MapCommutesWithPaginate<A, B>(f: A -> B, list: seq<A>, offset: nat, limit: nat)
    ensures Paginate(Map(f, list), offset, limit) == Page(|list|, Map(f, Paginate(list, offset, limit).data))
  {
    var lhs, rhs := Paginate(Map(f, list), offset, limit).data, Map(f, Paginate(list, offset, limit).data);
    assert |lhs| == |rhs|;
    assert forall i :: 0 <= i < |lhs| ==> lhs[i] == rhs[i];
  }

  /** Two consecutive pages are the page that spans both. */
  lemma ConsecutivePages<T>(list: seq<T>, offset: nat, first: nat, second: nat)
    ensures Paginate(list, offset, first).data + Paginate(list, offset + first, second).data
            == Paginate(list, offset, first + second).data
  {
    var a, b := Paginate(list, offset, first).data, Paginate(list, offset + first, second).data;
    var whole := Paginate(list, offset, first + second).data;
    assert |a + b| == |whole|;
    forall i | 0 <= i < |whole| ensures (a + b)[i] == whole[i] {
      if i >= |a| {
        assert (a + b)[i] == b[i - |a|];
      }
    }
  }

  /** A page from offset 0 whose limit covers the list is the whole list. */
  lemma FirstPageCoversAll<T>(list: seq<T>, limit: nat)
    requires limit >= |list|
    ensures Paginate(list, 0, limit).data == list
  {
  }
}
