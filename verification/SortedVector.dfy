/** The address-ordered vector that tracks allocations: insertion by bubbling down, lookup by
    binary search on the base address or, with offsets allowed, on the whole range. */
module SortedVectors {

  datatype Entry<V> = Entry(ptr: nat, size: nat, value: V)

  predicate Holds<V>(e: Entry<V>, x: int) {
    e.ptr <= x < e.ptr + e.size
  }

  /** Ranges are non-empty, in order and disjoint. */
  predicate Ordered<V>(v: seq<Entry<V>>) {
    && (forall i :: 0 <= i < |v| ==> v[i].ptr > 0 && v[i].size > 0)
    && (forall i, j :: 0 <= i < j < |v| ==> v[i].ptr + v[i].size <= v[j].ptr)
  }

  predicate Covered<V>(v: seq<Entry<V>>, x: int) {
    exists i :: 0 <= i < |v| && Holds(v[i], x)
  }

  predicate HasBase<V>(v: seq<Entry<V>>, p: int) {
    exists i :: 0 <= i < |v| && v[i].ptr == p
  }

  predicate Apart(p: int, n: int, q: int, m: int) {
    p + n <= q || q + m <= p
  }

  /** `r` is `v` with `e` put in at position `k`. */
  predicate InsertedAt<V(==)>(v: seq<Entry<V>>, r: seq<Entry<V>>, k: int, e: Entry<V>) {
    0 <= k <= |v| && r == v[..k] + [e] + v[k..]
  }

  predicate RemovedAt<V(==)>(v: seq<Entry<V>>, r: seq<Entry<V>>, k: int) {
    0 <= k < |v| && r == v[..k] + v[k+1..]
  }

  lemma InsertKeepsOrder<V>(v: seq<Entry<V>>, r: seq<Entry<V>>, k: int, e: Entry<V>)
    requires Ordered(v) && InsertedAt(v, r, k, e) && e.ptr > 0 && e.size > 0
    requires forall i :: 0 <= i < k ==> v[i].ptr + v[i].size <= e.ptr
    requires forall i :: k <= i < |v| ==> e.ptr + e.size <= v[i].ptr
    ensures Ordered(r)
  {
  }

  lemma RemoveKeepsOrder<V>(v: seq<Entry<V>>, r: seq<Entry<V>>, k: int)
    requires Ordered(v) && RemovedAt(v, r, k)
    ensures Ordered(r)
  {
  }

  /** What an insertion adds to the members. */
  lemma InsertMembers<V>(v: seq<Entry<V>>, r: seq<Entry<V>>, k: int, e: Entry<V>)
    requires InsertedAt(v, r, k, e)
    ensures forall f :: f in r <==> f in v || f == e
  {
  }

  /** What an insertion adds to the covered addresses. */
  lemma InsertCovers<V>(v: seq<Entry<V>>, r: seq<Entry<V>>, k: int, e: Entry<V>, x: int)
    requires InsertedAt(v, r, k, e)
    ensures Covered(r, x) <==> Covered(v, x) || Holds(e, x)
  {
    if Covered(v, x) {
      var i :| 0 <= i < |v| && Holds(v[i], x);
      assert v[i] == r[if i < k then i else i + 1];
    }
    if Holds(e, x) {
      assert r[k] == e;
    }
    if Covered(r, x) {
      var i :| 0 <= i < |r| && Holds(r[i], x);
      if i != k {
        assert r[i] == v[if i < k then i else i - 1];
      }
    }
  }

  /** What a removal takes from the covered addresses. */
  lemma RemoveUncovers<V>(v: seq<Entry<V>>, r: seq<Entry<V>>, k: int, x: int)
    requires Ordered(v) && RemovedAt(v, r, k)
    ensures Covered(r, x) <==> Covered(v, x) && !Holds(v[k], x)
  {
    if Covered(v, x) && !Holds(v[k], x) {
      var i :| 0 <= i < |v| && Holds(v[i], x);
      assert r[if i < k then i else i - 1] == v[i];
    }
    if Covered(r, x) {
      var i :| 0 <= i < |r| && Holds(r[i], x);
      var j := if i < k then i else i + 1;
      assert r[i] == v[j];
      assert j < k ==> v[j].ptr + v[j].size <= v[k].ptr;
      assert k < j ==> v[k].ptr + v[k].size <= v[j].ptr;
    }
  }

  lemma SwapDown<V>(v: seq<Entry<V>>, r: seq<Entry<V>>, i: int, e: Entry<V>)
    requires InsertedAt(v, r, i, e) && i > 0
    ensures r[i-1] == v[i-1] && r[i] == e
    ensures InsertedAt(v, r[i := r[i-1]][i-1 := r[i]], i - 1, e)
  {
  }

  /** push_back, then swap down while the predecessor has the larger address. */
  method Insert<V(==)>(v: seq<Entry<V>>, e: Entry<V>) returns (r: seq<Entry<V>>, ghost k: int)
    requires Ordered(v) && e.ptr > 0 && e.size > 0
    requires forall i :: 0 <= i < |v| ==> Apart(v[i].ptr, v[i].size, e.ptr, e.size)
    ensures InsertedAt(v, r, k, e)
    ensures Ordered(r)
  {
    r := v + [e];
    var i := |r| - 1;
    while i > 0 && r[i].ptr < r[i-1].ptr
      invariant 0 <= i <= |v| && InsertedAt(v, r, i, e)
      invariant forall j :: i <= j < |v| ==> e.ptr < v[j].ptr
    {
      SwapDown(v, r, i, e);
      r := r[i := r[i-1]][i-1 := r[i]];
      i := i - 1;
    }
    k := i;
    assert i > 0 ==> r[i-1] == v[i-1] && r[i] == e;
    InsertKeepsOrder(v, r, k, e);
  }

  predicate ComparePointers(allowedOffset: nat, ptr: nat, otherPtr: nat) {
    ptr == otherPtr || (allowedOffset > 0 && otherPtr < ptr < otherPtr + allowedOffset)
  }

  /** Binary search; -1 stands for the end iterator. */
  method GetImpl<V>(v: seq<Entry<V>>, ptr: nat, allowOffset: bool) returns (k: int)
    requires Ordered(v)
    ensures -1 <= k < |v|
    ensures allowOffset ==> (k >= 0 <==> Covered(v, ptr)) && (k >= 0 ==> Holds(v[k], ptr))
    ensures !allowOffset ==> (k >= 0 <==> HasBase(v, ptr)) && (k >= 0 ==> v[k].ptr == ptr)
  {
    if |v| == 0 {
      return -1;
    }
    if ptr == 0 {
      return -1;
    }
    var begin, end := 0, |v| - 1;
    while end >= begin
      invariant 0 <= begin <= end + 1 <= |v|
      invariant forall i :: 0 <= i < begin ==> v[i].ptr < ptr && !(allowOffset && Holds(v[i], ptr))
      invariant forall i :: end < i < |v| ==> ptr < v[i].ptr
    {
      var currentPos := (begin + end) / 2;
      var allowedOffset := if allowOffset then v[currentPos].size else 0;
      if ComparePointers(allowedOffset, ptr, v[currentPos].ptr) {
        return currentPos;
      } else if ptr < v[currentPos].ptr {
        end := currentPos - 1;
      } else {
        begin := currentPos + 1;
      }
    }
    return -1;
  }

  /** The entry that holds an address is unique, and so is the entry with a base. */
  lemma HolderUnique<V>(v: seq<Entry<V>>, i: nat, j: nat, x: int)
    requires Ordered(v) && i < |v| && j < |v|
    requires Holds(v[i], x) && Holds(v[j], x)
    ensures i == j
  {
  }

  /** Takes out the entry with this very base address. */
  method Extract<V(==)>(v: seq<Entry<V>>, ptr: nat) returns (r: seq<Entry<V>>, k: int)
    requires Ordered(v)
    ensures -1 <= k < |v|
    ensures k >= 0 <==> HasBase(v, ptr)
    ensures k < 0 ==> r == v
    ensures k >= 0 ==> v[k].ptr == ptr && RemovedAt(v, r, k)
    ensures Ordered(r)
  {
    r := v;
    k := GetImpl(v, ptr, false);
    if k >= 0 {
      r := v[..k] + v[k+1..];
      RemoveKeepsOrder(v, r, k);
    }
  }

  /** remove_if followed by the erasure of one position: defined for a tracked base. */
  method Remove<V(==)>(v: seq<Entry<V>>, ptr: nat) returns (r: seq<Entry<V>>, ghost k: int)
    requires Ordered(v) && HasBase(v, ptr)
    ensures 0 <= k < |v| && v[k].ptr == ptr && RemovedAt(v, r, k)
    ensures Ordered(r)
  {
    r := [];
    k := -1;
    for i := 0 to |v|
      invariant k < 0 ==> r == v[..i] && forall j :: 0 <= j < i ==> v[j].ptr != ptr
      invariant k >= 0 ==> k < i && v[k].ptr == ptr && r == v[..k] + v[k+1..i]
    {
      if v[i].ptr != ptr {
        r := r + [v[i]];
      } else {
        k := i;
      }
    }
    assert v[k+1..|v|] == v[k+1..];
    RemoveKeepsOrder(v, r, k);
  }
}
