/** Address ranges and lists of address ranges, measured two ways: how many members of the
    list cover an address, and how many bytes the list holds in total.  Every step of the
    chunk allocator is specified by its effect on these two measures. */
module Chunks {

  datatype Chunk = Chunk(ptr: nat, size: nat)

  /** 1 when address `x` lies in the range, else 0. */
  function Hit(ptr: int, size: int, x: int): nat {
    if ptr <= x < ptr + size then 1 else 0
  }

  ghost function Count(cs: seq<Chunk>, x: int): nat {
    if cs == [] then 0 else Hit(cs[0].ptr, cs[0].size, x) + Count(cs[1..], x)
  }

  ghost function Total(cs: seq<Chunk>): nat {
    if cs == [] then 0 else cs[0].size + Total(cs[1..])
  }

  ghost predicate NonEmpty(cs: seq<Chunk>) {
    forall i :: 0 <= i < |cs| ==> cs[i].size > 0
  }

  /** `r` covers exactly what `cs` covers and the range besides, with multiplicity. */
  ghost predicate Gains(cs: seq<Chunk>, r: seq<Chunk>, ptr: int, size: int) {
    && (forall x :: Count(r, x) == Count(cs, x) + Hit(ptr, size, x))
    && Total(r) == Total(cs) + size
    && (NonEmpty(cs) && size > 0 ==> NonEmpty(r))
  }

  /** `cs` without the range: the inverse of `Gains`. */
  ghost predicate Loses(cs: seq<Chunk>, r: seq<Chunk>, ptr: int, size: int) {
    && (forall x :: Count(cs, x) == Count(r, x) + Hit(ptr, size, x))
    && Total(cs) == Total(r) + size
    && (NonEmpty(cs) ==> NonEmpty(r))
  }

  /** The two lists cover the same addresses with the same multiplicity. */
  ghost predicate SameCover(cs: seq<Chunk>, r: seq<Chunk>) {
    && (forall x :: Count(r, x) == Count(cs, x))
    && Total(r) == Total(cs)
    && (NonEmpty(cs) ==> NonEmpty(r))
  }

  lemma {:induction false} CountAppend(a: seq<Chunk>, b: seq<Chunk>, x: int)
    ensures Count(a + b, x) == Count(a, x) + Count(b, x)
  {
    if a == [] {
      assert a + b == b;
    } else {
      assert (a + b)[1..] == a[1..] + b;
      CountAppend(a[1..], b, x);
    }
  }

  lemma {:induction false} TotalAppend(a: seq<Chunk>, b: seq<Chunk>)
    ensures Total(a + b) == Total(a) + Total(b)
  {
    if a == [] {
      assert a + b == b;
    } else {
      assert (a + b)[1..] == a[1..] + b;
      TotalAppend(a[1..], b);
    }
  }

  /** Count and total of a list split around its middle segment. */
  lemma Split3(a: seq<Chunk>, m: seq<Chunk>, b: seq<Chunk>)
    ensures forall x :: Count(a + m + b, x) == Count(a, x) + Count(m, x) + Count(b, x)
    ensures Total(a + m + b) == Total(a) + Total(m) + Total(b)
  {
    forall x
      ensures Count(a + m + b, x) == Count(a, x) + Count(m, x) + Count(b, x)
    {
      CountAppend(a + m, b, x);
      CountAppend(a, m, x);
    }
    TotalAppend(a + m, b);
    TotalAppend(a, m);
  }

  lemma Single(c: Chunk)
    ensures forall x :: Count([c], x) == Hit(c.ptr, c.size, x)
    ensures Total([c]) == c.size
  {
  }

  lemma AppendGains(cs: seq<Chunk>, c: Chunk)
    ensures Gains(cs, cs + [c], c.ptr, c.size)
  {
    Split3(cs, [c], []);
    assert cs + [c] + [] == cs + [c];
    Single(c);
  }

  /** Erasing one element loses exactly its range. */
  lemma RemoveLoses(cs: seq<Chunk>, i: nat)
    requires i < |cs|
    ensures Loses(cs, cs[..i] + cs[i+1..], cs[i].ptr, cs[i].size)
  {
    Split3(cs[..i], [cs[i]], cs[i+1..]);
    assert cs[..i] + [cs[i]] + cs[i+1..] == cs;
    Split3(cs[..i], [], cs[i+1..]);
    assert cs[..i] + [] + cs[i+1..] == cs[..i] + cs[i+1..];
    Single(cs[i]);
  }

  /** Replacing one element loses the old range and gains the new one. */
  lemma UpdateCount(cs: seq<Chunk>, i: nat, c: Chunk)
    requires i < |cs|
    ensures forall x :: Count(cs[i := c], x) + Hit(cs[i].ptr, cs[i].size, x) == Count(cs, x) + Hit(c.ptr, c.size, x)
    ensures Total(cs[i := c]) + cs[i].size == Total(cs) + c.size
  {
    Split3(cs[..i], [cs[i]], cs[i+1..]);
    assert cs[..i] + [cs[i]] + cs[i+1..] == cs;
    Split3(cs[..i], [c], cs[i+1..]);
    assert cs[..i] + [c] + cs[i+1..] == cs[i := c];
    Single(cs[i]);
    Single(c);
  }

  /** A member's range is covered by the list, and twice where two members overlap. */
  lemma MemberCovers(cs: seq<Chunk>, i: nat, x: int)
    requires i < |cs|
    ensures Count(cs, x) >= Hit(cs[i].ptr, cs[i].size, x)
  {
    RemoveLoses(cs, i);
  }

  lemma OverlapCountsTwice(cs: seq<Chunk>, i: nat, j: nat, x: int)
    requires i < j < |cs|
    ensures Count(cs, x) >= Hit(cs[i].ptr, cs[i].size, x) + Hit(cs[j].ptr, cs[j].size, x)
  {
    RemoveLoses(cs, j);
    var rest := cs[..j] + cs[j+1..];
    assert rest[i] == cs[i];
    MemberCovers(rest, i, x);
  }

  /* ---- std::sort by address ---- */

  predicate Ascending(cs: seq<Chunk>) {
    forall i, j :: 0 <= i < j < |cs| ==> cs[i].ptr <= cs[j].ptr
  }

  predicate Descending(cs: seq<Chunk>) {
    forall i, j :: 0 <= i < j < |cs| ==> cs[j].ptr <= cs[i].ptr
  }

  function Insert(c: Chunk, cs: seq<Chunk>): (r: seq<Chunk>)
    ensures |r| == |cs| + 1
  {
    if cs == [] then [c]
    else if c.ptr <= cs[0].ptr then [c] + cs
    else [cs[0]] + Insert(c, cs[1..])
  }

  /** Ascending order of address, as std::sort over the forward iterators. */
  function Sort(cs: seq<Chunk>): (r: seq<Chunk>)
    ensures |r| == |cs|
  {
    if cs == [] then [] else Insert(cs[0], Sort(cs[1..]))
  }

  /** Descending order of address, as std::sort over the reverse iterators. */
  function Reverse(cs: seq<Chunk>): (r: seq<Chunk>)
    ensures |r| == |cs|
    ensures forall i :: 0 <= i < |cs| ==> r[i] == cs[|cs| - 1 - i]
  {
    if cs == [] then [] else Reverse(cs[1..]) + [cs[0]]
  }

  lemma {:induction false} InsertSorts(c: Chunk, cs: seq<Chunk>, low: int)
    requires Ascending(cs)
    requires low <= c.ptr && forall i :: 0 <= i < |cs| ==> low <= cs[i].ptr
    ensures Ascending(Insert(c, cs))
    ensures forall i :: 0 <= i < |cs| + 1 ==> low <= Insert(c, cs)[i].ptr
  {
    if cs != [] && c.ptr > cs[0].ptr {
      InsertSorts(c, cs[1..], cs[0].ptr);
    }
  }

  lemma {:induction false} InsertGains(c: Chunk, cs: seq<Chunk>)
    ensures Gains(cs, Insert(c, cs), c.ptr, c.size)
  {
    Single(c);
    if cs != [] {
      if c.ptr <= cs[0].ptr {
        Split3([], [c], cs);
        assert [] + [c] + cs == [c] + cs;
      } else {
        var rest := Insert(c, cs[1..]);
        InsertGains(c, cs[1..]);
        Split3([], [cs[0]], rest);
        assert [] + [cs[0]] + rest == [cs[0]] + rest;
        Single(cs[0]);
      }
    }
  }

  lemma {:induction false} SortKeeps(cs: seq<Chunk>)
    ensures Ascending(Sort(cs))
    ensures SameCover(cs, Sort(cs))
  {
    if cs != [] {
      SortKeeps(cs[1..]);
      InsertSorts(cs[0], Sort(cs[1..]), 0);
      InsertGains(cs[0], Sort(cs[1..]));
    }
  }

  lemma {:induction false} ReverseKeeps(cs: seq<Chunk>)
    ensures SameCover(cs, Reverse(cs))
    ensures Ascending(cs) ==> Descending(Reverse(cs))
  {
    if cs != [] {
      ReverseKeeps(cs[1..]);
      AppendGains(Reverse(cs[1..]), cs[0]);
    }
  }
}
