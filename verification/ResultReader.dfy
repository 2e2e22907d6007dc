/** Reading results: one die per read, from the pages of the buffer, in the order in which the device put them there. */
module ResultReader {
  import opened Basics

  /** A result of eight bytes. */
  datatype Die = Die(value: bv32, kind: bv32)

  /** Results of eight bytes per page of 4096. */
  const PAGE_DICE: nat := 512

  predicate IsPaged(pages: seq<seq<Die>>) { forall p :: 0 <= p < |pages| ==> |pages[p]| == PAGE_DICE }

  /** The pages as one sequence of results. */
  function Flat(pages: seq<seq<Die>>): seq<Die> {
    if pages == [] then [] else Flat(pages[..|pages| - 1]) + pages[|pages| - 1]
  }

  lemma {:induction false} FlatLength(pages: seq<seq<Die>>)
    requires IsPaged(pages)
    ensures |Flat(pages)| == 512 * |pages|
  {
    if pages != [] {
      FlatLength(pages[..|pages| - 1]);
    }
  }

  /** Result `i` of page `p` in the flat view. */
  lemma {:induction false} FlatPage(pages: seq<seq<Die>>, p: nat, i: nat)
    requires IsPaged(pages) && p < |pages| && i < 512
    ensures |Flat(pages)| == 512 * |pages| && Flat(pages)[512 * p + i] == pages[p][i]
  {
    var front := pages[..|pages| - 1];
    FlatLength(pages);
    FlatLength(front);
    if p < |front| {
      FlatPage(front, p, i);
    }
  }

  /** Page and place of an offset give the result at that offset of the flat view. */
  lemma FlatAt(pages: seq<seq<Die>>, off: nat)
    requires IsPaged(pages)
    ensures off < |Flat(pages)| <==> off / PAGE_DICE < |pages|
    ensures off < |Flat(pages)| ==> Flat(pages)[off] == pages[off / PAGE_DICE][off % PAGE_DICE]
  {
    FlatLength(pages);
    if off / 512 < |pages| {
      FlatPage(pages, off / 512, off % 512);
    }
  }

  datatype Outcome = NothingMore | Got(die: Die) | Failed

  /** What a sequence of reads returns, seen without pages: results that are available are read in order as far as the
      buffer goes, and fail beyond; when none is available, there is nothing more. */
  function Expected(dice: seq<Die>, count: nat, offset: nat, n: nat): seq<Outcome>
    requires offset <= count
    decreases n
  {
    if n == 0 then []
    else if offset == count then [NothingMore] + Expected(dice, count, offset, n - 1)
    else [if offset < |dice| then Got(dice[offset]) else Failed] + Expected(dice, count, offset + 1, n - 1)
  }

  class Reader {
    const pages: seq<seq<Die>>
    var resultCount: nat
    var offset: nat

    constructor (pages: seq<seq<Die>>)
      requires IsPaged(pages)
      ensures Valid() && this.pages == pages && resultCount == 0 && offset == 0
    {
      this.pages := pages;
      resultCount, offset := 0, 0;
    }

    predicate Valid()
      reads this
    {
      IsPaged(pages) && offset <= resultCount
    }

    /** The next result. The offset moves on even when the result is beyond the pages of the buffer. */
    method ReadResult() returns (die: Option<Die>)
      requires IsPaged(pages)
      modifies `offset
      ensures offset == old(offset) + 1
      ensures die == if old(offset) < |Flat(pages)| then Some(Flat(pages)[old(offset)]) else None
    {
      var off := offset;
      offset := offset + 1;
      FlatAt(pages, off);
      if off / PAGE_DICE >= |pages| {
        return None;
      }
      die := Some(pages[off / PAGE_DICE][off % PAGE_DICE]);
    }

    /** A read, once it no longer waits: a result if one is available. */
    method Read() returns (r: Outcome)
      requires Valid()
      modifies `offset
      ensures Valid()
      ensures r.NothingMore? <==> old(offset) == resultCount
      ensures offset == old(offset) + if r.NothingMore? then 0 else 1
      ensures r.Got? ==> old(offset) < |Flat(pages)| && r.die == Flat(pages)[old(offset)]
      ensures r.Failed? ==> old(offset) >= |Flat(pages)|
    {
      if resultCount - offset == 0 {
        return NothingMore;
      }
      var die := ReadResult();
      r := if die.Some? then Got(die.value) else Failed;
    }

    /** Any number of reads in a row. */
    method ReadMany(n: nat) returns (rs: seq<Outcome>)
      requires Valid()
      modifies `offset
      ensures Valid() && rs == Expected(Flat(pages), resultCount, old(offset), n)
    {
      rs := [];
      ghost var start := offset;
      for i := 0 to n
        invariant Valid()
        invariant Expected(Flat(pages), resultCount, start, n) == rs + Expected(Flat(pages), resultCount, offset, n - i)
      {
        var r := Read();
        rs := rs + [r];
      }
    }
  }

  /** Of `k` results available from `offset` on, all within the buffer, `k` reads return exactly those, in order. */
  lemma {:induction false} ReadsInOrder(dice: seq<Die>, count: nat, offset: nat, k: nat, i: nat)
    requires offset + k <= count && offset + k <= |dice| && i < k
    ensures |Expected(dice, count, offset, k)| == k && Expected(dice, count, offset, k)[i] == Got(dice[offset + i])
    decreases k
  {
    if k > 1 {
      ReadsInOrder(dice, count, offset + 1, k - 1, if i > 0 then i - 1 else 0);
    }
  }
}
