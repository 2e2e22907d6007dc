/** Iteration over the command words of a task: the words of a write are in one array, those of a run
    are in the pages of a command buffer. */
module Iterators {
  import opened Basics

  datatype TaskSource =
    | WriteSource(cmd: seq<Word>)
    | RunSource(pages: seq<seq<Word>>, maxSize: nat, addr: nat, size: nat)

  /** Pages needed for a buffer of a given size. */
  function NumPages(maxSize: nat): nat { (maxSize + PAGE_SIZE - 1) / PAGE_SIZE }

  /** The pages of a buffer of `maxSize` bytes. */
  predicate IsBuffer(pages: seq<seq<Word>>, maxSize: nat) {
    && |pages| == NumPages(maxSize)
    && forall p :: 0 <= p < |pages| ==> |pages[p]| == PAGE_WORDS
  }

  /** The checks of the run ioctl on the range of commands. */
  predicate RunAccepted(addr: nat, size: nat, maxSize: nat) {
    addr % 4 == 0 && size % 4 == 0 && addr + size <= maxSize
  }

  /** What the submission paths guarantee about a task's words. */
  predicate ValidSource(source: TaskSource) {
    match source
    case WriteSource(_) => true
    case RunSource(pages, maxSize, addr, size) => IsBuffer(pages, maxSize) && RunAccepted(addr, size, maxSize)
  }

  /** The number of words a task was submitted with. */
  function Length(source: TaskSource): nat {
    match source
    case WriteSource(cmd) => |cmd|
    case RunSource(_, _, _, size) => size / 4
  }

  // ---------- The flat view ----------

  /** Word `n` of a buffer seen as one array of words. */
  function FlatWord(pages: seq<seq<Word>>, n: nat): Word
    requires n / PAGE_WORDS < |pages| && |pages[n / PAGE_WORDS]| == PAGE_WORDS
  {
    pages[n / PAGE_WORDS][n % PAGE_WORDS]
  }

  /** The flat index of word `k` that the run iterator hands out. The iterator starts at
      `(addr % PAGE_SIZE) % 4` words into its page, which is the start of the page. */
  function HandedIndex(addr: nat, k: nat): nat {
    addr / PAGE_SIZE * PAGE_WORDS + addr % PAGE_SIZE % 4 + k
  }

  /** The flat index of word `k` of the range that the user asked to run. */
  function WantedIndex(addr: nat, k: nat): nat { addr / 4 + k }

  /** The iterator starts where the user asked exactly for page-aligned addresses. */
  lemma HandedIsWanted(addr: nat, k: nat)
    requires addr % 4 == 0
    ensures HandedIndex(addr, k) == WantedIndex(addr, k) <==> addr % PAGE_SIZE == 0
  {
  }

  /** Every accepted request stays inside its buffer, word by word and page by page. */
  lemma HandedInBounds(addr: nat, size: nat, maxSize: nat, k: nat)
    requires RunAccepted(addr, size, maxSize) && 4 * k < size
    ensures HandedIndex(addr, k) / PAGE_WORDS < NumPages(maxSize)
  {
    assert 4 * HandedIndex(addr, k) <= addr + 4 * k < maxSize;
  }

  /** The page that the iterator looks up before its first word exists exactly when the request is not an
      empty one placed at the end of the buffer's pages. */
  lemma FirstPageExists(addr: nat, size: nat, maxSize: nat)
    requires RunAccepted(addr, size, maxSize)
    ensures addr / PAGE_SIZE < NumPages(maxSize) <==> size > 0 || addr < PAGE_SIZE * NumPages(maxSize)
  {
  }

  /** An accepted request whose first page does not exist. */
  lemma EmptyRunAtEnd()
    ensures RunAccepted(4096, 0, 4096) && !(4096 / PAGE_SIZE < NumPages(4096))
  {
  }

  /** The words that the iterator of a task hands out, one after another. */
  function Handed(source: TaskSource): (words: seq<Word>)
    requires ValidSource(source)
    ensures |words| == Length(source)
  {
    match source
    case WriteSource(cmd) => cmd
    case RunSource(pages, maxSize, addr, size) =>
      assert forall k :: 0 <= k < size / 4 ==> HandedIndex(addr, k) / PAGE_WORDS < |pages| by {
        forall k | 0 <= k < size / 4 ensures HandedIndex(addr, k) / PAGE_WORDS < |pages| {
          HandedInBounds(addr, size, maxSize, k);
        }
      }
      seq(size / 4, k requires 0 <= k < size / 4 => FlatWord(pages, HandedIndex(addr, k)))
  }

  /** The words that the user asked to run. */
  ghost predicate HandsOutWanted(pages: seq<seq<Word>>, maxSize: nat, addr: nat, size: nat)
    requires ValidSource(RunSource(pages, maxSize, addr, size))
  {
    forall k {:trigger WantedIndex(addr, k)} :: 0 <= k < size / 4 ==>
      && WantedInBounds(pages, addr, k)
      && Handed(RunSource(pages, maxSize, addr, size))[k] == FlatWord(pages, WantedIndex(addr, k))
  }

  predicate WantedInBounds(pages: seq<seq<Word>>, addr: nat, k: nat) {
    var p := WantedIndex(addr, k) / PAGE_WORDS;
    p < |pages| && |pages[p]| == PAGE_WORDS
  }

  lemma AlignedHandsOut(pages: seq<seq<Word>>, maxSize: nat, addr: nat, size: nat)
    requires IsBuffer(pages, maxSize) && RunAccepted(addr, size, maxSize) && (addr % PAGE_SIZE == 0 || size == 0)
    ensures HandsOutWanted(pages, maxSize, addr, size)
  {
    forall k | 0 <= k < size / 4
      ensures WantedInBounds(pages, addr, k) && HandedIndex(addr, k) == WantedIndex(addr, k)
    {
      HandedIsWanted(addr, k);
      HandedInBounds(addr, size, maxSize, k);
    }
  }

  /** The page that holds the first word asked for is there. */
  lemma WantedPage(addr: nat, size: nat, maxSize: nat)
    requires RunAccepted(addr, size, maxSize) && size > 0
    ensures WantedIndex(addr, 0) / PAGE_WORDS < NumPages(maxSize)
  {
    assert 4 * WantedIndex(addr, 0) < maxSize;
  }

  lemma UnalignedMisses(addr: nat, size: nat, maxSize: nat)
    requires RunAccepted(addr, size, maxSize) && addr % PAGE_SIZE != 0 && size > 0
    ensures !HandsOutWanted(MarkedBuffer(maxSize, HandedIndex(addr, 0)), maxSize, addr, size)
  {
    var n := HandedIndex(addr, 0);
    var pages := MarkedBuffer(maxSize, n);
    HandedIsWanted(addr, 0);
    HandedInBounds(addr, size, maxSize, 0);
    WantedPage(addr, size, maxSize);
    MarkedWord(maxSize, n, n);
    MarkedWord(maxSize, n, WantedIndex(addr, 0));
    assert Handed(RunSource(pages, maxSize, addr, size))[0] == 1;
    assert FlatWord(pages, WantedIndex(addr, 0)) == 0;
  }

  /** A run iterator hands out the words asked for, in every buffer, exactly when the address is page aligned
      or there is no word to hand out. */
  lemma RunRefinesFlatView(addr: nat, size: nat, maxSize: nat)
    requires RunAccepted(addr, size, maxSize)
    ensures (forall pages {:trigger IsBuffer(pages, maxSize)} :: IsBuffer(pages, maxSize) ==>
               ValidSource(RunSource(pages, maxSize, addr, size)) && HandsOutWanted(pages, maxSize, addr, size))
            <==> addr % PAGE_SIZE == 0 || size == 0
  {
    if addr % PAGE_SIZE == 0 || size == 0 {
      forall pages | IsBuffer(pages, maxSize) ensures HandsOutWanted(pages, maxSize, addr, size) {
        AlignedHandsOut(pages, maxSize, addr, size);
      }
    } else {
      UnalignedMisses(addr, size, maxSize);
      assert IsBuffer(MarkedBuffer(maxSize, HandedIndex(addr, 0)), maxSize);
    }
  }

  /** A buffer whose word `n` is one and whose other words are zero. */
  function MarkedBuffer(maxSize: nat, n: nat): (pages: seq<seq<Word>>)
    ensures IsBuffer(pages, maxSize)
  {
    seq(NumPages(maxSize), p => seq(PAGE_WORDS, i => if p * PAGE_WORDS + i == n then 1 else 0))
  }

  lemma MarkedWord(maxSize: nat, n: nat, m: nat)
    requires m / PAGE_WORDS < NumPages(maxSize)
    ensures FlatWord(MarkedBuffer(maxSize, n), m) == if m == n then 1 else 0
  {
    assert m / PAGE_WORDS * PAGE_WORDS + m % PAGE_WORDS == m;
  }

  lemma SplitIndex(page: nat, offset: nat)
    requires offset < PAGE_WORDS
    ensures (page * PAGE_WORDS + offset) / PAGE_WORDS == page
    ensures (page * PAGE_WORDS + offset) % PAGE_WORDS == offset
  {
  }

  // ---------- The iterator ----------

  /** The iterator embedded in a task. It advances to the next page only when a word of it is needed. */
  class TaskIterator {
    const source: TaskSource
    var offset: nat      // words handed out of a write
    var currPg: seq<Word>
    var currPgNo: nat
    var currPgOff: nat
    var bytesLeft: int
    ghost var pos: nat   // words handed out so far

    ghost predicate Valid()
      reads this
    {
      && ValidSource(source)
      && pos <= Length(source)
      && match source
         case WriteSource(_) => offset == pos
         case RunSource(pages, maxSize, addr, size) =>
           && bytesLeft == size - 4 * pos
           && currPgOff <= PAGE_WORDS
           && currPgNo * PAGE_WORDS + currPgOff == HandedIndex(addr, pos)
           && (currPgNo < |pages| ==> currPg == pages[currPgNo])
    }

    constructor (source: TaskSource)
      requires ValidSource(source)
      ensures Valid() && pos == 0 && this.source == source
    {
      this.source := source;
      offset := 0;
      pos := 0;
      if source.RunSource? {
        currPgNo := source.addr / PAGE_SIZE;
        currPgOff := source.addr % PAGE_SIZE % 4;
        currPg := if source.addr / PAGE_SIZE < |source.pages| then source.pages[source.addr / PAGE_SIZE] else [];
        bytesLeft := source.size;
      } else {
        currPgNo, currPgOff, currPg, bytesLeft := 0, 0, [], 0;
      }
    }

    method NextWord() returns (word: Word)
      requires Valid() && pos < Length(source)
      modifies this
      ensures Valid() && pos == old(pos) + 1
      ensures word == Handed(source)[old(pos)]
    {
      pos := pos + 1;
      match source
      case WriteSource(cmd) =>
        assert 4 * |cmd| != offset;  // the run-time check, which compares bytes with words, cannot fire
        word := cmd[offset];
        offset := offset + 1;
      case RunSource(pages, maxSize, addr, size) =>
        HandedInBounds(addr, size, maxSize, pos - 1);
        if currPgOff == PAGE_WORDS {
          currPgOff := 0;
          currPgNo := currPgNo + 1;
          currPg := pages[currPgNo];
        }
        SplitIndex(currPgNo, currPgOff);
        bytesLeft := bytesLeft - 4;
        word := currPg[currPgOff];
        currPgOff := currPgOff + 1;
    }
  }
}
