/** The page table of a buffer: it is built in place, taken down again when an allocation fails, and freed. */
module PageTable {
  import opened Basics
  import opened Words
  import opened Iterators

  /** The largest buffer that the create ioctl accepts. */
  const MAX_BUFFER_SIZE: nat := PAGE_SIZE * 1024

  /** An allocation: its identity, and the address at which the device sees it. */
  datatype Block = Block(id: nat, dma: bv64)

  /** The allocations with identities from `lo` up to `hi`. */
  function Span(lo: nat, hi: nat): set<nat> { set x | lo <= x < hi && InSpan(x, lo, hi) }

  predicate InSpan(x: nat, lo: nat, hi: nat) { lo <= x < hi }

  /** Requests `lo` up to `hi` are granted. */
  ghost predicate Granted(grants: nat -> Option<bv64>, lo: nat, hi: nat) {
    forall k :: lo <= k < hi ==> grants(k).Some?
  }

  /** Source of memory. Whether request `k` is granted, and at which address, is up to the environment. */
  class Allocator {
    const grants: nat -> Option<bv64>
    var requests: nat
    var granted: nat
    var live: set<nat>

    constructor (grants: nat -> Option<bv64>)
      ensures Valid() && live == {} && this.grants == grants
    {
      this.grants := grants;
      requests, granted, live := 0, 0, {};
    }

    predicate Valid()
      reads this
    {
      forall x :: x in live ==> x < granted
    }

    method Alloc() returns (b: Option<Block>)
      requires Valid()
      modifies this
      ensures Valid() && requests == old(requests) + 1
      ensures b.None? <==> grants(old(requests)).None?
      ensures b.Some? ==> b.value == Block(old(granted), grants(old(requests)).value)
      ensures granted == old(granted) + (if b.Some? then 1 else 0)
      ensures live == old(live) + (if b.Some? then {old(granted)} else {})
    {
      if grants(requests).Some? {
        b := Some(Block(granted, grants(requests).value));
        live := live + {granted};
        granted := granted + 1;
      } else {
        b := None;
      }
      requests := requests + 1;
    }

    /** Only what is live may be freed, so a caller that verifies frees nothing twice. */
    method Free(id: nat)
      requires Valid() && id in live
      modifies `live
      ensures Valid() && live == old(live) - {id}
    {
      live := live - {id};
    }
  }

  /** An entry that was written is seen as present, whatever the address. */
  lemma EntryIsPresent(dma: bv64)
    ensures Present(MakePtEntry(dma))
    ensures !Present(0)
  {
  }

  class Table {
    var table: Block
    var entries: array<Word>
    var list: Block
    var pages: array<Block>
    var numPages: nat
    var maxSize: nat

    constructor ()
      ensures fresh(entries) && fresh(pages) && entries.Length == 1024
    {
      table, list := Block(0, 0), Block(0, 0);
      entries := new Word[1024];
      pages := new Block[0];
      numPages, maxSize := 0, 0;
    }

    /** The first `n` pages are in place, and the rest of the table is empty. */
    ghost predicate Filled(n: nat)
      reads this, entries, pages
    {
      && entries as object != pages as object
      && entries.Length == 1024 && n <= pages.Length <= 1024
      && list.id == table.id + 1
      && (forall i :: 0 <= i < n ==> pages[i].id == table.id + 2 + i && entries[i] == MakePtEntry(pages[i].dma))
      && (forall i :: n <= i < 1024 ==> entries[i] == 0)
    }

    /** The table of a buffer of `maxSize` bytes, complete. */
    ghost predicate Valid()
      reads this, entries, pages
    {
      Filled(numPages) && numPages == NumPages(maxSize) == pages.Length
    }

    /** The identities of everything the table is made of. */
    ghost function Parts(): set<nat>
      reads this
    {
      Span(table.id, table.id + 2 + numPages)
    }

    /** The page of the table comes zeroed. */
    method ClearEntries()
      requires entries.Length == 1024
      modifies entries
      ensures forall i :: 0 <= i < 1024 ==> entries[i] == 0
    {
      for i := 0 to 1024
        invariant forall j :: 0 <= j < i ==> entries[j] == 0
      {
        entries[i] := 0;
      }
    }

    method Init(a: Allocator, size: nat) returns (ok: bool)
      requires a.Valid() && size <= MAX_BUFFER_SIZE && entries.Length == 1024
      modifies this, entries, a
      ensures a.Valid() && entries == old(entries)
      ensures ok ==> Valid() && maxSize == size && Parts() !! old(a.live) && a.live == old(a.live) + Parts()
      ensures !ok ==> a.live == old(a.live)
      ensures ok <==> Granted(a.grants, old(a.requests), old(a.requests) + 2 + NumPages(size))
    {
      ghost var live, r := a.live, a.requests;
      var t := a.Alloc();
      if t.None? {
        return false;
      }
      table := t.value;
      ClearEntries();
      numPages := NumPages(size);
      maxSize := size;
      var l := a.Alloc();
      if l.None? {
        a.Free(table.id);
        return false;
      }
      list := l.value;
      pages := new Block[numPages];
      ok := FillPages(a, live, r);
    }

    method EnterPage(i: nat, p: Block)
      requires Filled(i) && i < pages.Length && p.id == table.id + 2 + i
      modifies entries, pages
      ensures Filled(i + 1)
    {
      pages[i] := p;
      entries[i] := MakePtEntry(p.dma);
    }

    /** Allocates the pages one by one and enters them into the table. */
    method FillPages(a: Allocator, ghost live: set<nat>, ghost r: nat) returns (ok: bool)
      requires a.Valid() && Filled(0) && pages.Length == numPages == NumPages(maxSize)
      requires a.requests == r + 2 && a.granted == table.id + 2
      requires a.live == live + Span(table.id, table.id + 2) && forall x :: x in live ==> x < table.id
      requires a.grants(r).Some? && a.grants(r + 1).Some?
      modifies entries, pages, a
      ensures a.Valid()
      ensures ok ==> Valid() && a.live == live + Parts()
      ensures !ok ==> a.live == live
      ensures ok <==> Granted(a.grants, r, r + 2 + numPages)
    {
      for i := 0 to numPages
        invariant a.Valid() && Filled(i) && a.requests == r + 2 + i && a.granted == table.id + 2 + i
        invariant a.live == live + Span(table.id, table.id + 2 + i)
        invariant Granted(a.grants, r, r + 2 + i)
      {
        var placed := AddPage(a, i);
        if !placed {
          Dismantle(a, i, live);
          return false;
        }
      }
      ok := true;
    }

    method AddPage(a: Allocator, i: nat) returns (placed: bool)
      requires a.Valid() && Filled(i) && i < pages.Length && a.granted == table.id + 2 + i
      modifies entries, pages, a
      ensures a.Valid() && a.requests == old(a.requests) + 1 && (placed <==> a.grants(old(a.requests)).Some?)
      ensures if placed then
                Filled(i + 1) && a.granted == old(a.granted) + 1 && a.live == old(a.live) + {old(a.granted)}
              else Filled(i) && a.granted == old(a.granted) && a.live == old(a.live)
    {
      var p := a.Alloc();
      placed := p.Some?;
      if placed {
        EnterPage(i, p.value);
      }
    }

    /** Frees the pages that are present, up to the first that is not, and then the rest of the table. */
    method Dismantle(a: Allocator, ghost n: nat, ghost keep: set<nat>)
      requires a.Valid() && Filled(n) && n <= numPages <= pages.Length
      requires Span(table.id, table.id + 2 + n) !! keep && a.live == keep + Span(table.id, table.id + 2 + n)
      modifies a`live
      ensures a.Valid() && a.live == keep
    {
      var i := 0;
      while i < numPages
        invariant 0 <= i <= n && a.Valid()
        invariant a.live == keep + Span(table.id, table.id + 2) + Span(table.id + 2 + i, table.id + 2 + n)
        decreases numPages - i
      {
        if i < n {
          EntryIsPresent(pages[i].dma);
        } else {
          EntryIsPresent(0);
        }
        if Present(entries[i]) {
          a.Free(pages[i].id);
        } else {
          break;
        }
        i := i + 1;
      }
      a.Free(list.id);
      a.Free(table.id);
    }

    /** Frees a complete table: what is live afterwards is what was live without it. */
    method Free(a: Allocator)
      requires a.Valid() && Valid() && Parts() <= a.live
      modifies a`live
      ensures a.Valid() && a.live == old(a.live) - Parts()
    {
      Dismantle(a, numPages, a.live - Parts());
    }
  }

  /** A buffer accepted by the create ioctl needs no more entries than the table has. */
  lemma EntriesFit(size: nat)
    ensures size <= MAX_BUFFER_SIZE <==> NumPages(size) <= 1024
  {
  }

  /** Building a table and freeing it leaves the live allocations as they were, whether or not it could be built. */
  method BuildAndFree(a: Allocator, size: nat) returns (built: bool)
    requires a.Valid() && size <= MAX_BUFFER_SIZE
    modifies a
    ensures a.Valid() && a.live == old(a.live)
  {
    var t := new Table();
    built := t.Init(a, size);
    if built {
      t.Free(a);
    }
  }
}
