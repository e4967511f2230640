/** Bank tables: an address is split by masks and shifts into a slot and an offset, and the slot
  names a page. The lemmas relate the masks to division, for every number of pages. */
module MemBanks {
  import opened Bits
  import opened Words

  /** The page that a bank number selects: it is masked with one less than the number of pages. */
  function PageOf(bank: nat, pageCount: nat): (page: nat)
    requires pageCount > 0
    ensures page < pageCount
  {
    AndBelow(bank, pageCount - 1);
    And(bank, pageCount - 1)
  }

  /** The table after consecutive pages from `page` on are put into the slots `start` to `end`. */
  function Ranged(pages: seq<nat>, start: nat, end: nat, page: nat): (r: seq<nat>)
    requires start <= end < |pages|
    ensures |r| == |pages|
    ensures forall i :: 0 <= i < |r| ==> r[i] == if start <= i <= end then page + (i - start) else pages[i]
  {
    seq(|pages|, i requires 0 <= i < |pages| => if start <= i <= end then page + (i - start) else pages[i])
  }

  lemma Times(a: int, b: int, w: int)
    ensures (a + b) * w == a * w + b * w
    ensures (a + 1) * w == a * w + w
  {
  }

  lemma TimesBelow(a: int, b: int, w: int)
    requires w > 0
    ensures a < b ==> a * w < b * w && (a + 1) * w <= b * w
  {
    if a < b {
      assert b * w - a * w == (b - a) * w;
      MultipleGrows(b - a, w);
      Times(a, 1, w);
    }
  }

  lemma {:induction false} NonNegative(a: nat, b: nat)
    ensures a * b >= 0
  {
  }

  /** The window of a region of 2^m bytes, in windows of 2^k, that an address falls into. */
  function SlotOf(addr: nat, m: nat, k: nat): (slot: nat)
    requires k <= m
    ensures slot < Pow2(m - k)
  {
    SlotBelow(addr, m, k);
    addr % Pow2(m) / Pow2(k)
  }

  lemma SlotBelow(a: nat, m: nat, k: nat)
    requires k <= m
    ensures 0 <= a % Pow2(m) / Pow2(k) < Pow2(m - k)
  {
    hide Pow2;
    SplitPow2(m, k);
    var q, w := a % Pow2(m) / Pow2(k), Pow2(k);
    var r := a % Pow2(m) % w;
    assert q * w + r == a % Pow2(m);
    MultipleGrows(q, w);
    Times(q - Pow2(m - k), Pow2(m - k), w);
    MultipleGrows(q - Pow2(m - k) + 1, w);
    Times(q - Pow2(m - k), 1, w);
  }

  /** The whole windows of a memory, but at least one. */
  function PagesIn(capacity: nat, window: nat): (count: nat)
    requires window > 0
    ensures count > 0
  {
    Max(1, capacity / window)
  }

  /** The pages of a new table. */
  function Identity(m: nat, k: nat): seq<nat>
    requires k <= m
  {
    seq(Pow2(m - k), i => i)
  }

  class MemBanks {
    const size: nat
    const window: nat
    const shift: nat
    const mask: nat
    const pageCount: nat
    const banks: array<nat>
    /** The memory behind the table. */
    ghost const capacity: nat
    /** The region has 2^regionBits bytes. */
    ghost const regionBits: nat

    ghost predicate Valid() {
      && shift <= regionBits
      && size == Pow2(regionBits) - 1
      && window == Pow2(shift)
      && pageCount == PagesIn(capacity, window) && mask == pageCount - 1
      && banks.Length == Pow2(regionBits - shift)
    }

    /** Every slot starts with the first byte of the page listed for it. */
    ghost predicate Holds(pages: seq<nat>)
      reads banks
    {
      && |pages| == banks.Length
      && forall i :: 0 <= i < |pages| ==> banks[i] == pages[i] * window
    }

    constructor (start: nat, end: nat, capacity: nat, window: nat, ghost m: nat, ghost k: nat)
      requires k <= m && end - start == Pow2(m) - 1 && window == Pow2(k)
      ensures Valid() && fresh(banks)
      ensures regionBits == m && shift == k && this.capacity == capacity
      ensures pageCount == Max(1, capacity / window)
      ensures Holds(Identity(m, k))
    {
      hide Pow2;
      SplitPow2(m, k);
      TrailingZerosOfPow2(k);
      ModUnique(Pow2(m), Pow2(k), Pow2(m - k), 0);
      this.size := end - start;
      this.window := window;
      regionBits := m;
      this.capacity := capacity;
      shift := TrailingZeros(window);
      pageCount := Max(1, capacity / window);
      mask := Max(1, capacity / window) - 1;
      var table := new nat[(end - start + 1) / window];
      var i := 0;
      while i < table.Length
        invariant 0 <= i <= table.Length && fresh(table)
        invariant forall j :: 0 <= j < i ==> table[j] == j * window
      {
        NonNegative(i, window);
        table[i] := i * window;
        i := i + 1;
      }
      banks := table;
    }

    function StartOf(bank: nat): (start: nat)
      requires Valid()
      ensures start == PageOf(bank, pageCount) * window
    {
      ShiftLeftIsTimes(And(bank, mask), shift);
      ShiftLeft(And(bank, mask), shift)
    }

    method Set(slot: nat, bank: nat, ghost pages: seq<nat>)
      requires Valid() && Holds(pages) && slot < banks.Length
      modifies banks
      ensures Holds(pages[slot := PageOf(bank, pageCount)])
      ensures banks[slot] < pageCount * window
    {
      hide PageOf;
      TimesBelow(PageOf(bank, pageCount), pageCount, window);
      banks[slot] := StartOf(bank);
    }

    method SetRange(start: nat, end: nat, bank: nat, ghost pages: seq<nat>)
      requires Valid() && Holds(pages) && start <= end < banks.Length
      modifies banks
      ensures Holds(Ranged(pages, start, end, PageOf(bank, pageCount)))
    {
      hide Pow2, And, Or, ShiftLeft, PageOf, PagesIn, SlotOf, Max;
      ghost var page := PageOf(bank, pageCount);
      var newAddr := StartOf(bank);
      var slot := start;
      while slot <= end
        invariant start <= slot <= end + 1
        invariant newAddr == (page + (slot - start)) * window
        invariant forall i :: 0 <= i < banks.Length ==>
          banks[i] == (if start <= i < slot then page + (i - start) else pages[i]) * window
      {
        banks[slot] := newAddr;
        Times(page + (slot - start), 1, window);
        newAddr := newAddr + window;
        slot := slot + 1;
      }
    }

    function Last(): (last: nat)
      requires Valid()
      ensures last == pageCount - 1
    {
      Max(0, pageCount - 1)
    }

    function GetBank(addr: nat): (slot: nat)
      requires Valid()
      ensures slot == SlotOf(addr, regionBits, shift)
    {
      AndMask(addr, regionBits);
      ShiftRightIsDivision(addr % Pow2(regionBits), shift);
      ShiftRight(And(addr, size), shift)
    }

    function Translate(addr: nat): nat
      requires Valid()
      reads banks
    {
      Or(banks[GetBank(addr)], And(addr, window - 1))
    }

    /** Masks, shifts and the or amount to a page number times the window plus an offset. */
    lemma TranslateIs(addr: nat, pages: seq<nat>)
      requires Valid() && Holds(pages)
      ensures Translate(addr) == pages[SlotOf(addr, regionBits, shift)] * window + addr % window
    {
      hide Or, And, Pow2, ShiftRight;
      AndMask(addr, shift);
      OrAdds(pages[GetBank(addr)], addr % window, shift);
    }

    /** The address leads into the memory exactly if the page of its slot is there. If the memory is
      smaller than one window, only page 0 is, and only its first bytes are. */
    lemma TranslateInside(addr: nat, pages: seq<nat>)
      requires Valid() && Holds(pages)
      ensures
        var page := pages[SlotOf(addr, regionBits, shift)];
        && (capacity > 0 && capacity % window == 0 ==> (Translate(addr) < capacity <==> page < pageCount))
        && (window <= capacity && page < pageCount ==> Translate(addr) < capacity)
        && (capacity < window ==> (Translate(addr) < capacity <==> page == 0 && addr % window < capacity))
    {
      hide Or, And, Pow2, ShiftRight, SlotOf, Translate, PagesIn;
      TranslateIs(addr, pages);
      PageInMemory(pages[SlotOf(addr, regionBits, shift)], addr % window, window, capacity);
    }
  }

  /** A table over 2^m bytes in windows of 2^k that holds the pages. */
  ghost predicate Table(t: MemBanks, m: nat, k: nat, pages: seq<nat>)
    reads t.banks
  {
    t.Valid() && t.regionBits == m && t.shift == k && t.Holds(pages)
  }

  lemma PageInMemory(page: nat, offset: nat, window: nat, capacity: nat)
    requires offset < window
    ensures
      var byte, count := page * window + offset, PagesIn(capacity, window);
      && (capacity > 0 && capacity % window == 0 ==> (byte < capacity <==> page < count))
      && (window <= capacity && page < count ==> byte < capacity)
      && (capacity < window ==> (byte < capacity <==> page == 0 && offset < capacity))
  {
    var whole := capacity / window;
    assert capacity == whole * window + capacity % window;
    MultipleGrows(whole, window);
    TimesBelow(page, whole, window);
    Times(page, 1, window);
    TimesBelow(whole, page, window);
    MultipleGrows(page, window);
  }

  /** Bank numbers wrap around the memory like a remainder exactly if it has 2^n pages. */
  lemma BanksWrap(pageCount: nat)
    requires pageCount > 0
    ensures (forall bank: nat :: PageOf(bank, pageCount) == bank % pageCount) <==> IsPow2(pageCount)
  {
    hide And, IsPow2;
    MaskIsRemainder(pageCount);
    if forall bank: nat :: PageOf(bank, pageCount) == bank % pageCount {
      forall bank: nat ensures And(bank, pageCount - 1) == bank % pageCount {
        assert PageOf(bank, pageCount) == bank % pageCount;
      }
    }
  }

  lemma Wraps(bank: nat, count: nat)
    requires count > 0 && IsPow2(count)
    ensures PageOf(bank, count) == bank % count
  {
    hide PageOf, IsPow2;
    BanksWrap(count);
  }

  /** Two pages from an even bank on are both there, whatever the bank, exactly if the number of
    pages is even. */
  lemma PairFits(pageCount: nat)
    requires pageCount > 0
    ensures (forall bank: nat :: bank % 2 == 0 ==> PageOf(bank, pageCount) + 1 < pageCount) <==> pageCount % 2 == 0
  {
    if pageCount % 2 == 0 {
      forall bank: nat | bank % 2 == 0 ensures PageOf(bank, pageCount) + 1 < pageCount {
        EvenPageOf(bank, pageCount);
      }
    } else {
      hide And;
      AndSame(pageCount - 1);
      assert (pageCount - 1) % 2 == 0;
      assert PageOf(pageCount - 1, pageCount) + 1 == pageCount;
    }
  }

  lemma EvenPageOf(bank: nat, pageCount: nat)
    requires bank % 2 == 0 && pageCount % 2 == 0 && pageCount > 0
    ensures PageOf(bank, pageCount) % 2 == 0
  {
  }
}
