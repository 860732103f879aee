// Where the parts of a queue lie in the block of memory made for it.
module Layout {
  import opened Residues
  import opened Words

  // Offsets within a queue are 32 bits wide.
  const OFFSET_LIMIT: nat := 0x1_0000_0000

  function Align(offset: nat, alignment: nat): nat {
    if alignment <= 1 then offset else (offset + alignment - 1) / alignment * alignment
  }

  // allocate: the place is aligned, but the running position only moves by the size.
  function Allocated(position: nat, size: nat, alignment: nat): (r: (nat, nat)) {
    (Align(position, alignment) % OFFSET_LIMIT, (position + size % OFFSET_LIMIT) % OFFSET_LIMIT)
  }

  // ---- alignment ----

  function Padding(offset: nat, alignment: nat): nat
    requires alignment > 0
  {
    if offset % alignment == 0 then 0 else alignment - offset % alignment
  }

  // The least multiple at or after the offset.
  lemma AlignPads(offset: nat, alignment: nat)
    requires alignment > 0
    ensures Align(offset, alignment) == offset + Padding(offset, alignment)
    ensures Align(offset, alignment) % alignment == 0
  {
    var q, r := offset / alignment, offset % alignment;
    assert offset == q * alignment + r;
    if alignment > 1 {
      if r == 0 {
        Decompose(q, alignment - 1, alignment);
      } else {
        assert offset + alignment - 1 == (q + 1) * alignment + (r - 1);
        Decompose(q + 1, r - 1, alignment);
        Decompose(q + 1, 0, alignment);
      }
    }
  }

  lemma Distribute(x: nat, y: nat, n: nat)
    ensures (x + y) * n == x * n + y * n
  {
  }

  lemma QuotientAndRest(a: nat, n: nat)
    requires n > 0
    ensures a == a / n * n + a % n
  {
  }

  lemma SumCell(a: nat, b: nat, n: nat)
    requires n > 0
    ensures (a + b) % n == if a % n + b % n < n then a % n + b % n else a % n + b % n - n
  {
    var x, y, r := a / n, b / n, a % n + b % n;
    assert a + b == r + (x + y) * n by {
      QuotientAndRest(a, n);
      QuotientAndRest(b, n);
      Distribute(x, y, n);
    }
    ShiftCell(r, x + y, n);
    if r < n {
      Decompose(0, r, n);
    } else {
      Decompose(1, r - n, n);
    }
  }

  // Because padding is not added to the position, the next object can lie inside the one just allocated. It does not
  // exactly if the position was aligned, or the size is a multiple of the alignment, or the two remainders pass it.
  lemma NextIsApart(position: nat, size: nat, alignment: nat)
    requires alignment > 0 && position + size + alignment < OFFSET_LIMIT
    ensures var (first, next) := Allocated(position, size, alignment);
      var (second, _) := Allocated(next, 1, alignment);
      first + size <= second <==>
        position % alignment == 0 || size % alignment == 0 || position % alignment + size % alignment > alignment
  {
    Small(position, size, alignment);
    AlignPads(position, alignment);
    AlignPads(position + size, alignment);
    PaddingShrinks(position, size, alignment);
  }

  lemma PaddingShrinks(position: nat, size: nat, alignment: nat)
    requires alignment > 0
    ensures Padding(position, alignment) <= Padding(position + size, alignment) <==>
      position % alignment == 0 || size % alignment == 0 || position % alignment + size % alignment > alignment
  {
    SumCell(position, size, alignment);
  }

  // Numbers below the limit are stored as they are.
  lemma Small(position: nat, size: nat, alignment: nat)
    requires alignment > 0 && position + size + alignment < OFFSET_LIMIT
    ensures Allocated(position, size, alignment) == (Align(position, alignment), position + size)
    ensures Align(position + size, alignment) % OFFSET_LIMIT == Align(position + size, alignment)
  {
    AlignPads(position, alignment);
    AlignPads(position + size, alignment);
    Stored(size);
    Stored(position + size);
    Stored(Align(position, alignment));
    Stored(Align(position + size, alignment));
  }

  lemma Stored(n: nat)
    requires n < OFFSET_LIMIT
    ensures n % OFFSET_LIMIT == n
  {
  }

  // From position 40 on, two objects of 8 bytes both land on the line at 64.
  lemma SmallObjectsCollide()
    ensures Allocated(40, 8, CACHE_LINE).0 == 64 == Allocated(Allocated(40, 8, CACHE_LINE).1, 8, CACHE_LINE).0
  {
  }

  class HQAllocator {
    const available: nat
    var position: nat

    constructor (available: nat, initialPosition: nat)
      ensures this.available == available && position == initialPosition
    {
      this.available, position := available, initialPosition;
    }

    method Allocate(size: nat, alignment: nat) returns (location: nat)
      modifies this
      ensures (location, position) == Allocated(old(position), size, alignment)
    {
      location := Align(position, alignment) % OFFSET_LIMIT;
      position := (position + size % OFFSET_LIMIT) % OFFSET_LIMIT;
    }
  }

  // ---- the header of a queue ----

  // header and entry are the sizes of the two objects.
  datatype Sizes = Sizes(header: nat, entry: nat, entryCount: nat) {
    function EntrySize(): nat {
      Align(entry, CACHE_LINE)
    }

    function EntriesSize(): nat {
      EntrySize() * entryCount
    }
  }

  function SpaceNeededForHeader(z: Sizes): nat {
    Align(z.header, CACHE_LINE) + z.EntriesSize() + CACHE_LINE * 3 + CACHE_LINE
  }

  datatype Places = Places(entries: nat, readPosition: nat, publishPosition: nat, reservePosition: nat)

  // Where the constructor of the header puts the parts, one after the other.
  function PlacesOf(z: Sizes): Places {
    var (entries, p1) := Allocated(z.header, z.EntriesSize(), CACHE_LINE);
    var (read, p2) := Allocated(p1, CACHE_LINE, CACHE_LINE);
    var (publish, p3) := Allocated(p2, CACHE_LINE, CACHE_LINE);
    Places(entries, read, publish, Allocated(p3, CACHE_LINE, CACHE_LINE).0)
  }

  // The last of the positions ends within the range of an offset.
  predicate OffsetsSuffice(z: Sizes) {
    Align(z.header, CACHE_LINE) + z.EntriesSize() + 3 * CACHE_LINE <= OFFSET_LIMIT
  }

  class HQHeader {
    var entries: nat
    var readPosition: nat
    var publishPosition: nat
    var reservePosition: nat

    constructor (allocator: HQAllocator, z: Sizes)
      requires allocator.position == z.header
      modifies allocator
      ensures Places(entries, readPosition, publishPosition, reservePosition) == PlacesOf(z)
      ensures OffsetsSuffice(z) ==>
        && z.header <= entries && entries + z.EntriesSize() == readPosition
        && readPosition + CACHE_LINE == publishPosition && publishPosition + CACHE_LINE == reservePosition
    {
      entries, readPosition, publishPosition, reservePosition := 0, 0, 0, 0;
      new;
      entries := allocator.Allocate(z.EntriesSize(), CACHE_LINE);
      readPosition := allocator.Allocate(CACHE_LINE, CACHE_LINE);
      publishPosition := allocator.Allocate(CACHE_LINE, CACHE_LINE);
      reservePosition := allocator.Allocate(CACHE_LINE, CACHE_LINE);
      if OffsetsSuffice(z) {
        PartsInOrder(z);
      }
    }
  }

  lemma MultipleKeepsCell(position: nat, size: nat)
    requires size % CACHE_LINE == 0
    ensures Align(position + size, CACHE_LINE) == Align(position, CACHE_LINE) + size
  {
    assert size == size / CACHE_LINE * CACHE_LINE;
    ShiftCell(position, size / CACHE_LINE, CACHE_LINE);
    AlignPads(position, CACHE_LINE);
    AlignPads(position + size, CACHE_LINE);
  }

  lemma EntriesWholeLines(z: Sizes)
    ensures z.EntrySize() % CACHE_LINE == 0 && z.EntrySize() >= z.entry && z.EntriesSize() % CACHE_LINE == 0
  {
    AlignPads(z.entry, CACHE_LINE);
    var lines := z.EntrySize() / CACHE_LINE;
    assert z.EntrySize() == lines * CACHE_LINE;
    assert z.EntriesSize() == (lines * z.entryCount) * CACHE_LINE;
    Decompose(lines * z.entryCount, 0, CACHE_LINE);
  }

  lemma SumMod(a: nat, b: nat, n: nat)
    requires n > 0
    ensures (a % n + b) % n == (a + b) % n
  {
    QuotientAndRest(a, n);
    ShiftCell(a % n + b, a / n, n);
  }

  // Truncating a position before it is aligned changes nothing, as the range of an offset is a multiple of a line.
  lemma AlignWrapped(position: nat)
    ensures Align(position % OFFSET_LIMIT, CACHE_LINE) % OFFSET_LIMIT == Align(position, CACHE_LINE) % OFFSET_LIMIT
  {
    var q, r := position / OFFSET_LIMIT, position % OFFSET_LIMIT;
    QuotientAndRest(position, OFFSET_LIMIT);
    MultipleKeepsCell(r, q * OFFSET_LIMIT);
    ShiftCell(Align(r, CACHE_LINE), q, OFFSET_LIMIT);
  }

  // The place of an allocation when the exact position would be p: truncated place, truncated next position.
  lemma AllocatedWrapped(p: nat, size: nat)
    ensures Allocated(p % OFFSET_LIMIT, size, CACHE_LINE) ==
      (Align(p, CACHE_LINE) % OFFSET_LIMIT, (p + size) % OFFSET_LIMIT)
  {
    AlignWrapped(p);
    SumMod(size, p % OFFSET_LIMIT, OFFSET_LIMIT);
    SumMod(p, size, OFFSET_LIMIT);
  }

  // The places are those of the parts one behind the other, truncated to 32 bits.
  lemma PlacesWrap(z: Sizes)
    requires z.header < OFFSET_LIMIT
    ensures var l, end := PlacesOf(z), Align(z.header, CACHE_LINE) + z.EntriesSize();
      && l.entries == Align(z.header, CACHE_LINE) % OFFSET_LIMIT
      && l.readPosition == end % OFFSET_LIMIT
      && l.publishPosition == (end + CACHE_LINE) % OFFSET_LIMIT
      && l.reservePosition == (end + 2 * CACHE_LINE) % OFFSET_LIMIT
  {
    var p, n := z.header, z.EntriesSize();
    EntriesWholeLines(z);
    Stored(p);
    AllocatedWrapped(p, n);
    AllocatedWrapped(p + n, CACHE_LINE);
    AllocatedWrapped(p + n + CACHE_LINE, CACHE_LINE);
    AllocatedWrapped(p + n + 2 * CACHE_LINE, CACHE_LINE);
    MultipleKeepsCell(p, n);
    MultipleKeepsCell(p + n, CACHE_LINE);
    MultipleKeepsCell(p + n + CACHE_LINE, CACHE_LINE);
  }

  // Everything lies one behind the other on cache lines, because every size but the header's is a multiple of one.
  lemma PartsInOrder(z: Sizes)
    requires OffsetsSuffice(z)
    ensures var l := PlacesOf(z);
      && l.entries == Align(z.header, CACHE_LINE) && z.header <= l.entries
      && l.readPosition == l.entries + z.EntriesSize()
      && l.publishPosition == l.readPosition + CACHE_LINE
      && l.reservePosition == l.publishPosition + CACHE_LINE
  {
    AlignPads(z.header, CACHE_LINE);
    PlacesWrap(z);
    var end := Align(z.header, CACHE_LINE) + z.EntriesSize();
    Stored(Align(z.header, CACHE_LINE));
    Stored(end);
    Stored(end + CACHE_LINE);
    Stored(end + 2 * CACHE_LINE);
  }

  // ---- exactly when the parts are apart ----

  predicate Apart(a: nat, sizeOfA: nat, b: nat, sizeOfB: nat) {
    a + sizeOfA <= b || b + sizeOfB <= a
  }

  // No two of header, entries and positions share a byte.
  predicate PartsApart(z: Sizes) {
    var l, n := PlacesOf(z), z.EntriesSize();
    && Apart(0, z.header, l.entries, n) && Apart(0, z.header, l.readPosition, CACHE_LINE)
    && Apart(0, z.header, l.publishPosition, CACHE_LINE) && Apart(0, z.header, l.reservePosition, CACHE_LINE)
    && Apart(l.entries, n, l.readPosition, CACHE_LINE) && Apart(l.entries, n, l.publishPosition, CACHE_LINE)
    && Apart(l.entries, n, l.reservePosition, CACHE_LINE)
    && Apart(l.readPosition, CACHE_LINE, l.publishPosition, CACHE_LINE)
    && Apart(l.readPosition, CACHE_LINE, l.reservePosition, CACHE_LINE)
    && Apart(l.publishPosition, CACHE_LINE, l.reservePosition, CACHE_LINE)
  }

  // Where the last position is truncated it falls on the entries or on the header.
  lemma LastWraps(z: Sizes)
    requires 0 < z.header && Align(z.header, CACHE_LINE) < OFFSET_LIMIT && !OffsetsSuffice(z)
    ensures var l := PlacesOf(z);
      !Apart(0, z.header, l.reservePosition, CACHE_LINE)
        || !Apart(l.entries, z.EntriesSize(), l.reservePosition, CACHE_LINE)
  {
    AlignPads(z.header, CACHE_LINE);
    PlacesWrap(z);
    EntriesWholeLines(z);
    var e, n := Align(z.header, CACHE_LINE), z.EntriesSize();
    Stored(e);
    WholeLines(e, n);
    WholeLines(e + n, 2 * CACHE_LINE);
    var last := e + n + 2 * CACHE_LINE;
    NextLine(last);
    WrappedOnLine(last);
    var r := last % OFFSET_LIMIT;
    if r < e {
      LineBefore(r, e);
    } else if e + n < OFFSET_LIMIT {
      WrappedOnce(last);
    }
  }

  // A multiple of a line that is above the limit less one line is at or above the limit.
  lemma NextLine(last: nat)
    requires last % CACHE_LINE == 0 && last + CACHE_LINE > OFFSET_LIMIT
    ensures last >= OFFSET_LIMIT
  {
  }

  lemma WrappedOnLine(last: nat)
    requires last % CACHE_LINE == 0
    ensures (last % OFFSET_LIMIT) % CACHE_LINE == 0
  {
    QuotientAndRest(last, OFFSET_LIMIT);
    OnLine(last / OFFSET_LIMIT, OFFSET_LIMIT);
    SumCell(last / OFFSET_LIMIT * OFFSET_LIMIT, last % OFFSET_LIMIT, CACHE_LINE);
  }

  lemma LineBefore(a: nat, b: nat)
    requires a % CACHE_LINE == 0 && b % CACHE_LINE == 0 && a < b
    ensures a + CACHE_LINE <= b
  {
  }

  lemma WrappedOnce(n: nat)
    requires OFFSET_LIMIT <= n < 2 * OFFSET_LIMIT
    ensures n % OFFSET_LIMIT == n - OFFSET_LIMIT
  {
    Decompose(1, n - OFFSET_LIMIT, OFFSET_LIMIT);
  }

  // The parts of the queue are apart exactly if the last of them ends within the range of an offset.
  lemma PartsApartExactly(z: Sizes)
    requires 0 < z.header && Align(z.header, CACHE_LINE) < OFFSET_LIMIT
    ensures PartsApart(z) <==> OffsetsSuffice(z)
  {
    if OffsetsSuffice(z) {
      PartsInOrder(z);
    } else {
      LastWraps(z);
    }
  }

  // Wherever the block of memory lies: the header starts on a cache line, the parts are on cache lines behind one
  // another, and the last ends inside the block.
  lemma HeaderFits(block: nat, z: Sizes)
    requires OffsetsSuffice(z)
    ensures var base, l := Align(block, CACHE_LINE), PlacesOf(z);
      && base % CACHE_LINE == 0 && (base + l.entries) % CACHE_LINE == 0 && (base + l.readPosition) % CACHE_LINE == 0
      && (base + l.publishPosition) % CACHE_LINE == 0 && (base + l.reservePosition) % CACHE_LINE == 0
      && block <= base && z.header <= l.entries && l.entries + z.EntriesSize() <= l.readPosition
      && l.readPosition + CACHE_LINE <= l.publishPosition && l.publishPosition + CACHE_LINE <= l.reservePosition
      && base + l.reservePosition + CACHE_LINE <= block + SpaceNeededForHeader(z)
  {
    PartsInOrder(z);
    AlignPads(block, CACHE_LINE);
    AlignPads(z.header, CACHE_LINE);
    EntriesWholeLines(z);
    var base, l := Align(block, CACHE_LINE), PlacesOf(z);
    WholeLines(base, l.entries);
    WholeLines(base + l.entries, z.EntriesSize());
    WholeLines(base + l.readPosition, CACHE_LINE);
    WholeLines(base + l.publishPosition, CACHE_LINE);
  }

  lemma WholeLines(a: nat, b: nat)
    requires a % CACHE_LINE == 0 && b % CACHE_LINE == 0
    ensures (a + b) % CACHE_LINE == 0
  {
    SumCell(a, b, CACHE_LINE);
  }

  // Each entry has its own cache lines inside the array.
  lemma EntriesApart(z: Sizes, i: nat, j: nat)
    requires i < j < z.entryCount
    ensures i * z.EntrySize() + z.entry <= j * z.EntrySize() && j * z.EntrySize() + z.entry <= z.EntriesSize()
    ensures (i * z.EntrySize()) % CACHE_LINE == 0
  {
    EntriesWholeLines(z);
    InOrder(i, j, z.EntrySize());
    InOrder(j, z.entryCount, z.EntrySize());
    OnLine(i, z.EntrySize());
  }

  lemma InOrder(i: nat, j: nat, size: nat)
    requires i < j
    ensures i * size + size <= j * size
  {
    assert (i + 1) * size <= j * size;
  }

  lemma OnLine(k: nat, size: nat)
    requires size % CACHE_LINE == 0
    ensures (k * size) % CACHE_LINE == 0
  {
    var lines := size / CACHE_LINE;
    assert k * size == (k * lines) * CACHE_LINE;
    Decompose(k * lines, 0, CACHE_LINE);
  }

  // For example, an array of entries as large as the range of an offset: the read position falls on the first entry.
  lemma WideQueueOverlaps(z: Sizes)
    requires z.EntriesSize() == OFFSET_LIMIT && Align(z.header, CACHE_LINE) < OFFSET_LIMIT
    ensures PlacesOf(z).readPosition == PlacesOf(z).entries && !OffsetsSuffice(z)
  {
    AlignPads(z.header, CACHE_LINE);
    PlacesWrap(z);
    ShiftCell(Align(z.header, CACHE_LINE), 1, OFFSET_LIMIT);
  }
}
