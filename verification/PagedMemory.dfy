/**
 The paged key-value cache: every KV cache group of a request names its pages in a block table, and a
 forward reads and writes positions through that table alone.
 */
module PagedMemory {
  import opened Runtime

  type PageSize = n: nat | n > 0 witness 1

  /** Page ids, per KV cache group. */
  type BlockTable = seq<seq<nat>>

  datatype Slot = Slot(group: nat, page: nat, offset: nat)

  type Memory = map<Slot, Token>

  /** Block tables are padded with page 0. */
  function PageAt(pages: seq<nat>, k: nat): nat {
    if k < |pages| then pages[k] else 0
  }

  function SlotAt(size: PageSize, table: BlockTable, g: nat, position: nat): Slot
    requires g < |table|
  {
    Slot(g, PageAt(table[g], position / size), position % size)
  }

  function Read(memory: Memory, slot: Slot): Token {
    GetOr(memory, slot, 0)
  }

  /** What one group holds at the first `n` positions. */
  function ContextOf(size: PageSize, memory: Memory, table: BlockTable, g: nat, n: nat): seq<Token>
    requires g < |table|
  {
    seq(n, p requires 0 <= p < n => Read(memory, SlotAt(size, table, g, p)))
  }

  /** What a forward at position `n - 1` attends to, group by group. */
  function Attended(size: PageSize, memory: Memory, table: BlockTable, n: nat): seq<seq<Token>> {
    seq(|table|, g requires 0 <= g < |table| => ContextOf(size, memory, table, g, n))
  }

  /** The same text in every group. */
  function Everywhere(groups: nat, text: seq<Token>): seq<seq<Token>> {
    seq(groups, _ => text)
  }

  /** Every group holds the text, position by position. */
  ghost predicate Holds(size: PageSize, memory: Memory, table: BlockTable, text: seq<Token>) {
    forall g, p :: 0 <= g < |table| && 0 <= p < |text| ==> Read(memory, SlotAt(size, table, g, p)) == text[p]
  }

  lemma HoldsPrefix(size: PageSize, memory: Memory, table: BlockTable, text: seq<Token>, n: nat)
    requires Holds(size, memory, table, text) && n <= |text|
    ensures Holds(size, memory, table, text[..n])
    ensures Attended(size, memory, table, n) == Everywhere(|table|, text[..n])
  {
    forall g | 0 <= g < |table| ensures ContextOf(size, memory, table, g, n) == text[..n] {
      assert forall p :: 0 <= p < n ==> Read(memory, SlotAt(size, table, g, p)) == text[p];
    }
  }

  // ----- tables -----

  /** A table names distinct pages for the first `n` positions of every group. */
  ghost predicate Paged(size: PageSize, groups: nat, table: BlockTable, n: nat) {
    && |table| == groups
    && forall g :: 0 <= g < groups ==> Distinct(table[g]) && n <= size * |table[g]|
  }

  ghost predicate Extends(table: BlockTable, longer: BlockTable) {
    |table| == |longer| && forall g :: 0 <= g < |table| ==> table[g] <= longer[g]
  }

  lemma PageIndex(size: PageSize, length: nat, position: nat)
    requires position < size * length
    ensures position / size < length && position == size * (position / size) + position % size
  {
    var k := position / size;
    assert position == size * k + position % size;
    if k >= length { Larger(size, length, k); }
  }

  lemma Larger(size: nat, a: nat, b: nat)
    requires a <= b
    ensures size * a <= size * b
  {
  }

  lemma ExtendedHolds(size: PageSize, memory: Memory, groups: nat, table: BlockTable, longer: BlockTable, text: seq<Token>)
    requires Paged(size, groups, table, |text|) && Extends(table, longer) && Holds(size, memory, table, text)
    ensures Holds(size, memory, longer, text)
  {
    forall g, p | 0 <= g < |longer| && 0 <= p < |text| ensures Read(memory, SlotAt(size, longer, g, p)) == text[p] {
      PageIndex(size, |table[g]|, p);
      assert SlotAt(size, longer, g, p) == SlotAt(size, table, g, p);
    }
  }

  /** Two covered positions share a slot only if they are the same. */
  lemma SlotsDiffer(size: PageSize, groups: nat, table: BlockTable, n: nat, g: nat, p: nat, q: nat)
    requires Paged(size, groups, table, n) && g < groups && p < n && q < n
    requires SlotAt(size, table, g, p) == SlotAt(size, table, g, q)
    ensures p == q
  {
    PageIndex(size, |table[g]|, p);
    PageIndex(size, |table[g]|, q);
  }

  // ----- what a step writes -----

  /** One row of a step: tokens at positions, through a table. A negative position is not written. */
  datatype Write = Write(table: BlockTable, tokens: seq<Token>, positions: seq<int>)

  ghost predicate WritesAt(size: PageSize, w: Write, g: nat, j: nat, slot: Slot, token: Token) {
    && g < |w.table| && j < |w.tokens| && j < |w.positions| && 0 <= w.positions[j]
    && SlotAt(size, w.table, g, w.positions[j]) == slot && w.tokens[j] == token
  }

  ghost predicate Writes(size: PageSize, w: Write, slot: Slot, token: Token) {
    exists g: nat, j: nat :: WritesAt(size, w, g, j, slot, token)
  }

  /** The memory after a step: a slot somebody wrote holds something written to it, every other is unchanged. */
  ghost predicate Stored(size: PageSize, before: Memory, after: Memory, writes: seq<Write>) {
    forall slot :: StoredAt(size, before, after, writes, slot)
  }

  ghost predicate StoredAt(size: PageSize, before: Memory, after: Memory, writes: seq<Write>, slot: Slot) {
    || (exists i :: 0 <= i < |writes| && Writes(size, writes[i], slot, Read(after, slot)))
    || (Read(after, slot) == Read(before, slot) && forall i, t :: 0 <= i < |writes| ==> !Writes(size, writes[i], slot, t))
  }

  /** The row writes to no page of the table. */
  ghost predicate KeepsOut(size: PageSize, w: Write, table: BlockTable) {
    forall g, j :: 0 <= g < |w.table| && g < |table| && 0 <= j < |w.tokens| && j < |w.positions| && 0 <= w.positions[j] ==>
      PageAt(w.table[g], w.positions[j] / size) !in table[g]
  }

  lemma KeptOut(size: PageSize, w: Write, groups: nat, table: BlockTable, n: nat, g: nat, p: nat, token: Token)
    requires KeepsOut(size, w, table) && Paged(size, groups, table, n) && g < groups && p < n
    ensures !Writes(size, w, SlotAt(size, table, g, p), token)
  {
    PageIndex(size, |table[g]|, p);
    var slot := SlotAt(size, table, g, p);
    assert slot.page in table[g];
    forall h: nat, j: nat ensures !WritesAt(size, w, h, j, slot, token) {}
  }

  /** A text nobody writes into stays. */
  lemma UntouchedHolds(size: PageSize, before: Memory, after: Memory, writes: seq<Write>, groups: nat, table: BlockTable, text: seq<Token>)
    requires Stored(size, before, after, writes) && Paged(size, groups, table, |text|) && Holds(size, before, table, text)
    requires forall i :: 0 <= i < |writes| ==> KeepsOut(size, writes[i], table)
    ensures Holds(size, after, table, text)
  {
    forall g, p | 0 <= g < |table| && 0 <= p < |text| ensures Read(after, SlotAt(size, table, g, p)) == text[p] {
      var slot := SlotAt(size, table, g, p);
      assert StoredAt(size, before, after, writes, slot);
      forall i | 0 <= i < |writes| ensures !Writes(size, writes[i], slot, Read(after, slot)) {
        KeptOut(size, writes[i], groups, table, |text|, g, p, Read(after, slot));
      }
    }
  }

  /** The row writes consecutive positions from `start` on. */
  ghost predicate Consecutive(w: Write, start: nat) {
    |w.tokens| == |w.positions| && forall j :: 0 <= j < |w.positions| ==> w.positions[j] == start + j
  }

  lemma OwnSlot(size: PageSize, w: Write, groups: nat, start: nat, g: nat, p: nat, token: Token)
    requires Consecutive(w, start) && Paged(size, groups, w.table, start + |w.tokens|) && g < groups && p < start + |w.tokens|
    requires Writes(size, w, SlotAt(size, w.table, g, p), token)
    ensures start <= p && token == w.tokens[p - start]
  {
    var slot := SlotAt(size, w.table, g, p);
    var h: nat, j: nat :| WritesAt(size, w, h, j, slot, token);
    assert h == g;
    SlotsDiffer(size, groups, w.table, start + |w.tokens|, g, w.positions[j], p);
  }

  /** A row that continues its own text where nobody else writes leaves the longer text. */
  lemma ContinuedHolds(size: PageSize, before: Memory, after: Memory, writes: seq<Write>, groups: nat, own: nat, text: seq<Token>)
    requires own < |writes| && Consecutive(writes[own], |text|) && Stored(size, before, after, writes)
    requires Paged(size, groups, writes[own].table, |text| + |writes[own].tokens|) && Holds(size, before, writes[own].table, text)
    requires forall i :: 0 <= i < |writes| && i != own ==> KeepsOut(size, writes[i], writes[own].table)
    ensures Holds(size, after, writes[own].table, text + writes[own].tokens)
  {
    var w, n := writes[own], |text| + |writes[own].tokens|;
    forall g, p | 0 <= g < |w.table| && 0 <= p < n
      ensures Read(after, SlotAt(size, w.table, g, p)) == (text + w.tokens)[p]
    {
      ContinuedAt(size, before, after, writes, groups, own, text, g, p);
    }
  }

  lemma ContinuedAt(size: PageSize, before: Memory, after: Memory, writes: seq<Write>, groups: nat, own: nat, text: seq<Token>,
                    g: nat, p: nat)
    requires own < |writes| && Consecutive(writes[own], |text|) && Stored(size, before, after, writes)
    requires Paged(size, groups, writes[own].table, |text| + |writes[own].tokens|) && Holds(size, before, writes[own].table, text)
    requires forall i :: 0 <= i < |writes| && i != own ==> KeepsOut(size, writes[i], writes[own].table)
    requires g < groups && p < |text| + |writes[own].tokens|
    ensures Read(after, SlotAt(size, writes[own].table, g, p)) == (text + writes[own].tokens)[p]
  {
    var w, slot, n := writes[own], SlotAt(size, writes[own].table, g, p), |text| + |writes[own].tokens|;
    assert StoredAt(size, before, after, writes, slot);
    if p >= |text| {
      assert WritesAt(size, w, g, p - |text|, slot, w.tokens[p - |text|]);
      assert Writes(size, writes[own], slot, w.tokens[p - |text|]);
    }
    if i :| 0 <= i < |writes| && Writes(size, writes[i], slot, Read(after, slot)) {
      if i == own {
        OwnSlot(size, w, groups, |text|, g, p, Read(after, slot));
      } else {
        KeptOut(size, writes[i], groups, w.table, n, g, p, Read(after, slot));
      }
    }
  }

  // ----- a page that is somebody else's -----

  /** A table that starts with a page its request no longer owns reads what the page's owner writes there:
      here the request's own page is 2, page 1 is another's, and that one's token is what position 0 reads. */
  lemma StalePageIsForeign(before: Memory, after: Memory)
    requires Stored(4, before, after, [Write([[1]], [9], [0])])
    ensures Attended(4, after, [[1, 2]], 1) == [[9]]
    ensures !KeepsOut(4, Write([[1]], [9], [0]), [[1, 2]]) && KeepsOut(4, Write([[1]], [9], [0]), [[2]])
  {
    var w := Write([[1]], [9], [0]);
    var slot := Slot(0, 1, 0);
    assert SlotAt(4, w.table, 0, 0) == slot == SlotAt(4, [[1, 2]], 0, 0);
    assert WritesAt(4, w, 0, 0, slot, 9);
    assert Writes(4, [w][0], slot, 9);
    assert StoredAt(4, before, after, [w], slot);
    assert ContextOf(4, after, [[1, 2]], 0, 1) == [9];
    assert PageAt(w.table[0], w.positions[0] / 4) in [[1, 2]][0];
  }
}
