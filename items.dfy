/**
 * `get_all_items`: a fixed catalogue of one hundred placeholder items, paged
 * with a Python list slice `all_items[offset : offset + limit]`.
 */
module Items {
  import opened PyString

  datatype Item = Item(id: int, name: string)

  datatype PaginatedItemsResponse = PaginatedItemsResponse(
    items: seq<Item>, total: int, limit: int, offset: int)

  /** The size of the catalogue, `range(1, 101)`. */
  const CatalogueSize: nat := 100

  /** `{"id": i, "name": f"Item {i}"}`. */
  function MakeItem(id: nat): Item {
    Item(id, "Item " + NatToString(id))
  }

  /** The list comprehension: item `k` of the catalogue has id `k + 1`. */
  function AllItems(): (r: seq<Item>)
    ensures |r| == CatalogueSize
    ensures forall k :: 0 <= k < |r| ==> r[k] == MakeItem(k + 1)
  {
    seq(CatalogueSize, k requires 0 <= k => MakeItem(k + 1))
  }

  /** How a Python slice bound is read against a sequence of length `n`: a negative bound
      counts from the end, and the result is clamped to `0..n`. */
  function SliceBound(i: int, n: nat): (k: nat)
    ensures k <= n
    ensures 0 <= i <= n ==> k == i
    ensures i > n ==> k == n
    ensures i < 0 ==> k == if -i <= n then n + i else 0
  {
    if i < 0 then (if i + n < 0 then 0 else i + n) else if i > n then n else i
  }

  /** `s[a:b]` with Python's rules: the elements from the lower bound up to, and not
      including, the upper one, or nothing when the bounds cross. */
  function PySlice<T>(s: seq<T>, a: int, b: int): (r: seq<T>)
    ensures |r| <= |s|
  {
    var lo := SliceBound(a, |s|);
    var hi := SliceBound(b, |s|);
    if lo < hi then s[lo..hi] else []
  }

  /** `get_all_items`: the slice of the catalogue, its full size, and the request's limit
      and offset echoed back. */
  function GetAllItems(limit: int, offset: int): (r: PaginatedItemsResponse)
    ensures r.total == CatalogueSize
    ensures r.limit == limit && r.offset == offset
    ensures |r.items| <= CatalogueSize
  {
    PaginatedItemsResponse(PySlice(AllItems(), offset, offset + limit), |AllItems()|, limit, offset)
  }

  function Min(a: int, b: int): int { if a <= b then a else b }
  function Max(a: int, b: int): int { if a <= b then b else a }

  /** With a non-negative limit and offset the page holds `max(0, min(limit, 100 - offset))`
      items, and item `i` of the page is catalogue entry `offset + i + 1`. */
  lemma PageSpec(limit: int, offset: int)
    requires limit >= 0 && offset >= 0
    ensures |GetAllItems(limit, offset).items| == Max(0, Min(limit, CatalogueSize - offset))
    ensures forall i :: 0 <= i < |GetAllItems(limit, offset).items| ==>
              GetAllItems(limit, offset).items[i] == MakeItem(offset + i + 1)
  {
  }

  /** An item's name spells its id. */
  lemma ItemNamesSpellIds(limit: int, offset: int, i: int)
    requires 0 <= i < |GetAllItems(limit, offset).items|
    ensures var it := GetAllItems(limit, offset).items[i];
            it.id >= 1 && it.name == "Item " + NatToString(it.id)
  {
    var all := AllItems();
    var lo := SliceBound(offset, |all|);
    var hi := SliceBound(offset + limit, |all|);
    assert GetAllItems(limit, offset).items[i] == all[lo + i];
  }

  /** Two consecutive pages make up the page that spans both. */
  lemma PagesConcatenate(offset: int, l1: int, l2: int)
    requires offset >= 0 && l1 >= 0 && l2 >= 0
    ensures GetAllItems(l1, offset).items + GetAllItems(l2, offset + l1).items
            == GetAllItems(l1 + l2, offset).items
  {
    PageSpec(l1, offset);
    PageSpec(l2, offset + l1);
    PageSpec(l1 + l2, offset);
    var a := GetAllItems(l1, offset).items;
    var b := GetAllItems(l2, offset + l1).items;
    var c := GetAllItems(l1 + l2, offset).items;
    assert |a + b| == |c|;
    forall i | 0 <= i < |c|
      ensures (a + b)[i] == c[i]
    {
      if i >= |a| {
        assert (a + b)[i] == b[i - |a|];
      }
    }
  }

  /** The default page, `limit=10, offset=0`, is items 1 to 10; and an offset at or past the
      end gives an empty page that still reports the full total. */
  lemma DefaultPage()
    ensures |GetAllItems(10, 0).items| == 10
    ensures GetAllItems(10, 0).items[0] == MakeItem(1)
    ensures GetAllItems(10, 0).items[9] == MakeItem(10)
  {
    PageSpec(10, 0);
  }

  lemma PastTheEnd(limit: int, offset: int)
    requires limit >= 0 && offset >= CatalogueSize
    ensures GetAllItems(limit, offset).items == []
    ensures GetAllItems(limit, offset).total == 100
  {
    PageSpec(limit, offset);
  }

  /** A negative offset counts from the end of the catalogue, as Python slices do:
      offset -10 with limit 5 gives items 91 to 95. */
  lemma NegativeOffset()
    ensures |GetAllItems(5, -10).items| == 5
    ensures forall i :: 0 <= i < 5 ==> GetAllItems(5, -10).items[i] == MakeItem(91 + i)
  {
    var all := AllItems();
    assert SliceBound(-10, |all|) == 90 && SliceBound(-5, |all|) == 95;
    assert GetAllItems(5, -10).items == all[90..95];
  }
}
