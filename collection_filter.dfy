/**
 * The one filter both the query layer and the home page apply to items: keep the items
 * of one collection, by strict equality of `collectionId`.
 */
module CollectionFilter {
  import opened Wrappers
  import opened Entities

  /** `items.filter(item => item.collectionId === c)`: an absent `collectionId` never matches. */
  function InCollection(items: seq<GalleryItem>, c: string): (r: seq<GalleryItem>)
    ensures |r| <= |items|
    ensures forall x :: x in r <==> x in items && x.collectionId == Some(c)
  {
    if items == [] then []
    else if items[0].collectionId == Some(c) then [items[0]] + InCollection(items[1..], c)
    else InCollection(items[1..], c)
  }

  /** Filtering distributes over concatenation: the filter keeps the relative order of the items. */
  lemma {:induction false} InCollectionAppend(a: seq<GalleryItem>, b: seq<GalleryItem>, c: string)
    ensures InCollection(a + b, c) == InCollection(a, c) + InCollection(b, c)
  {
    if a == [] {
      assert a + b == b;
    } else {
      assert (a + b)[1..] == a[1..] + b;
      InCollectionAppend(a[1..], b, c);
    }
  }

  /** The filter keeps every matching item as often as it occurs, and nothing else. */
  lemma {:induction false} InCollectionCounts(items: seq<GalleryItem>, c: string, x: GalleryItem)
    ensures multiset(InCollection(items, c))[x] == if x.collectionId == Some(c) then multiset(items)[x] else 0
  {
    if items != [] {
      InCollectionCounts(items[1..], c, x);
      assert items == [items[0]] + items[1..];
    }
  }

  /** Filtering twice by the same collection is filtering once. */
  lemma {:induction false} InCollectionIdempotent(items: seq<GalleryItem>, c: string)
    ensures InCollection(InCollection(items, c), c) == InCollection(items, c)
  {
    if items != [] {
      InCollectionIdempotent(items[1..], c);
    }
  }
}
