/**
 * The view projector of the home page: the pure expressions over the in-memory
 * collections and items that decide what the grid shows.
 */
module Projection {
  import opened Wrappers
  import opened Entities
  import opened CollectionFilter

  /** The page's two view modes, `'items' | 'collections'`. */
  datatype View = ItemsView | CollectionsView

  /**
   * JavaScript truthiness of `selectedCollection: string | null`: null and the empty
   * string both count as "no selection".
   */
  predicate HasSelection(selected: Option<string>): (b: bool)
    ensures !b <==> selected == None || selected == Some("")
  {
    selected.Some? && selected.value != ""
  }

  /** `displayedItems`: all items without a selection, else the selected collection's items. */
  function DisplayedItems(items: seq<GalleryItem>, selected: Option<string>): (r: seq<GalleryItem>)
    ensures !HasSelection(selected) ==> r == items
    ensures HasSelection(selected) ==> forall x :: x in r <==> x in items && x.collectionId == selected
  {
    if HasSelection(selected) then InCollection(items, selected.value) else items
  }

  /** A collection card: the collection and `galleryItems.filter(item => item.collectionId === collection.id)`. */
  datatype Group = Group(collection: Collection, items: seq<GalleryItem>)

  /** The grouped view: one group per collection, in the collections' order. */
  function Groups(collections: seq<Collection>, items: seq<GalleryItem>): (r: seq<Group>)
    ensures |r| == |collections|
    ensures forall i :: 0 <= i < |r| ==>
      r[i].collection == collections[i] && r[i].items == InCollection(items, collections[i].id)
  {
    if collections == [] then []
    else [Group(collections[0], InCollection(items, collections[0].id))] + Groups(collections[1..], items)
  }

  /** Each group holds exactly the items whose `collectionId` is its collection's id. */
  lemma GroupMembership(collections: seq<Collection>, items: seq<GalleryItem>, i: nat, x: GalleryItem)
    requires i < |collections|
    ensures x in Groups(collections, items)[i].items <==> x in items && x.collectionId == Some(collections[i].id)
  {
  }

  /** Unfiled items (absent `collectionId`) are in no group. */
  lemma UnfiledInNoGroup(collections: seq<Collection>, items: seq<GalleryItem>, x: GalleryItem)
    requires x.collectionId.None?
    ensures forall g :: g in Groups(collections, items) ==> x !in g.items
  {
  }

  /** `collections.find(c => c.id === id)`: the first collection with that id. */
  function FindCollection(collections: seq<Collection>, id: string): (r: Option<Collection>)
    ensures r.None? <==> forall c :: c in collections ==> c.id != id
    ensures r.Some? ==> r.value in collections && r.value.id == id
  {
    if collections == [] then None
    else if collections[0].id == id then Some(collections[0])
    else FindCollection(collections[1..], id)
  }

  /** `find` returns the first match, not just any. */
  lemma {:induction false} FindCollectionIsFirst(collections: seq<Collection>, id: string, i: nat)
    requires i < |collections| && collections[i].id == id
    requires forall j :: 0 <= j < i ==> collections[j].id != id
    ensures FindCollection(collections, id) == Some(collections[i])
  {
    if i > 0 {
      FindCollectionIsFirst(collections[1..], id, i - 1);
    }
  }

  /** `selectedCollectionData`: the collection a selection names, if any. */
  function SelectedCollectionData(collections: seq<Collection>, selected: Option<string>): (r: Option<Collection>)
    ensures !HasSelection(selected) ==> r.None?
    ensures r.Some? ==> r.value in collections && Some(r.value.id) == selected
  {
    if HasSelection(selected) then FindCollection(collections, selected.value) else None
  }

  /** The collection header (back button and name) shows only for a selection naming a known collection. */
  predicate ShowsCollectionHeader(collections: seq<Collection>, selected: Option<string>): (b: bool)
    ensures b <==> selected != Some("") && exists c :: c in collections && Some(c.id) == selected
  {
    HasSelection(selected) && SelectedCollectionData(collections, selected).Some?
  }

  /** A dangling selection (no collection has that id) shows no header. */
  lemma DanglingSelectionShowsNoHeader(collections: seq<Collection>, selected: Option<string>)
    requires forall c :: c in collections ==> Some(c.id) != selected
    ensures !ShowsCollectionHeader(collections, selected)
  {
  }

  /** What the gallery grid renders. */
  datatype Grid = ItemCards(items: seq<GalleryItem>) | CollectionCards(groups: seq<Group>) | Blank

  /** The grid content decided by the view and the selection (the three guarded fragments of the grid). */
  function GridContent(view: View, selected: Option<string>, collections: seq<Collection>, items: seq<GalleryItem>)
    : (g: Grid)
    ensures view == ItemsView && !HasSelection(selected) ==> g == ItemCards(items)
    ensures view == CollectionsView && !HasSelection(selected) ==>
      && g.CollectionCards?
      && |g.groups| == |collections|
      && forall i :: 0 <= i < |collections| ==> g.groups[i].collection == collections[i]
    ensures view == CollectionsView && HasSelection(selected) ==>
      && g.ItemCards?
      && forall x :: x in g.items <==> x in items && x.collectionId == selected
    ensures view == ItemsView && HasSelection(selected) ==> g == Blank
  {
    if view == ItemsView && !HasSelection(selected) then ItemCards(DisplayedItems(items, selected))
    else if view == CollectionsView && !HasSelection(selected) then CollectionCards(Groups(collections, items))
    else if view == CollectionsView && HasSelection(selected) then ItemCards(DisplayedItems(items, selected))
    else Blank
  }
}
