/**
 * The home page's state and its handlers: the view mode, the selected collection, the
 * palette index, and the in-memory collections and items that the projector reads.
 */
module Home {
  import opened Wrappers
  import opened Entities
  import opened Store
  import opened Projection
  import opened GalleryItems
  import opened Collections
  import opened AddItem

  /** `(prev + 1) % colorPalettes.length`: the next palette, wrapping to the first after the last. */
  function NextPaletteIndex(i: nat, count: nat): (j: nat)
    requires count > 0
    ensures j < count
    ensures i + 1 < count ==> j == i + 1
    ensures i + 1 == count ==> j == 0
  {
    (i + 1) % count
  }

  /** The palette index after `k` refreshes. */
  function AfterRefreshes(i: nat, count: nat, k: nat): nat
    requires count > 0
  {
    if k == 0 then i else NextPaletteIndex(AfterRefreshes(i, count, k - 1), count)
  }

  /** Refreshing `a + b` times is refreshing `a` times, then `b` times. */
  lemma {:induction false} RefreshesCompose(i: nat, count: nat, a: nat, b: nat)
    requires count > 0
    ensures AfterRefreshes(i, count, a + b) == AfterRefreshes(AfterRefreshes(i, count, a), count, b)
  {
    if b > 0 {
      RefreshesCompose(i, count, a, b - 1);
    }
  }

  /** Before the wrap-around, each refresh moves to the next palette. */
  lemma {:induction false} RefreshesClimb(i: nat, count: nat, k: nat)
    requires i + k < count
    ensures AfterRefreshes(i, count, k) == i + k
  {
    if k > 0 {
      RefreshesClimb(i, count, k - 1);
    }
  }

  /** Refreshing once per palette comes back to the palette one started from. */
  lemma PaletteCycleReturns(i: nat, count: nat)
    requires i < count
    ensures AfterRefreshes(i, count, count) == i
  {
    RefreshesClimb(i, count, count - 1 - i);
    assert AfterRefreshes(i, count, count - i) == 0;
    RefreshesClimb(0, count, i);
    RefreshesCompose(i, count, count - i, i);
  }

  /** The page state of `Home`; `paletteCount` is `colorPalettes.length`. */
  class HomePage {
    const paletteCount: nat
    var view: View
    var selectedCollection: Option<string>
    var paletteIndex: nat
    var collections: seq<Collection>
    var galleryItems: seq<GalleryItem>

    /** The current palette `colorPalettes[paletteIndex]` exists. */
    predicate Valid()
      reads this
    {
      paletteIndex < paletteCount
    }

    /** The initial state: items view, no selection, the first palette, nothing loaded. */
    constructor (paletteCount: nat)
      requires paletteCount > 0
      ensures Valid() && this.paletteCount == paletteCount
      ensures view == ItemsView && selectedCollection.None? && paletteIndex == 0
      ensures collections == [] && galleryItems == []
    {
      this.paletteCount := paletteCount;
      view := ItemsView;
      selectedCollection := None;
      paletteIndex := 0;
      collections := [];
      galleryItems := [];
    }

    /** What the grid shows in the current state. */
    function Grid(): (g: Grid)
      reads this
      ensures g.ItemCards? ==> forall x :: x in g.items ==> x in galleryItems
      ensures g.CollectionCards? ==> |g.groups| == |collections|
      ensures g.Blank? <==> view == ItemsView && HasSelection(selectedCollection)
    {
      GridContent(view, selectedCollection, collections, galleryItems)
    }

    /**
     * `loadData` once both fetches have settled: on success the two lists are replaced
     * wholesale by the fetched ones; on a failure they are left as they were.
     */
    method LoadData(db: Database) returns (loaded: bool)
      modifies this`collections, this`galleryItems
      ensures loaded <==> db.fault.None?
      ensures loaded ==> collections == FetchCollections(db).value && galleryItems == FetchGalleryItems(db).value
      ensures !loaded ==> collections == old(collections) && galleryItems == old(galleryItems)
    {
      var cs := FetchCollections(db);
      var items := FetchGalleryItems(db);
      loaded := cs.Success? && items.Success?;
      if loaded {
        collections := cs.value;
        galleryItems := items.value;
      }
    }

    /** `handleRefreshPalette`: the next palette, wrapping around. */
    method HandleRefreshPalette()
      requires Valid()
      modifies this`paletteIndex
      ensures Valid()
      ensures paletteIndex == NextPaletteIndex(old(paletteIndex), paletteCount)
    {
      paletteIndex := (paletteIndex + 1) % paletteCount;
    }

    /** `handleCollectionClick`: select the clicked collection; the view is unchanged. */
    method HandleCollectionClick(collectionId: string)
      modifies this`selectedCollection
      ensures selectedCollection == Some(collectionId)
    {
      selectedCollection := Some(collectionId);
    }

    /** The header's back button: clear the selection. */
    method HandleBackToCollections()
      modifies this`selectedCollection
      ensures selectedCollection.None?
    {
      selectedCollection := None;
    }

    /** `handleViewChange`: switching to collections clears the selection; switching to items keeps it. */
    method HandleViewChange(newView: View)
      modifies this`view, this`selectedCollection
      ensures view == newView
      ensures newView == CollectionsView ==> selectedCollection.None?
      ensures newView == ItemsView ==> selectedCollection == old(selectedCollection)
    {
      view := newView;
      if newView == CollectionsView {
        selectedCollection := None;
      }
    }

    /**
     * `handleAddItem`: create the item in the store and append it at the end of the
     * in-memory items; a failed create is rethrown to the form and changes nothing.
     */
    method HandleAddItem(db: Database, input: CreateGalleryItemInput, newId: string, now: string)
      returns (db': Database, outcome: SubmitOutcome)
      modifies this`galleryItems
      ensures var (next, r) := CreateGalleryItem(db, input, newId, now);
        && db' == next
        && (r.Success? ==> galleryItems == old(galleryItems) + [r.value] && outcome == Resolved)
        && (r.Failure? ==> galleryItems == old(galleryItems) && outcome == Rejected(ErrorInstance(r.message)))
    {
      var res := CreateGalleryItem(db, input, newId, now);
      db' := res.0;
      match res.1 {
        case Success(item) =>
          galleryItems := galleryItems + [item];
          outcome := Resolved;
        case Failure(message) =>
          outcome := Rejected(ErrorInstance(message));
      }
    }
  }

  /**
   * One submission of the add-item form on the home page (`onSubmit={handleAddItem}`):
   * a refused form touches neither the store nor the items; an accepted one creates the
   * item, appends it, and closes the form, or shows the store's failure message.
   */
  method SubmitNewItem(
    page: HomePage, form: AddItemForm, db: Database, validUrl: string -> bool, newId: string, now: string)
    returns (db': Database, closed: bool)
    modifies page`galleryItems, form`error, form`isSubmitting
    ensures var c := CheckForm(
        old(form.kind), old(form.title), old(form.content), old(form.collectionId), old(form.description), validUrl);
      && (c.Refused? ==>
            && db' == db && !closed && page.galleryItems == old(page.galleryItems)
            && form.error == Some(ValidationMessage(c.reason)))
      && (c.Ready? ==>
            var (next, r) := CreateGalleryItem(db, c.input, newId, now);
            && db' == next && !form.isSubmitting
            && (r.Success? ==> closed && page.galleryItems == old(page.galleryItems) + [r.value] && form.error.None?)
            && (r.Failure? ==> !closed && page.galleryItems == old(page.galleryItems) && form.error == Some(r.message)))
  {
    var pending := form.Submit(validUrl);
    if pending.None? {
      return db, false;
    }
    var outcome;
    db', outcome := page.HandleAddItem(db, pending.value, newId, now);
    closed := form.Settle(outcome);
  }

  /**
   * Selecting a collection and then switching to the items view keeps the selection,
   * and the items view with a selection renders an empty grid.
   */
  method SelectThenShowItems(page: HomePage, collectionId: string)
    requires collectionId != ""
    modifies page`selectedCollection, page`view
    ensures page.view == ItemsView && page.selectedCollection == Some(collectionId)
    ensures page.Grid() == Blank
  {
    page.HandleCollectionClick(collectionId);
    page.HandleViewChange(ItemsView);
  }
}
