# Internet garden: the content model and its query, validation and view rules

This project models the core of a personal content gallery in Dafny. The gallery
holds items of four kinds (image, text, link, PDF). Items can be grouped into named
collections. They are shown in a filterable grid, and new ones are added through a form.

The model covers five parts:

- **Entity and row model** (`entities.dfy`). The closed kind union and the rows of the
  `collections` and `gallery_items` tables (Row, Insert and Update), with their nullable
  and store-assigned columns. It also has the three-key metadata bag and the
  application-level `Collection` and `GalleryItem`.
- **Row mappers and queries** (`gallery_items.dfy`, `collections.dfy`). On read, a null
  column becomes an absent key. On write, an absent key becomes an explicit null. Each
  fetch turns the store's response into a result or a thrown failure with a prefixed
  message. Code `PGRST116` means "not found" for single-row fetches. Null list data
  becomes the empty list.
- **The store** (`store.dfy`). Responses are `Ok(data) | Err(code, message)`. The store
  itself is modelled as the two tables' rows in creation order, plus an optional fault
  that fails every request. This is an assumption about the external store, which is
  what lets the filter and round-trip properties be stated.
- **The add-item form** (`add_item.dfy`). Its checks run in order and the first failure
  wins. It builds a normalised creation input, disables the submit button in a fixed
  set of cases, and updates its state in `handleSubmit` and `resetForm`. URL validity is
  a function parameter `validUrl` because URL parsing is not modelled.
- **The home page** (`projection.dfy`, `home.dfy`). The pure projections are the
  displayed items, the per-collection groups, the selected collection and the grid
  content. A class holds the page state (view, selection, palette index, collections,
  items), and its handlers update it.

`js_string.dfy` models ECMAScript `String.prototype.trim`. It strips the WhiteSpace and
LineTerminator code points of ECMA-262, sections 12.2 and 12.3. `wrappers.dfy` holds
`Option` (an optional key), `Nullable` (a nullable column) and `Result` (a value, or a
thrown `Error` with its message).

Behaviour of the code worth knowing:

- The URL check is applied to the untrimmed content (`isValidUrl(content)`), not to the
  trimmed one.
- A store failure carries the operation only as a message prefix such as
  `Failed to fetch gallery items: <message>`. The two list fetches share that prefix.
- A selection is tested by JavaScript truthiness, so an empty-string selection counts
  as no selection.
- Collection names are not checked to be non-empty anywhere in the code, so the model
  does not require it either.

## Model

| member | source | states |
|---|---|---|
| `Wrappers.NullToAbsent` | app/lib/queries/galleryItems.ts:10-13 | `x ?? undefined`: absent exactly when the column is null, otherwise the same value |
| `Wrappers.AbsentToNull` | app/lib/queries/galleryItems.ts:85-88 | `x ?? null`: explicit null exactly when the key is absent, otherwise the same value |
| `Wrappers.AbsentToNullToAbsent` | app/lib/queries/galleryItems.ts:10-13 | writing an optional value as a column and reading it back returns it unchanged |
| `Wrappers.NullToAbsentToNull` | app/lib/queries/galleryItems.ts:85-88 | reading a nullable column and writing it back returns the same column |
| `JsString.LeadingWhiteSpace` | app/components/AddItemModal.tsx:75 | the length of the white-space run `trim` strips at the start: every character before it is white space and the one at it is not |
| `JsString.TrailingWhiteSpace` | app/components/AddItemModal.tsx:75 | the length of the white-space run `trim` strips at the end: every character after it is white space and the one before it is not |
| `JsString.Trim` | app/components/AddItemModal.tsx:91 | `trim()` returns a contiguous slice with only white space outside it, and the slice has no white space at either end |
| `JsString.TrimEmptyIff` | app/components/AddItemModal.tsx:75 | `!s.trim()` holds exactly when every character of `s` is white space |
| `JsString.TrimIdempotent` | app/components/AddItemModal.tsx:91-94 | trimming twice gives the same string as trimming once |
| `JsString.TrimOfTrimmed` | app/components/AddItemModal.tsx:91-94 | a string with no white space at either end is its own trim |
| `JsString.TrimOfPadded` | app/components/AddItemModal.tsx:91 | white space around a string without white space at its ends is exactly what `trim()` removes |
| `Entities.KindName` | app/lib/supabase/types.ts:41 | each kind is stored as a literal that parses back to that same kind |
| `Entities.ParseKind` | app/lib/supabase/types.ts:51 | a string is accepted as a kind exactly when it is one of `'image'`, `'text'`, `'link'` and `'pdf'` |
| `Entities.ParsedLiteralNamesKind` | app/lib/supabase/types.ts:51 | an accepted literal is the literal of the kind it is accepted as |
| `Entities.KindsAreExactlyFour` | app/components/AddItemModal.tsx:17-22 | there are exactly four kinds, all offered by the form, with distinct literals that parse back (the same `Kind` is used in Row, Insert and Update) |
| `Store.Single` | app/lib/queries/galleryItems.ts:50-54 | `.single()` answers with the row when exactly one matches, and with code `PGRST116` otherwise |
| `Store.ItemRowsInCollection` | app/lib/queries/galleryItems.ts:34-38 | `.eq('collection_id', c)` selects exactly the rows whose column is non-null and equal to `c` |
| `Store.SelectCollections` | app/lib/queries/collections.ts:16-19 | answers the store's error when it fails, and otherwise every collection row in creation order |
| `Store.SelectCollectionById` | app/lib/queries/collections.ts:31-35 | a faulty store answers its error; a healthy one answers `PGRST116` for an id no row has, and any row it answers is stored and has that id |
| `Store.SelectGalleryItems` | app/lib/queries/galleryItems.ts:19-22 | answers the store's error when it fails, and otherwise every item row in creation order |
| `Store.SelectGalleryItemsInCollection` | app/lib/queries/galleryItems.ts:34-38 | answers the store's error when it fails, and otherwise exactly the stored rows whose `collection_id` is `c` |
| `Store.SelectGalleryItemById` | app/lib/queries/galleryItems.ts:50-54 | a faulty store answers its error; a healthy one answers `PGRST116` for an id no row has, and any row it answers is stored and has that id |
| `Store.RowsWithId` | app/lib/queries/galleryItems.ts:53 | `.eq('id', id)` on either table selects exactly the rows whose primary key is `id` |
| `Store.NoRowsWithId` | app/lib/queries/collections.ts:34 | the id filter is empty exactly when no row has that id |
| `Store.RowsWithUniqueId` | app/lib/supabase/types.ts:17 | with unique primary keys, filtering by a stored row's id selects exactly that row |
| `Store.StoredRow` | app/lib/supabase/types.ts:49-58 | the stored row keeps the inserted kind and content and every column the insert gives; an absent `id` becomes the store-assigned id, absent timestamps become the insert time, and absent nullable columns become null |
| `Store.InsertGalleryItem` | app/lib/queries/galleryItems.ts:92-95 | fails exactly when the store is faulty or the id is taken, answering the fault or the duplicate-key error `23505`, and then leaves the store unchanged; a success appends exactly the stored row and answers with it |
| `GalleryItems.ToGalleryItem` | app/lib/queries/galleryItems.ts:6-15 | `id`, `type` and `content` pass through unchanged; a null `title`, `collection_id` or `metadata` becomes absent and a present value passes through |
| `GalleryItems.ToGalleryItems` | app/lib/queries/galleryItems.ts:29 | `.map(toGalleryItem)` keeps the length and maps each row at its own position |
| `GalleryItems.ToGalleryItemsAppend` | app/lib/queries/galleryItems.ts:29 | mapping a concatenation gives the concatenation of the mapped parts |
| `GalleryItems.ToGalleryItemsInCollection` | app/lib/queries/galleryItems.ts:33-45 | filtering rows by collection in the store and then mapping gives the same list as mapping and then filtering the items |
| `GalleryItems.ItemListResult` | app/lib/queries/galleryItems.ts:24-29 | an error becomes a failure `Failed to fetch gallery items: <message>`; null data becomes `[]`; otherwise the rows are mapped in order, one item per row |
| `GalleryItems.FetchGalleryItems` | app/lib/queries/galleryItems.ts:17-30 | fails exactly when the store fails, with the prefixed message; otherwise returns one item per stored row, in creation order |
| `GalleryItems.FetchGalleryItemsByCollection` | app/lib/queries/galleryItems.ts:33-46 | fails exactly when the store fails; otherwise returns exactly the items of `fetchGalleryItems` whose `collectionId` is `c`, in the same relative order |
| `GalleryItems.ItemByIdResult` | app/lib/queries/galleryItems.ts:56-65 | code `PGRST116` gives "not found" (`None`), any other error gives `Failed to fetch gallery item: <message>`, and a row gives `toGalleryItem(row)` |
| `GalleryItems.FetchGalleryItemById` | app/lib/queries/galleryItems.ts:49-66 | never fails unless the store fails; a found item has the requested id and comes from a stored row |
| `GalleryItems.FetchByIdFindsStoredItem` | app/lib/queries/galleryItems.ts:49-66 | with unique ids and no fault, every stored row is found by its id and mapped |
| `GalleryItems.FetchByMissingIdIsNotFound` | app/lib/queries/galleryItems.ts:56-60 | an id that no row has (an empty store included) gives "not found", not a failure |
| `GalleryItems.ToInsertRow` | app/lib/queries/galleryItems.ts:83-89 | `id` and the timestamps are left to the store; `type` and `content` are copied; `title`, `collection_id` and `metadata` are always written, as null exactly when absent |
| `GalleryItems.CreateGalleryItem` | app/lib/queries/galleryItems.ts:82-103 | a success returns the input's fields with the store-assigned id and appends one row; a failure, exactly when the store fails or the id is taken, leaves the store unchanged and carries `Failed to create gallery item: ` followed by the store's message |
| `GalleryItems.CreateThenFetchAll` | app/lib/queries/galleryItems.ts:17-30 | after a successful create, fetching all items gives the earlier items followed by the new one |
| `GalleryItems.ReadCreateRoundTrip` | app/lib/queries/galleryItems.ts:6-15 | an item read from a row and created again is read back equal, except for the store-assigned id, and its nullable columns are stored as before |
| `GalleryItems.CreateKeepsIdsUnique` | app/lib/queries/galleryItems.ts:82-103 | a successful create keeps the item ids unique, and the new item is then found by its id |
| `Collections.ToCollection` | app/lib/queries/collections.ts:6-12 | `id` and `name` pass through; a null `description` becomes absent and a present one passes through |
| `Collections.ToCollections` | app/lib/queries/collections.ts:26 | `.map(toCollection)` keeps the length and maps each row at its own position |
| `Collections.CollectionListResult` | app/lib/queries/collections.ts:20-26 | an error becomes the failure `Failed to fetch collections: <message>`; null data becomes `[]`; otherwise the rows are mapped in order |
| `Collections.FetchCollections` | app/lib/queries/collections.ts:15-27 | fails exactly when the store fails; otherwise returns one collection per stored row, in creation order |
| `Collections.CollectionByIdResult` | app/lib/queries/collections.ts:37-46 | code `PGRST116` gives "not found", any other error gives `Failed to fetch collection: <message>`, and a row gives `toCollection(row)` |
| `Collections.FetchCollectionById` | app/lib/queries/collections.ts:30-47 | never fails unless the store fails; a found collection has the requested id and comes from a stored row |
| `Collections.FetchCollectionByIdFindsStored` | app/lib/queries/collections.ts:30-47 | with unique ids and no fault, every stored collection is found by its id |
| `Collections.FetchCollectionByMissingIdIsNotFound` | app/lib/queries/collections.ts:37-41 | an id that no row has gives "not found", not a failure |
| `AddItem.IsUrlKind` | app/components/AddItemModal.tsx:81 | every kind except text has URL content |
| `AddItem.ValidationMessage` | app/components/AddItemModal.tsx:76-82 | the two refusals show `Content is required` and `Please enter a valid URL` |
| `AddItem.Validate` | app/components/AddItemModal.tsx:75-84 | refused as empty exactly when the content is all white space; refused as an invalid URL exactly when it is not blank, the kind is image, link or PDF, and the untrimmed content fails `isValidUrl`; text skips the URL check |
| `AddItem.BuildInput` | app/components/AddItemModal.tsx:89-95 | content is trimmed; the title is trimmed or absent when blank; `collectionId` is absent exactly when it is `""`; metadata is absent when the description is blank and otherwise exactly `{description: trimmed}`; with non-blank content the input is normalised, so metadata is never an empty bag |
| `AddItem.FilledIsNotBlank` | app/components/AddItemModal.tsx:75 | a non-empty string with no white space at either end is not blank and is its own trim |
| `AddItem.BuildInputIdempotent` | app/components/AddItemModal.tsx:89-95 | passing a normalised input's fields through the form again builds the same input |
| `AddItem.CheckForm` | app/components/AddItemModal.tsx:71-95 | refused exactly when validation fails, with that refusal; otherwise ready with the built, normalised input, and a URL kind's content passed `isValidUrl` |
| `AddItem.BlankContentIsRefusedFirst` | app/components/AddItemModal.tsx:75-84 | blank content is refused as empty for every kind, whatever the URL check would say |
| `AddItem.TextSkipsUrlCheck` | app/components/AddItemModal.tsx:81 | non-blank text content is always accepted |
| `AddItem.LinkWithoutUrlIsRefused` | app/components/AddItemModal.tsx:80-84 | a link `"not a url"` that fails `isValidUrl` is refused as an invalid URL |
| `AddItem.TextIsSubmittedTrimmed` | app/components/AddItemModal.tsx:89-95 | text content padded with white space around a trimmed string is accepted and submitted as that string, with no optional keys |
| `AddItem.SubmitDisabled` | app/components/AddItemModal.tsx:233 | the submit button is disabled exactly when a submission is running or the content is all white space |
| `AddItem.EnabledSubmitPassesEmptyCheck` | app/components/AddItemModal.tsx:233 | when the submit button is enabled, the emptiness check passes |
| `AddItem.FailureMessage` | app/components/AddItemModal.tsx:100 | a thrown `Error` shows its own message; anything else shows `Failed to add item` |
| `AddItem.AddItemForm.constructor` | app/components/AddItemModal.tsx:32-38 | the form starts as image, with empty strings, not submitting and no error |
| `AddItem.AddItemForm.ResetForm` | app/components/AddItemModal.tsx:40-47 | every field returns to its initial value and the error is cleared; `isSubmitting` is left untouched |
| `AddItem.AddItemForm.IsSubmitDisabled` | app/components/AddItemModal.tsx:233 | the form's submit button is disabled exactly when it is submitting or its content is blank |
| `AddItem.AddItemForm.Submit` | app/components/AddItemModal.tsx:71-97 | a refusal sets its message, submits nothing and leaves `isSubmitting` as it was; otherwise the error is cleared, `isSubmitting` becomes true, and exactly the checked input is submitted |
| `AddItem.AddItemForm.Settle` | app/components/AddItemModal.tsx:97-103 | `isSubmitting` is false afterwards in every case; the form closes exactly on success; a failure shows the thrown message |
| `Projection.HasSelection` | app/page.tsx:80 | a selection is absent exactly when it is null or the empty string, as JavaScript truthiness has it |
| `CollectionFilter.InCollection` | app/page.tsx:81 | keeps exactly the items whose `collectionId` equals `c`; an absent `collectionId` never matches |
| `CollectionFilter.InCollectionAppend` | app/page.tsx:81 | filtering distributes over concatenation, so the relative order of items is kept |
| `CollectionFilter.InCollectionCounts` | app/page.tsx:81 | each matching item is kept as often as it occurs, and no other item is kept |
| `CollectionFilter.InCollectionIdempotent` | app/page.tsx:81 | filtering twice by the same collection gives the same list as filtering once |
| `Projection.DisplayedItems` | app/page.tsx:80-82 | with no selection it is all the items; with a selection it is exactly the items of that collection |
| `Projection.Groups` | app/page.tsx:162-173 | one group per collection, in order, each holding that collection's filtered items |
| `Projection.GroupMembership` | app/page.tsx:163 | an item is in a collection's group exactly when its `collectionId` is that collection's id |
| `Projection.UnfiledInNoGroup` | app/page.tsx:163 | an item with no `collectionId` is in no group |
| `Projection.FindCollection` | app/page.tsx:85 | a found collection is in the list and has the id; nothing is found exactly when no collection has the id |
| `Projection.FindCollectionIsFirst` | app/page.tsx:85 | `find` returns the first collection with that id |
| `Projection.SelectedCollectionData` | app/page.tsx:84-86 | nothing without a selection; otherwise a known collection with the selected id |
| `Projection.ShowsCollectionHeader` | app/page.tsx:143 | the collection header shows exactly when the selection is a non-empty id that some collection has |
| `Projection.DanglingSelectionShowsNoHeader` | app/page.tsx:143 | a selected id that no collection has shows no collection header |
| `Projection.GridContent` | app/page.tsx:157-178 | items view with no selection shows all items; collections view with no selection shows one card per collection, in order; collections view with a selection shows that collection's items; items view with a selection shows nothing |
| `Home.NextPaletteIndex` | app/page.tsx:57-59 | the next index stays below the palette count, goes up by one, and wraps to 0 after the last palette |
| `Home.RefreshesCompose` | app/page.tsx:57-59 | `a + b` refreshes give the same index as `a` refreshes followed by `b` refreshes |
| `Home.RefreshesClimb` | app/page.tsx:57-59 | before the wrap-around, `k` refreshes add `k` to the index |
| `Home.PaletteCycleReturns` | app/page.tsx:57-59 | one refresh per palette returns to the starting palette |
| `Home.HomePage.constructor` | app/page.tsx:19-25 | the page starts in the items view, with no selection, the first palette, and empty lists |
| `Home.HomePage.Grid` | app/page.tsx:157-178 | the grid shows only loaded items, one card per collection in the collections view, and is blank exactly in the items view with a selection |
| `Home.HomePage.LoadData` | app/page.tsx:39-45 | when both fetches succeed, the lists are replaced by the fetched ones; otherwise the lists are unchanged |
| `Home.HomePage.HandleRefreshPalette` | app/page.tsx:57-59 | the palette index advances to the next index and stays in range |
| `Home.HomePage.HandleCollectionClick` | app/page.tsx:64-66 | the clicked collection becomes the selection |
| `Home.HomePage.HandleBackToCollections` | app/page.tsx:146 | the back button clears the selection |
| `Home.HomePage.HandleViewChange` | app/page.tsx:68-73 | the view is set; switching to collections clears the selection and switching to items keeps it |
| `Home.HomePage.HandleAddItem` | app/page.tsx:75-78 | a successful create appends exactly the new item at the end; a failed one changes nothing and passes the thrown message on |
| `Home.SubmitNewItem` | app/page.tsx:183 | a refused form calls no store and adds no item; an accepted one creates the item, then either appends it and closes the form or shows the create failure, and `isSubmitting` ends false |
| `Home.SelectThenShowItems` | app/page.tsx:64-73 | selecting a collection and then switching to the items view keeps the selection and shows an empty grid |

## Left out

- Asynchrony: `await`, the parallel loading with `Promise.all` and its error-message race, and the page's `isLoading` and `error` flags. Each store call is one synchronous step of the model.
- Home.HomePage.LoadData: does not set the page's error message on a failed load. Which of the two rejections `Promise.all` reports first depends on timing, which the model does not have.
- React rendering and effects: JSX, CSS modules, the escape-key listener, the effect that calls `resetForm` when the modal closes, the modal's open flag, the overlay click and `console` logging.
- The controlled inputs' `onChange` setters. A client assigns the form's fields directly.
- URL parsing (`new URL`). `isValidUrl` is the function parameter `validUrl`, left uninterpreted.
- The palette contents (`colorPalettes`) are not part of this model. Only their number is, as a positive `paletteCount`. The index is never negative, so JavaScript's `%` and Dafny's `%` agree on it.
- The Supabase query builder. Only its answers are modelled, by the `Store` functions: creation order is sequence order. A `.single()` with several matches also answers `PGRST116`, and a reused id is refused with code `23505`. Both are assumptions about the store.
- The application types file `app/types.ts` is not part of this model. The shapes of `GalleryItem` and `Collection` are those the mappers build.
- `CollectionInsert`, `CollectionUpdate` and `GalleryItemUpdate` are datatypes only. No operation of the core uses them, and the code has no update or delete.
- Authentication (`app/api/auth/route.ts`, `app/login/page.tsx`) and the client factory (`app/lib/supabase/server.ts`): plumbing with no content logic.
