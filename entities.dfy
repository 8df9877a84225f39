/**
 * The content model: the item-kind union, the persisted row shapes of the two tables
 * `collections` and `gallery_items` (Row, Insert, Update), the metadata bag, and the
 * application-level entities `Collection` and `GalleryItem` the mappers produce.
 */
module Entities {
  import opened Wrappers

  /** The closed item-kind union `'image' | 'text' | 'link' | 'pdf'`. */
  datatype Kind = Image | Text | Link | Pdf

  /** The string literal a kind is stored and transmitted as. */
  function KindName(k: Kind): (name: string)
    ensures ParseKind(name) == Some(k)
  {
    match k
    case Image => "image"
    case Text => "text"
    case Link => "link"
    case Pdf => "pdf"
  }

  /** The kind a string literal denotes; anything outside the union is rejected. */
  function ParseKind(name: string): (k: Option<Kind>)
    ensures k.Some? <==> name in {"image", "text", "link", "pdf"}
  {
    if name == "image" then Some(Image)
    else if name == "text" then Some(Text)
    else if name == "link" then Some(Link)
    else if name == "pdf" then Some(Pdf)
    else None
  }

  /** The union the kinds range over, in the order the form offers them. */
  const AllKinds: seq<Kind> := [Image, Text, Link, Pdf]

  /** There are exactly four kinds, each named by its own literal, and the literals parse back. */
  lemma KindsAreExactlyFour()
    ensures |AllKinds| == 4
    ensures forall k: Kind :: k in AllKinds && ParseKind(KindName(k)) == Some(k)
    ensures forall i, j :: 0 <= i < j < |AllKinds| ==> KindName(AllKinds[i]) != KindName(AllKinds[j])
  {
    forall k: Kind ensures k in AllKinds && ParseKind(KindName(k)) == Some(k) {
      match k
      case Image => assert AllKinds[0] == k;
      case Text => assert AllKinds[1] == k;
      case Link => assert AllKinds[2] == k;
      case Pdf => assert AllKinds[3] == k;
    }
  }

  /** A literal that parses names the kind it parses to. */
  lemma ParsedLiteralNamesKind(name: string)
    requires ParseKind(name).Some?
    ensures KindName(ParseKind(name).value) == name
  {
  }

  /** `GalleryItemMetadata`: exactly three optional string keys. */
  datatype Metadata = Metadata(description: Option<string>, author: Option<string>, date: Option<string>)
  {
    /** An empty bag `{}`: no key present. */
    predicate IsEmpty() {
      description.None? && author.None? && date.None?
    }
  }

  /** A row of `collections`: `name` is never null, `description` may be. */
  datatype CollectionRow = CollectionRow(
    id: string,
    name: string,
    description: Nullable<string>,
    createdAt: string,
    updatedAt: string)

  /** An insert into `collections`: `id` and the timestamps are optional (store-assigned). */
  datatype CollectionInsert = CollectionInsert(
    id: Option<string>,
    name: string,
    description: Option<Nullable<string>>,
    createdAt: Option<string>,
    updatedAt: Option<string>)

  /** An update of `collections`: every column optional. */
  datatype CollectionUpdate = CollectionUpdate(
    id: Option<string>,
    name: Option<string>,
    description: Option<Nullable<string>>,
    createdAt: Option<string>,
    updatedAt: Option<string>)

  /** A row of `gallery_items`: `content` is never null; `title`, `collection_id`, `metadata` may be. */
  datatype GalleryItemRow = GalleryItemRow(
    id: string,
    kind: Kind,
    title: Nullable<string>,
    content: string,
    collectionId: Nullable<string>,
    metadata: Nullable<Metadata>,
    createdAt: string,
    updatedAt: string)

  /**
   * An insert into `gallery_items`: `kind` and `content` are required; `id` and the
   * timestamps are optional (store-assigned); the nullable columns may be absent,
   * explicitly null, or a value.
   */
  datatype GalleryItemInsert = GalleryItemInsert(
    id: Option<string>,
    kind: Kind,
    title: Option<Nullable<string>>,
    content: string,
    collectionId: Option<Nullable<string>>,
    metadata: Option<Nullable<Metadata>>,
    createdAt: Option<string>,
    updatedAt: Option<string>)

  /** An update of `gallery_items`: every column optional, the kind still from the same union. */
  datatype GalleryItemUpdate = GalleryItemUpdate(
    id: Option<string>,
    kind: Option<Kind>,
    title: Option<Nullable<string>>,
    content: Option<string>,
    collectionId: Option<Nullable<string>>,
    metadata: Option<Nullable<Metadata>>,
    createdAt: Option<string>,
    updatedAt: Option<string>)

  /** The application-level collection: absent instead of null, no timestamps. */
  datatype Collection = Collection(id: string, name: string, description: Option<string>)

  /** The application-level gallery item: absent instead of null, no timestamps. */
  datatype GalleryItem = GalleryItem(
    id: string,
    kind: Kind,
    title: Option<string>,
    content: string,
    collectionId: Option<string>,
    metadata: Option<Metadata>)
}
