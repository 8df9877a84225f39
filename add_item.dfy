/**
 * The add-item form: its validation (first failure wins), the normalised creation input
 * it builds, the submit-button rule, and the form state that `handleSubmit` and
 * `resetForm` update.
 */
module AddItem {
  import opened Wrappers
  import opened Entities
  import opened JsString
  import opened GalleryItems

  /** `type === 'image' || type === 'link' || type === 'pdf'`: the kinds whose content is a URL. */
  predicate IsUrlKind(k: Kind): (b: bool)
    ensures b <==> k != Text
  {
    k == Image || k == Link || k == Pdf
  }

  /** Why the form refuses to submit. */
  datatype ValidationError = EmptyContent | InvalidUrl

  const ContentRequired: string := "Content is required"
  const InvalidUrlMessage: string := "Please enter a valid URL"
  const AddItemFailed: string := "Failed to add item"

  /** The message the form shows for a refusal. */
  function ValidationMessage(e: ValidationError): (m: string)
    ensures m == ContentRequired || m == InvalidUrlMessage
    ensures (m == ContentRequired) <==> e == EmptyContent
  {
    match e
    case EmptyContent => ContentRequired
    case InvalidUrl => InvalidUrlMessage
  }

  /**
   * The checks of `handleSubmit`, in order: blank content first, then, for the URL kinds
   * only, the (untrimmed) content must be a URL. `validUrl` stands for `isValidUrl`.
   */
  function Validate(kind: Kind, content: string, validUrl: string -> bool): (e: Option<ValidationError>)
    ensures e == Some(EmptyContent) <==> AllWhiteSpace(content)
    ensures e == Some(InvalidUrl) <==> !AllWhiteSpace(content) && IsUrlKind(kind) && !validUrl(content)
    ensures e.None? <==> !AllWhiteSpace(content) && (IsUrlKind(kind) ==> validUrl(content))
  {
    TrimEmptyIff(content);
    if Trim(content) == [] then Some(EmptyContent)
    else if IsUrlKind(kind) && !validUrl(content) then Some(InvalidUrl)
    else None
  }

  /** A string with no white space at either end. */
  predicate IsTrimmed(s: string) {
    s == [] || (!IsWhiteSpace(s[0]) && !IsWhiteSpace(s[|s| - 1]))
  }

  /** A present string key is trimmed and non-empty. */
  predicate IsFilled(o: Option<string>) {
    o.Some? ==> o.value != [] && IsTrimmed(o.value)
  }

  /**
   * A normalised creation input: trimmed non-empty content, no blank optional strings,
   * no empty collection id, and metadata, when present, is not an empty bag.
   */
  predicate IsNormalised(input: CreateGalleryItemInput) {
    && input.content != [] && IsTrimmed(input.content)
    && IsFilled(input.title)
    && (input.collectionId.Some? ==> input.collectionId.value != [])
    && (input.metadata.Some? ==>
          && !input.metadata.value.IsEmpty()
          && IsFilled(input.metadata.value.description)
          && IsFilled(input.metadata.value.author)
          && IsFilled(input.metadata.value.date))
  }

  /**
   * The `CreateGalleryItemInput` literal of `handleSubmit`: trimmed strings, a blank
   * title or description becomes absent, an empty collection choice becomes absent,
   * and the metadata carries only the description.
   */
  function BuildInput(kind: Kind, title: string, content: string, collectionId: string, description: string)
    : (input: CreateGalleryItemInput)
    ensures input.kind == kind && input.content == Trim(content)
    ensures input.title.None? <==> AllWhiteSpace(title)
    ensures input.title.Some? ==> input.title.value == Trim(title)
    ensures input.collectionId.None? <==> collectionId == ""
    ensures input.collectionId.Some? ==> input.collectionId.value == collectionId
    ensures input.metadata.None? <==> AllWhiteSpace(description)
    ensures input.metadata.Some? ==> input.metadata.value == Metadata(Some(Trim(description)), None, None)
    ensures !AllWhiteSpace(content) ==> IsNormalised(input)
  {
    TrimEmptyIff(title);
    TrimEmptyIff(content);
    TrimEmptyIff(description);
    var t := Trim(title);
    var d := Trim(description);
    CreateGalleryItemInput(
      kind,
      if t == "" then None else Some(t),
      Trim(content),
      if collectionId == "" then None else Some(collectionId),
      if d == "" then None else Some(Metadata(Some(d), None, None)))
  }

  /** A non-empty trimmed string is not blank. */
  lemma FilledIsNotBlank(s: string)
    requires s != [] && IsTrimmed(s)
    ensures !AllWhiteSpace(s) && Trim(s) == s
  {
    TrimOfTrimmed(s);
  }

  /**
   * Normalisation is idempotent: feeding a normalised input's fields back through the
   * form (a description-only metadata bag) builds the same input again.
   */
  lemma BuildInputIdempotent(input: CreateGalleryItemInput)
    requires IsNormalised(input)
    requires input.metadata.Some? ==> input.metadata.value.author.None? && input.metadata.value.date.None?
    ensures var description := if input.metadata.Some? then input.metadata.value.description.value else "";
      BuildInput(input.kind, input.title.GetOr(""), input.content, input.collectionId.GetOr(""), description)
        == input
  {
    FilledIsNotBlank(input.content);
    if input.title.Some? {
      FilledIsNotBlank(input.title.value);
    }
    if input.metadata.Some? {
      FilledIsNotBlank(input.metadata.value.description.value);
    }
  }

  /** The result of checking the form: refused before any store call, or ready to submit. */
  datatype Check = Refused(reason: ValidationError) | Ready(input: CreateGalleryItemInput)

  /** What `handleSubmit` decides from the form's fields before it awaits the submission. */
  function CheckForm(
    kind: Kind, title: string, content: string, collectionId: string, description: string,
    validUrl: string -> bool): (c: Check)
    ensures c.Refused? <==> Validate(kind, content, validUrl).Some?
    ensures c.Refused? ==> Some(c.reason) == Validate(kind, content, validUrl)
    ensures c.Ready? ==>
      && IsNormalised(c.input)
      && (IsUrlKind(kind) ==> validUrl(content))
      && c.input == BuildInput(kind, title, content, collectionId, description)
  {
    match Validate(kind, content, validUrl)
    case Some(e) => Refused(e)
    case None => Ready(BuildInput(kind, title, content, collectionId, description))
  }

  /** Blank content is refused as empty whatever the kind and whatever the URL check would say. */
  lemma BlankContentIsRefusedFirst(
    kind: Kind, title: string, content: string, collectionId: string, description: string,
    validUrl: string -> bool)
    requires AllWhiteSpace(content)
    ensures CheckForm(kind, title, content, collectionId, description, validUrl) == Refused(EmptyContent)
  {
  }

  /** Text content is never checked as a URL. */
  lemma TextSkipsUrlCheck(title: string, content: string, collectionId: string, description: string,
    validUrl: string -> bool)
    requires !AllWhiteSpace(content)
    ensures CheckForm(Text, title, content, collectionId, description, validUrl).Ready?
  {
  }

  /** A link whose content is not a URL is refused as an invalid URL. */
  lemma LinkWithoutUrlIsRefused(validUrl: string -> bool)
    requires !validUrl("not a url")
    ensures CheckForm(Link, "", "not a url", "", "", validUrl) == Refused(InvalidUrl)
  {
    assert !IsWhiteSpace("not a url"[0]);
  }

  /**
   * Text content is submitted trimmed: content `w1 + x + w2`, padded with white space
   * around a trimmed `x`, is accepted and submitted as `x`, with no optional keys.
   */
  lemma TextIsSubmittedTrimmed(w1: string, x: string, w2: string, validUrl: string -> bool)
    requires AllWhiteSpace(w1) && AllWhiteSpace(w2)
    requires x != [] && !IsWhiteSpace(x[0]) && !IsWhiteSpace(x[|x| - 1])
    ensures CheckForm(Text, "", w1 + x + w2, "", "", validUrl)
      == Ready(CreateGalleryItemInput(Text, None, x, None, None))
  {
    TrimOfPadded(w1, x, w2);
    assert !AllWhiteSpace(w1 + x + w2) by {
      assert (w1 + x + w2)[|w1|] == x[0];
    }
  }

  /** `disabled={isSubmitting || !content.trim()}`. */
  function SubmitDisabled(isSubmitting: bool, content: string): (disabled: bool)
    ensures disabled <==> isSubmitting || AllWhiteSpace(content)
  {
    TrimEmptyIff(content);
    isSubmitting || Trim(content) == []
  }

  /** An enabled submit button means the emptiness check passes. */
  lemma EnabledSubmitPassesEmptyCheck(isSubmitting: bool, kind: Kind, content: string, validUrl: string -> bool)
    requires !SubmitDisabled(isSubmitting, content)
    ensures Validate(kind, content, validUrl) != Some(EmptyContent)
  {
  }

  /** What the awaited submission threw: an `Error` instance with its message, or anything else. */
  datatype Thrown = ErrorInstance(message: string) | NonErrorValue

  /** How the awaited `onSubmit(input)` settled. */
  datatype SubmitOutcome = Resolved | Rejected(thrown: Thrown)

  /** `err instanceof Error ? err.message : 'Failed to add item'`. */
  function FailureMessage(t: Thrown): (m: string)
    ensures t.ErrorInstance? ==> m == t.message
    ensures t.NonErrorValue? ==> m == AddItemFailed
  {
    match t
    case ErrorInstance(msg) => msg
    case NonErrorValue => AddItemFailed
  }

  /** The form's state; the controlled inputs write `kind`, `title`, `content`, `collectionId`, `description`. */
  class AddItemForm {
    var kind: Kind
    var title: string
    var content: string
    var collectionId: string
    var description: string
    var isSubmitting: bool
    var error: Option<string>

    /** The initial state of every `useState`. */
    constructor ()
      ensures kind == Image && title == "" && content == "" && collectionId == "" && description == ""
      ensures !isSubmitting && error.None?
    {
      kind, title, content, collectionId, description := Image, "", "", "", "";
      isSubmitting, error := false, None;
    }

    /** `resetForm`: every field back to its initial value, except `isSubmitting`. */
    method ResetForm()
      modifies this
      ensures kind == Image && title == "" && content == "" && collectionId == "" && description == ""
      ensures error.None? && isSubmitting == old(isSubmitting)
    {
      kind := Image;
      title := "";
      content := "";
      collectionId := "";
      description := "";
      error := None;
    }

    /** Whether the submit button is disabled in the current state. */
    function IsSubmitDisabled(): (disabled: bool)
      reads this
      ensures disabled <==> isSubmitting || AllWhiteSpace(content)
    {
      SubmitDisabled(isSubmitting, content)
    }

    /**
     * `handleSubmit` up to the awaited `onSubmit`: clears the error, refuses with a
     * message (leaving `isSubmitting` as it was), or marks the form submitting and
     * hands back the input to submit.
     */
    method Submit(validUrl: string -> bool) returns (pending: Option<CreateGalleryItemInput>)
      modifies this`error, this`isSubmitting
      ensures var c := CheckForm(old(kind), old(title), old(content), old(collectionId), old(description), validUrl);
        && (c.Refused? ==> pending.None? && error == Some(ValidationMessage(c.reason))
                           && isSubmitting == old(isSubmitting))
        && (c.Ready? ==> pending == Some(c.input) && error.None? && isSubmitting)
    {
      error := None;
      match CheckForm(kind, title, content, collectionId, description, validUrl) {
        case Refused(reason) =>
          error := Some(ValidationMessage(reason));
          pending := None;
        case Ready(input) =>
          isSubmitting := true;
          pending := Some(input);
      }
    }

    /**
     * `handleSubmit` after the await: closes on success, shows the thrown message on
     * failure, and always clears `isSubmitting` (the `finally`).
     */
    method Settle(outcome: SubmitOutcome) returns (closed: bool)
      modifies this`error, this`isSubmitting
      ensures !isSubmitting
      ensures closed <==> outcome.Resolved?
      ensures outcome.Resolved? ==> error == old(error)
      ensures outcome.Rejected? ==> error == Some(FailureMessage(outcome.thrown))
    {
      closed := false;
      match outcome {
        case Resolved =>
          closed := true;
        case Rejected(t) =>
          error := Some(FailureMessage(t));
      }
      isSubmitting := false;
    }
  }
}
