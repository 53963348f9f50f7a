/**
 * The backend's HTML email builders, reduced to the choices they make:
 * which name introduces the student, one digest row per media item with
 * its fallbacks (or a single placeholder row for an empty digest), and
 * whether the parent email shows the Instagram handle. The surrounding
 * HTML text is fixed and not modelled.
 */
module EmailTemplates {
  import opened Wrappers
  import opened Strings

  const DefaultIntroName := "your student"
  // Long literals are written in short pieces, which the verifier handles more cheaply.
  const DefaultCaption := "We captured a new moment " + "for your family archive."
  const MissingImage := "#"

  /** `student_name or "your student"`. */
  function IntroName(studentName: Option<string>): (name: string)
    ensures Truthy(studentName) ==> name == studentName.value
    ensures !Truthy(studentName) ==> name == DefaultIntroName
    ensures name != ""
  {
    if Truthy(studentName) then studentName.value else DefaultIntroName
  }

  /** Python's `a or b` on two optional strings. */
  function Or(a: Option<string>, b: Option<string>): (r: Option<string>)
    ensures Truthy(r) <==> Truthy(a) || Truthy(b)
    ensures Truthy(a) ==> r == a
    ensures !Truthy(a) ==> r == b
  {
    if Truthy(a) then a else b
  }

  /** The fields of a media item the digest reads; absent keys are `None`. */
  datatype DigestItem = DigestItem(
    caption: Option<string>,
    audioUrl: Option<string>,
    sourceUrl: Option<string>,
    processedAt: Option<string>,
    createdAt: Option<string>)

  /**
   * One row of the digest: the date label, the image source, the name in
   * the image's alt text, the caption and, when present, the narration
   * link of the audio section.
   */
  datatype DigestRow =
    | MemoryRow(dateLabel: string, imageSrc: string, altName: string, caption: string, audio: Option<string>)
    | PlaceholderRow

  /**
   * The row for one item. `formatIso` stands for
   * `datetime.fromisoformat(...).strftime("%B %d, %Y")`: `None` when the
   * timestamp does not parse, in which case the raw text is the label.
   */
  function FormatItem(item: DigestItem, introName: string, formatIso: string -> Option<string>): (row: DigestRow)
    ensures row.MemoryRow? && row.altName == introName
    ensures Truthy(item.caption) ==> row.caption == item.caption.value
    ensures !Truthy(item.caption) ==> row.caption == DefaultCaption
    ensures Truthy(item.sourceUrl) ==> row.imageSrc == item.sourceUrl.value
    ensures !Truthy(item.sourceUrl) ==> row.imageSrc == MissingImage
    ensures row.audio.Some? <==> Truthy(item.audioUrl)
    ensures row.audio.Some? ==> row.audio == item.audioUrl
    ensures var stamp := Or(item.processedAt, item.createdAt);
            && (!Truthy(stamp) ==> row.dateLabel == "")
            && (Truthy(stamp) && formatIso(stamp.value).None? ==> row.dateLabel == stamp.value)
            && (Truthy(stamp) && formatIso(stamp.value).Some? ==> row.dateLabel == formatIso(stamp.value).value)
  {
    var caption := if Truthy(item.caption) then item.caption.value else DefaultCaption;
    var imageFallback := if Truthy(item.sourceUrl) then item.sourceUrl.value else MissingImage;
    var processedAt := Or(item.processedAt, item.createdAt);
    var processedLabel :=
      if !Truthy(processedAt) then ""
      else formatIso(processedAt.value).GetOr(processedAt.value);
    MemoryRow(processedLabel, imageFallback, introName, caption, if Truthy(item.audioUrl) then item.audioUrl else None)
  }

  /** The parts of the digest that depend on the input: the introduced name and the rows. */
  datatype Digest = Digest(introName: string, rows: seq<DigestRow>)

  /**
   * `render_digest_email`: one row per item, in input order; an empty
   * list gives exactly the placeholder row.
   */
  method RenderDigestEmail(mediaItems: seq<DigestItem>, studentName: Option<string>,
                           formatIso: string -> Option<string>)
    returns (digest: Digest)
    ensures digest.introName == IntroName(studentName)
    ensures mediaItems == [] ==> digest.rows == [PlaceholderRow]
    ensures mediaItems != [] ==> |digest.rows| == |mediaItems|
    ensures mediaItems != [] ==>
              forall i :: 0 <= i < |mediaItems| ==>
                digest.rows[i] == FormatItem(mediaItems[i], IntroName(studentName), formatIso)
    ensures PlaceholderRow in digest.rows <==> mediaItems == []
  {
    var introName := IntroName(studentName);
    var formattedItems: seq<DigestRow> := [];
    for i := 0 to |mediaItems|
      invariant |formattedItems| == i
      invariant forall j :: 0 <= j < i ==> formattedItems[j] == FormatItem(mediaItems[j], introName, formatIso)
    {
      formattedItems := formattedItems + [FormatItem(mediaItems[i], introName, formatIso)];
    }
    var memories := if formattedItems == [] then [PlaceholderRow] else formattedItems;
    digest := Digest(introName, memories);
  }

  /** The parts of the parent email that depend on the input. */
  datatype ConfirmationEmail = ConfirmationEmail(introName: string, confirmationUrl: string, instagramLine: Option<string>)

  /** `render_parent_confirmation_email`: the handle line appears only for a non-empty handle. */
  function RenderParentConfirmationEmail(studentName: Option<string>, confirmationUrl: string,
                                         instagramUsername: Option<string>): (email: ConfirmationEmail)
    ensures email.introName == IntroName(studentName) && email.confirmationUrl == confirmationUrl
    ensures email.instagramLine.Some? <==> Truthy(instagramUsername)
    ensures email.instagramLine.Some? ==> email.instagramLine == instagramUsername
  {
    ConfirmationEmail(IntroName(studentName), confirmationUrl,
                      if Truthy(instagramUsername) then instagramUsername else None)
  }
}
