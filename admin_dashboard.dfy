/**
 * The admin dashboard's own rules: the upload pre-check it runs before sending a
 * file, when its upload form submits, when a gallery card's Save button is enabled,
 * and the statuses its selector offers.
 */
module AdminDashboard {
  import opened Wrappers
  import opened JsValues
  import Server

  const MaxClientFileSize: nat := 10 * 1024 * 1024
  const ClientAllowedTypes: seq<string> := ["image/jpeg", "image/png", "image/webp"]
  const TooLargeMessage: string := "Fichier trop volumineux (>10MB)"
  const WrongTypeMessage: string := "Types autorisés: JPG/PNG/WebP"

  /** The file chosen in the file input: its size in bytes and its MIME type. */
  datatype PickedFile = PickedFile(size: nat, fileType: string)

  /** The upload mutation's checks: the error it raises, or `None` when it goes on to upload. */
  function PreCheck(f: PickedFile): (r: Option<string>)
    ensures r.None? <==> f.size <= MaxClientFileSize && f.fileType in ClientAllowedTypes
    ensures f.size > MaxClientFileSize ==> r == Some(TooLargeMessage)
    ensures f.size <= MaxClientFileSize && f.fileType !in ClientAllowedTypes ==> r == Some(WrongTypeMessage)
  {
    if f.size > MaxClientFileSize then Some(TooLargeMessage)
    else if f.fileType !in ClientAllowedTypes then Some(WrongTypeMessage)
    else None
  }

  datatype UploadOutcome = NotSubmitted | Refused(message: string) | Sent(file: PickedFile)

  /** Submitting the upload form: nothing without a file, else the pre-check, else the upload. */
  function SubmitUpload(file: Option<PickedFile>): (o: UploadOutcome)
    ensures o.NotSubmitted? <==> file.None?
    ensures o.Sent? ==> file == Some(o.file) && PreCheck(o.file).None?
    ensures o.Refused? ==> file.Some? && PreCheck(file.value) == Some(o.message)
  {
    match file
    case None => NotSubmitted
    case Some(f) =>
      match PreCheck(f)
      case Some(message) => Refused(message)
      case None => Sent(f)
  }

  /** An oversized file is reported as too large whatever its type. */
  lemma SizeCheckedFirst(f: PickedFile)
    requires f.size > MaxClientFileSize
    ensures SubmitUpload(Some(f)) == Refused(TooLargeMessage)
  {
  }

  /**
   * Whatever the dashboard sends, the server's upload limits accept, as the two
   * sides use the same cap and the same allow-list.
   */
  lemma SentFilesPassServerLimits(file: Option<PickedFile>, data: seq<Server.Byte>)
    requires SubmitUpload(file).Sent? && |data| == SubmitUpload(file).file.size
    ensures Server.MulterCheck(Server.UploadedFile(SubmitUpload(file).file.fileType, data)).None?
  {
  }

  /** A gallery card has unsaved edits: a field differs from the stored one ('' when missing). */
  predicate Dirty(title: string, caption: string, item: Server.GalleryItem) {
    title != OrEmpty(item.titleFr) || caption != OrEmpty(item.captionFr)
  }

  /** The Save button is enabled (`disabled={!dirty}`). */
  predicate SaveEnabled(title: string, caption: string, item: Server.GalleryItem) {
    Dirty(title, caption, item)
  }

  /** A card opens with the stored values, so Save starts disabled. */
  lemma FreshCardClean(item: Server.GalleryItem)
    ensures !SaveEnabled(OrEmpty(item.titleFr), OrEmpty(item.captionFr), item)
  {
  }

  /**
   * Saving sends both fields as strings; once the server has applied the edit,
   * the listed item matches the card's fields and Save is disabled again.
   */
  lemma SavedCardClean(id: nat, row: Server.ImageRow, title: string, caption: string)
    ensures !SaveEnabled(title, caption, Server.GalleryItemOf(id, Server.PatchedRow(row, Str(caption), Str(title))))
  {
  }

  /** The options of the status selector. */
  const StatusOptions: seq<string> := ["PENDING", "DONE"]

  /** Each option is a status the server accepts, and each status is offered. */
  lemma StatusOptionsMatchServer()
    ensures forall o :: o in StatusOptions ==> Server.ParseStatus(Str(o)).Some?
    ensures forall s: Server.Status :: Server.StatusName(s) in StatusOptions
  {
    forall s: Server.Status ensures Server.StatusName(s) in StatusOptions {
      match s
      case Pending =>
      case Done =>
    }
  }
}
