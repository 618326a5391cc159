/** src/components/chat/chat-item.tsx: what one chat message shows.  The file
    category decides how an attachment is drawn; ownership decides the edit and
    delete buttons; the deleted flag decides the body, the placeholder and the
    reactions row. */
module ChatItem {
  import opened Wrappers
  import opened Text

  /** `url.split(".").pop()`: the text after the last dot, or the whole url
      when it has no dot. */
  function Extension(url: string): (tail: string)
    ensures |tail| <= |url| && tail == url[|url| - |tail|..]
    ensures '.' !in tail
    ensures |tail| < |url| ==> url[|url| - |tail| - 1] == '.'
    ensures '.' !in url ==> tail == url
  {
    var pieces := Split(url, '.');
    SplitLastIsSuffix(url, '.');
    SplitPiecesLackSep(url, '.');
    pieces[|pieces| - 1]
  }

  /** `fileUrl?.split(".").pop()?.toLowerCase()`: the extension lower-cased, or
      nothing when there is no url. */
  function FileType(fileUrl: Option<string>): (r: Option<string>)
    ensures r.Some? <==> fileUrl.Some?
    ensures r.Some? ==> r.value == ToLower(Extension(fileUrl.value)) && '.' !in r.value
  {
    if fileUrl.None? then None
    else
      var tail := Extension(fileUrl.value);
      assert forall k | 0 <= k < |tail| :: ToLower(tail)[k] != '.';
      Some(ToLower(tail))
  }

  const ImageTypes: seq<string> := ["jpg", "jpeg", "png", "gif", "webp", "svg"]
  const DocumentTypes: seq<string> := ["doc", "docx", "txt", "rtf", "odt"]
  const SpreadsheetTypes: seq<string> := ["xls", "xlsx", "csv", "ods"]
  const ArchiveTypes: seq<string> := ["zip", "rar", "7z", "tar", "gz"]
  const VideoTypes: seq<string> := ["mp4", "avi", "mov", "wmv", "flv", "webm"]
  const AudioTypes: seq<string> := ["mp3", "wav", "ogg", "m4a", "flac"]

  /** `list.includes(fileType || "")`. */
  predicate Listed(list: seq<string>, fileUrl: Option<string>) {
    FileType(fileUrl).GetOr("") in list
  }

  predicate IsPdf(fileUrl: Option<string>) { FileType(fileUrl) == Some("pdf") && Truthy(fileUrl) }
  predicate IsImage(fileUrl: Option<string>) { Truthy(fileUrl) && Listed(ImageTypes, fileUrl) }
  predicate IsDocument(fileUrl: Option<string>) { Truthy(fileUrl) && Listed(DocumentTypes, fileUrl) }
  predicate IsSpreadsheet(fileUrl: Option<string>) { Truthy(fileUrl) && Listed(SpreadsheetTypes, fileUrl) }
  predicate IsArchive(fileUrl: Option<string>) { Truthy(fileUrl) && Listed(ArchiveTypes, fileUrl) }
  predicate IsVideo(fileUrl: Option<string>) { Truthy(fileUrl) && Listed(VideoTypes, fileUrl) }
  predicate IsAudio(fileUrl: Option<string>) { Truthy(fileUrl) && Listed(AudioTypes, fileUrl) }
  predicate IsOtherFile(fileUrl: Option<string>) {
    Truthy(fileUrl) && !IsImage(fileUrl) && !IsPdf(fileUrl) && !IsDocument(fileUrl) && !IsSpreadsheet(fileUrl)
    && !IsArchive(fileUrl) && !IsVideo(fileUrl) && !IsAudio(fileUrl)
  }

  /** How an attachment is drawn: the blocks of lines 130-233, one per flag. */
  datatype FileCategory = Image | Pdf | Document | Spreadsheet | Archive | Video | Audio | OtherFile

  /** The category whose flag is set, if any. */
  function Category(fileUrl: Option<string>): Option<FileCategory> {
    if !Truthy(fileUrl) then None
    else if IsImage(fileUrl) then Some(Image)
    else if IsPdf(fileUrl) then Some(Pdf)
    else if IsDocument(fileUrl) then Some(Document)
    else if IsSpreadsheet(fileUrl) then Some(Spreadsheet)
    else if IsArchive(fileUrl) then Some(Archive)
    else if IsVideo(fileUrl) then Some(Video)
    else if IsAudio(fileUrl) then Some(Audio)
    else Some(OtherFile)
  }

  /** No image extension is in a later list or is "pdf". */
  lemma ImageTypesApart()
    ensures forall e :: e in ImageTypes ==> e !in DocumentTypes + SpreadsheetTypes + ArchiveTypes + VideoTypes + AudioTypes + ["pdf"]
  {
  }

  /** No document extension is in a later list or is "pdf". */
  lemma DocumentTypesApart()
    ensures forall e :: e in DocumentTypes ==> e !in SpreadsheetTypes + ArchiveTypes + VideoTypes + AudioTypes + ["pdf"]
  {
  }

  /** No extension is in two of the lists, and "pdf" is in none of them. */
  lemma ListsDisjoint()
    ensures forall e :: e in ImageTypes ==> e !in DocumentTypes + SpreadsheetTypes + ArchiveTypes + VideoTypes + AudioTypes + ["pdf"]
    ensures forall e :: e in DocumentTypes ==> e !in SpreadsheetTypes + ArchiveTypes + VideoTypes + AudioTypes + ["pdf"]
    ensures forall e :: e in SpreadsheetTypes ==> e !in ArchiveTypes + VideoTypes + AudioTypes + ["pdf"]
    ensures forall e :: e in ArchiveTypes ==> e !in VideoTypes + AudioTypes + ["pdf"]
    ensures forall e :: e in VideoTypes ==> e !in AudioTypes + ["pdf"]
    ensures forall e :: e in AudioTypes ==> e != "pdf"
  {
    ImageTypesApart();
    DocumentTypesApart();
  }

  /** Each flag of lines 97-104 holds exactly when the url falls in that one
      category, so a non-empty url sets exactly one flag and a missing or empty
      url sets none. */
  lemma ExactlyOneCategory(fileUrl: Option<string>)
    ensures IsImage(fileUrl) <==> Category(fileUrl) == Some(Image)
    ensures IsPdf(fileUrl) <==> Category(fileUrl) == Some(Pdf)
    ensures IsDocument(fileUrl) <==> Category(fileUrl) == Some(Document)
    ensures IsSpreadsheet(fileUrl) <==> Category(fileUrl) == Some(Spreadsheet)
    ensures IsArchive(fileUrl) <==> Category(fileUrl) == Some(Archive)
    ensures IsVideo(fileUrl) <==> Category(fileUrl) == Some(Video)
    ensures IsAudio(fileUrl) <==> Category(fileUrl) == Some(Audio)
    ensures IsOtherFile(fileUrl) <==> Category(fileUrl) == Some(OtherFile)
    ensures Category(fileUrl).Some? <==> Truthy(fileUrl)
  {
    ListsDisjoint();
  }

  /** `isOwner`; admin and moderator are the constants `false` at lines 90-91. */
  predicate IsOwner(currentUserId: string, authorId: string) {
    currentUserId == authorId
  }

  /** `canDeleteMessage`: not deleted and owned by the current user. */
  predicate CanDelete(deleted: bool, currentUserId: string, authorId: string) {
    !deleted && (false || false || IsOwner(currentUserId, authorId))
  }

  /** `canEditMessage`: not deleted, owned, and no attachment. */
  predicate CanEdit(deleted: bool, currentUserId: string, authorId: string, fileUrl: Option<string>) {
    !deleted && IsOwner(currentUserId, authorId) && !Truthy(fileUrl)
  }

  /** Every message that may be edited may also be deleted, and an attachment is never editable. */
  lemma EditImpliesDelete(deleted: bool, currentUserId: string, authorId: string, fileUrl: Option<string>)
    ensures CanEdit(deleted, currentUserId, authorId, fileUrl) ==> CanDelete(deleted, currentUserId, authorId)
    ensures Truthy(fileUrl) ==> !CanEdit(deleted, currentUserId, authorId, fileUrl)
    ensures CanDelete(deleted, currentUserId, authorId) <==> !deleted && currentUserId == authorId
  {
  }

  /** The text paragraph: no attachment, not deleted, non-empty content. */
  predicate ShowsText(fileUrl: Option<string>, deleted: bool, content: string) {
    !Truthy(fileUrl) && !deleted && content != ""
  }

  /** "(edited)" inside the text paragraph. */
  predicate ShowsEdited(fileUrl: Option<string>, deleted: bool, content: string, isUpdated: bool) {
    ShowsText(fileUrl, deleted, content) && isUpdated && !deleted
  }

  /** "This message has been deleted." */
  predicate ShowsDeletedNotice(fileUrl: Option<string>, deleted: bool) {
    !Truthy(fileUrl) && deleted
  }

  /** The reactions row. */
  predicate ShowsReactions(deleted: bool) {
    !deleted
  }

  /** The text and the placeholder never appear together, a deleted message shows
      no reactions and no buttons, and a message without an attachment that is
      not deleted shows its text exactly when it has some. */
  lemma BodyExclusive(fileUrl: Option<string>, deleted: bool, content: string, currentUserId: string, authorId: string)
    ensures !(ShowsText(fileUrl, deleted, content) && ShowsDeletedNotice(fileUrl, deleted))
    ensures deleted ==> !ShowsReactions(deleted) && !CanDelete(deleted, currentUserId, authorId)
    ensures !Truthy(fileUrl) && !deleted ==> (ShowsText(fileUrl, deleted, content) <==> content != "")
    ensures Truthy(fileUrl) ==> !ShowsText(fileUrl, deleted, content) && !ShowsDeletedNotice(fileUrl, deleted)
  {
  }
}
