/**
 * The image picker: a pure file validator, and the `preview`/`error` state
 * that choosing or clearing a file changes. The parent's `onImageSelect` and
 * `onImageClear` callbacks are recorded as the calls made so far.
 */
module ImagePicker {
  import opened Wrappers
  import opened Browser
  import Utils
  import Strings

  const MaxFileSize: nat := 10 * 1024 * 1024
  const AcceptedTypes: seq<string> := ["image/jpeg", "image/png", "image/webp"]

  const TypeErrorMessage := "JPEG、PNG、WebP形式の画像を選択してください"
  /**
   * The size error shows `formatFileSize(MAX_FILE_SIZE)`. The limit is a whole
   * number of megabytes, for which one decimal place always reads ".0".
   */
  const SizeErrorMessage := "ファイルサイズが大きすぎます（最大" + Strings.IntToDecimal(MaxFileSize / Utils.MiB) + ".0 MB）"

  /** The limit falls in the megabyte branch of the size label, is exactly ten of them, and the message reads "10.0 MB". */
  lemma MaxSizeShownInMegabytes()
    ensures Utils.FormatFileSize(MaxFileSize).InMegabytes?
    ensures MaxFileSize == 10 * Utils.MiB && MaxFileSize % Utils.MiB == 0
    ensures SizeErrorMessage == "ファイルサイズが大きすぎます（最大10.0 MB）"
  {
    assert MaxFileSize / Utils.MiB == 10;
    assert Strings.NatToDecimal(1) == "1";
    assert Strings.NatToDecimal(10) == Strings.NatToDecimal(1) + "0";
  }

  /** `validateFile`: the type is checked before the size; exactly 10 MiB is accepted. */
  function ValidateFile(f: FileInfo): (r: Option<string>)
    ensures r == None <==> f.mimeType in AcceptedTypes && f.size <= MaxFileSize
    ensures f.mimeType !in AcceptedTypes ==> r == Some(TypeErrorMessage)
    ensures f.mimeType in AcceptedTypes && f.size > MaxFileSize ==> r == Some(SizeErrorMessage)
  {
    if f.mimeType !in AcceptedTypes then Some(TypeErrorMessage)
    else if f.size > MaxFileSize then Some(SizeErrorMessage)
    else None
  }

  /** The boundary: one byte over the limit is the first size that is refused. */
  lemma LimitIsInclusive(mimeType: string)
    requires mimeType in AcceptedTypes
    ensures ValidateFile(FileInfo(mimeType, MaxFileSize)) == None
    ensures ValidateFile(FileInfo(mimeType, MaxFileSize + 1)) == Some(SizeErrorMessage)
  {
  }

  class Picker {
    var preview: Option<string>
    var error: Option<string>
    /** Files handed to `readAsDataURL`, in order. */
    var readRequests: seq<FileInfo>
    /** Arguments of the `onImageSelect` calls, in order. */
    var selected: seq<string>
    /** Number of `onImageClear` calls. */
    var clears: nat

    constructor()
      ensures preview == None && error == None && readRequests == [] && selected == [] && clears == 0
    {
      preview := None;
      error := None;
      readRequests := [];
      selected := [];
      clears := 0;
    }

    /**
     * `processFile(file)`, with `read` the outcome of reading it. A rejected
     * file only sets the error. An accepted one clears the error and is read;
     * a successful read shows the data URL and hands it, prefix included, to
     * `onImageSelect`. A failed read has no handler and changes nothing more.
     */
    method ProcessFile(f: FileInfo, read: FileRead)
      modifies this
      ensures clears == old(clears)
      ensures ValidateFile(f).Some? ==>
        && error == ValidateFile(f)
        && preview == old(preview) && readRequests == old(readRequests) && selected == old(selected)
      ensures ValidateFile(f).None? ==>
        error == None && readRequests == old(readRequests) + [f]
      ensures ValidateFile(f).None? && read.Loaded? ==>
        preview == Some(read.dataUrl) && selected == old(selected) + [read.dataUrl]
      ensures ValidateFile(f).None? && read.ReadFailed? ==>
        preview == old(preview) && selected == old(selected)
    {
      var validationError := ValidateFile(f);
      if validationError.Some? {
        error := validationError;
        return;
      }
      error := None;
      readRequests := readRequests + [f];
      match read
      case Loaded(dataUrl) =>
        preview := Some(dataUrl);
        selected := selected + [dataUrl];
      case ReadFailed =>
    }

    /** `handleClear()`: drop the preview and the error, and tell the parent once. */
    method HandleClear()
      modifies this
      ensures preview == None && error == None && clears == old(clears) + 1
      ensures readRequests == old(readRequests) && selected == old(selected)
    {
      preview := None;
      error := None;
      clears := clears + 1;
    }
  }
}
