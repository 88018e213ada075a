/**
 * The standalone legacy page: file validation and reading, `clearImage`, and
 * `submitAppraisal` with its choice of error message. The page's DOM is held
 * as fields: the error banner, the preview source, the clear button, the
 * submit button and the result section.
 */
module LegacyApp {
  import opened Wrappers
  import opened Browser
  import Strings
  import ImagePicker

  const ValidTypes: seq<string> := ["image/jpeg", "image/png", "image/webp"]
  const MaxSize: nat := 10 * 1024 * 1024

  const TypeMessage := "JPG、PNG、またはWebP形式の画像を選択してください。"
  const SizeMessage := "画像サイズは10MB以下にしてください。"
  const ReadFailedMessage := "画像の読み込みに失敗しました。"
  const NoImageMessage := "画像を選択してください。"
  const UnreachableMessage := "サーバーに接続できません。バックエンドが起動しているか確認してください。"
  const AppraisalFallback := "鑑定に失敗しました。もう一度お試しください。"
  const Placeholder := "-"

  /** The validation at the top of `processFile`: type first, then size. */
  function Validate(f: FileInfo): (r: Option<string>)
    ensures r == None <==> f.mimeType in ValidTypes && f.size <= MaxSize
    ensures f.mimeType !in ValidTypes ==> r == Some(TypeMessage)
    ensures f.mimeType in ValidTypes && f.size > MaxSize ==> r == Some(SizeMessage)
  {
    if f.mimeType !in ValidTypes then Some(TypeMessage)
    else if f.size > MaxSize then Some(SizeMessage)
    else None
  }

  /** The legacy page and the picker accept the same files and refuse them for the same reason. */
  lemma ValidatorsAgree(f: FileInfo)
    ensures Validate(f).None? <==> ImagePicker.ValidateFile(f).None?
    ensures Validate(f) == Some(TypeMessage) <==> ImagePicker.ValidateFile(f) == Some(ImagePicker.TypeErrorMessage)
  {
  }

  /** The fields of the analysis response the legacy page reads. */
  datatype LegacyResult = LegacyResult(itemName: Option<string>, priceRange: Option<string>, advice: Option<string>)

  /** The three texts of the result section. */
  datatype ResultView = ResultView(itemName: string, priceRange: string, advice: string)

  const BlankView := ResultView(Placeholder, Placeholder, Placeholder)

  /** A field as `showResult` writes it: its value when truthy, else "-". */
  function Shown(v: Option<string>): (t: string)
    ensures Truthy(v) ==> t == v.value
    ensures !Truthy(v) ==> t == Placeholder
  {
    if Truthy(v) then v.value else Placeholder
  }

  /** What `showResult(data)` writes: every text is non-empty, and a result with nothing truthy reads as blank. */
  function View(r: LegacyResult): (v: ResultView)
    ensures v.itemName != "" && v.priceRange != "" && v.advice != ""
    ensures Truthy(r.itemName) ==> v.itemName == r.itemName.value
    ensures Truthy(r.priceRange) ==> v.priceRange == r.priceRange.value
    ensures Truthy(r.advice) ==> v.advice == r.advice.value
    ensures !Truthy(r.itemName) && !Truthy(r.priceRange) && !Truthy(r.advice) ==> v == BlankView
  {
    ResultView(Shown(r.itemName), Shown(r.priceRange), Shown(r.advice))
  }

  /** The message thrown for a non-ok response: its `detail` if truthy, else one naming the status. */
  function RefusalMessage(status: int, body: Body<LegacyResult>): (m: string)
    ensures body.Json? && Truthy(body.detail) ==> m == body.detail.value
    ensures !(body.Json? && Truthy(body.detail)) ==>
      m == "エラーが発生しました (" + Strings.IntToDecimal(status) + ")"
    ensures m != ""
  {
    if body.Json? && Truthy(body.detail) then body.detail.value
    else "エラーが発生しました (" + Strings.IntToDecimal(status) + ")"
  }

  /**
   * What one POST settles to: the view `showResult` writes, or the text
   * `showError` shows. A failed `fetch` is a `TypeError`; it gets the
   * connection message only when its text mentions "fetch". An unparsable
   * success body is a `SyntaxError` and never gets that message.
   */
  function SubmitOutcome(x: Exchange<LegacyResult>): (o: Result<ResultView, string>)
    ensures o.Ok? <==> x.Reply? && IsOk(x.status) && x.body.Json?
    ensures o.Ok? ==> o.value == View(x.body.value)
    ensures x.Unreachable? && Strings.Contains(x.reason, "fetch") ==> o == Err(UnreachableMessage)
    ensures x.Unreachable? && !Strings.Contains(x.reason, "fetch") ==>
      o == Err(if x.reason != "" then x.reason else AppraisalFallback)
    ensures x.Reply? && !IsOk(x.status) ==> o == Err(RefusalMessage(x.status, x.body))
    ensures x.Reply? && IsOk(x.status) && x.body.Malformed? ==>
      o == Err(if x.body.reason != "" then x.body.reason else AppraisalFallback)
    ensures o.Err? ==> o.error != ""
  {
    match x
    case Unreachable(reason) =>
      if Strings.Contains(reason, "fetch") then Err(UnreachableMessage)
      else Err(if reason != "" then reason else AppraisalFallback)
    case Reply(status, body) =>
      if !IsOk(status) then Err(RefusalMessage(status, body))
      else match body
        case Malformed(reason) => Err(if reason != "" then reason else AppraisalFallback)
        case Json(value, _) => Ok(View(value))
  }

  class Page {
    var selectedFile: Option<FileInfo>
    var imageBase64: Option<string>
    /** The error banner: `None` when hidden (its text is then empty). */
    var errorBanner: Option<string>
    var previewSrc: string
    var hasImage: bool
    var clearHidden: bool
    var submitDisabled: bool
    var submitLoading: bool
    var resultHidden: bool
    var resultView: ResultView
    /** The `image_base64` of every POST sent, in order. */
    var posted: seq<string>

    /** The page as `clearImage` leaves it, taken as its starting state. */
    predicate Cleared()
      reads this
    {
      && selectedFile == None && imageBase64 == None && errorBanner == None
      && previewSrc == "" && !hasImage && clearHidden && submitDisabled
      && resultHidden && resultView == BlankView
    }

    constructor()
      ensures Cleared() && !submitLoading && posted == []
    {
      selectedFile := None;
      imageBase64 := None;
      errorBanner := None;
      previewSrc := "";
      hasImage := false;
      clearHidden := true;
      submitDisabled := true;
      submitLoading := false;
      resultHidden := true;
      resultView := BlankView;
      posted := [];
    }

    /**
     * `processFile(file)`, with `read` the outcome of reading it. A rejected
     * file shows the message and keeps the previous selection. An accepted one
     * becomes the selection at once; the image and the buttons follow only a
     * successful read, and a failed read shows its own message.
     */
    method ProcessFile(f: FileInfo, read: FileRead)
      modifies this
      ensures resultHidden == old(resultHidden) && resultView == old(resultView)
      ensures posted == old(posted) && submitLoading == old(submitLoading)
      ensures Validate(f).Some? ==>
        && errorBanner == Validate(f)
        && selectedFile == old(selectedFile) && imageBase64 == old(imageBase64)
        && previewSrc == old(previewSrc) && hasImage == old(hasImage)
        && clearHidden == old(clearHidden) && submitDisabled == old(submitDisabled)
      ensures Validate(f).None? ==> selectedFile == Some(f)
      ensures Validate(f).None? && read.Loaded? ==>
        && errorBanner == None
        && imageBase64 == Some(read.dataUrl) && previewSrc == read.dataUrl
        && hasImage && !clearHidden && !submitDisabled
      ensures Validate(f).None? && read.ReadFailed? ==>
        && errorBanner == Some(ReadFailedMessage)
        && imageBase64 == old(imageBase64) && previewSrc == old(previewSrc) && hasImage == old(hasImage)
        && clearHidden == old(clearHidden) && submitDisabled == old(submitDisabled)
    {
      var rejection := Validate(f);
      if rejection.Some? {
        errorBanner := rejection;
        return;
      }
      selectedFile := Some(f);
      errorBanner := None;
      match read
      case Loaded(dataUrl) =>
        imageBase64 := Some(dataUrl);
        previewSrc := dataUrl;
        hasImage := true;
        clearHidden := false;
        submitDisabled := false;
      case ReadFailed =>
        errorBanner := Some(ReadFailedMessage);
    }

    /** `clearImage()`: forget the selection and return every element to its cleared look. */
    method ClearImage()
      modifies this
      ensures Cleared()
      ensures posted == old(posted) && submitLoading == old(submitLoading)
    {
      selectedFile := None;
      imageBase64 := None;
      previewSrc := "";
      hasImage := false;
      clearHidden := true;
      submitDisabled := true;
      resultHidden := true;
      resultView := BlankView;
      errorBanner := None;
    }

    /**
     * `submitAppraisal()`, with `reply` what the POST settled to. Without a
     * truthy image nothing is sent and only the message is shown. Otherwise
     * the image is posted, the page shows either the result or one error
     * message, and the submit button ends enabled.
     */
    method SubmitAppraisal(reply: Exchange<LegacyResult>) returns (requested: bool)
      modifies this
      ensures requested <==> Truthy(old(imageBase64))
      ensures selectedFile == old(selectedFile) && imageBase64 == old(imageBase64)
      ensures previewSrc == old(previewSrc) && hasImage == old(hasImage) && clearHidden == old(clearHidden)
      ensures !requested ==>
        && errorBanner == Some(NoImageMessage) && posted == old(posted)
        && submitDisabled == old(submitDisabled) && submitLoading == old(submitLoading)
        && resultHidden == old(resultHidden) && resultView == old(resultView)
      ensures requested ==>
        && posted == old(posted) + [old(imageBase64).value]
        && !submitDisabled && !submitLoading
        && (SubmitOutcome(reply).Ok? ==>
              errorBanner == None && !resultHidden && resultView == SubmitOutcome(reply).value)
        && (SubmitOutcome(reply).Err? ==>
              errorBanner == Some(SubmitOutcome(reply).error) && resultHidden && resultView == BlankView)
    {
      if !Truthy(imageBase64) {
        errorBanner := Some(NoImageMessage);
        return false;
      }
      requested := true;
      submitDisabled, submitLoading := true, true;
      errorBanner := None;
      resultHidden, resultView := true, BlankView;
      posted := posted + [imageBase64.value];
      match SubmitOutcome(reply) {
        case Ok(view) =>
          resultView, resultHidden := view, false;
        case Err(message) =>
          errorBanner := Some(message);
      }
      submitDisabled, submitLoading := false, false;
    }
  }

  /** A network failure whose text names `fetch` shows the connection message, not the raw error. */
  lemma FailedFetchShowsConnectionHint()
    ensures SubmitOutcome(Unreachable("Failed to fetch")) == Err(UnreachableMessage)
  {
    assert Strings.OccursAt("Failed to fetch", "fetch", 10);
  }

  /** A refusal without a usable body names the status code. */
  lemma {:induction false} RefusalWithoutDetail()
    ensures SubmitOutcome(Reply(500, Malformed("Unexpected token"))) == Err("エラーが発生しました (500)")
  {
    assert Strings.NatToDecimal(5) == "5";
    assert Strings.NatToDecimal(50) == "50";
    assert Strings.NatToDecimal(500) == "500";
    assert !IsOk(500);
    var body: Body<LegacyResult> := Malformed("Unexpected token");
    assert RefusalMessage(500, body) == "エラーが発生しました (" + "500" + ")";
    assert "エラーが発生しました (" + "500" + ")" == "エラーが発生しました (500)";
  }
}
