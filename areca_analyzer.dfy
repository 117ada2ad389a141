/**
 * The upload form (`ArecaAnalyzer`): the image preview, the inline
 * validation error, the single local-storage slot that keeps the last image
 * across reloads, and the form state returned by the server action.
 * Browser services are explicit inputs: the file picker's selection, the
 * FileReader's result, and whether a local-storage call throws.
 */
module ArecaAnalyzer {
  import opened Wrappers
  import opened Text
  import opened Actions

  const MaxFileSize := 5 * 1024 * 1024
  const ImageCacheKey := "areca-image-cache"
  const ImageTypePrefix := "image/"
  const FileTooLargeError := "File size must be less than 5MB."
  const WrongTypeError := "Please select a valid image file."

  /** The parts of a browser `File` the handler looks at. */
  datatype FileInfo = FileInfo(size: nat, mimeType: string)

  /** Which way `handleFileChange` goes: no file, one of its two rejections, or reading. */
  datatype FileCheck = NoFile | TooLarge | WrongType | Accepted

  /** The size check comes first, then the type check. */
  function CheckFile(file: Option<FileInfo>): (c: FileCheck)
    ensures c == NoFile <==> file.None?
    ensures c == TooLarge <==> file.Some? && file.value.size > MaxFileSize
    ensures c == WrongType <==>
      file.Some? && file.value.size <= MaxFileSize && !StartsWith(file.value.mimeType, ImageTypePrefix)
    ensures c == Accepted <==>
      file.Some? && file.value.size <= MaxFileSize && StartsWith(file.value.mimeType, ImageTypePrefix)
  {
    match file
    case None => NoFile
    case Some(f) =>
      if f.size > MaxFileSize then TooLarge
      else if !StartsWith(f.mimeType, ImageTypePrefix) then WrongType
      else Accepted
  }

  /** `localStorage.getItem(IMAGE_CACHE_KEY)`. */
  function CachedImage(storage: map<string, string>): Option<string>
  {
    if ImageCacheKey in storage then Some(storage[ImageCacheKey]) else None
  }

  /**
   * The slot behaves as one storage cell: a read after `setItem` gives the
   * value written, a read after `removeItem` gives null, and writes to other
   * keys do not affect it.
   */
  lemma CacheSlotLaws(storage: map<string, string>, v: string, k: string)
    ensures CachedImage(storage[ImageCacheKey := v]) == Some(v)
    ensures CachedImage(storage - {ImageCacheKey}) == None
    ensures k != ImageCacheKey ==> CachedImage(storage[k := v]) == CachedImage(storage)
  {
  }

  /**
   * What `setItem` stores for `reader.result as string`: the data URL, or,
   * after a failed read (result null), the text "null".
   */
  function StoredText(read: Option<string>): string {
    if read.Some? then read.value else "null"
  }

  /** `state.error || localError`: the server's error wins when it is non-empty. */
  function DisplayedError(serverError: Option<string>, localError: Option<string>): (e: Option<string>)
    ensures Truthy(serverError) ==> e == serverError
    ensures !Truthy(serverError) ==> e == localError
    // the alert is shown exactly when one of the two errors is non-empty
    ensures Truthy(e) <==> Truthy(serverError) || Truthy(localError)
  {
    if Truthy(serverError) then serverError else localError
  }

  /** The hidden `photoDataUri` input: `filePreview || ""`. */
  function HiddenFieldValue(preview: Option<string>): (v: string)
    ensures v != "" <==> Truthy(preview)
    ensures v != "" ==> preview == Some(v)
  {
    if Truthy(preview) then preview.value else ""
  }

  class Analyzer<R> {
    var preview: Option<string>
    var localError: Option<string>
    /** The page's local storage; the form uses only the key ImageCacheKey. */
    var storage: map<string, string>
    /** The state `useFormState` keeps for `getAnalysis`. */
    var formState: FormState<R>

    /** The first render, before any effect has run. */
    constructor (storage: map<string, string>)
      ensures preview == None && localError == None
      ensures this.storage == storage && formState == FormState(None, None)
    {
      preview := None;
      localError := None;
      this.storage := storage;
      formState := FormState(None, None);
    }

    /** The mount effect: show the cached image if there is a non-empty one. */
    method Mount(readFails: bool)
      modifies this
      ensures preview ==
        if !readFails && Truthy(CachedImage(old(storage))) then CachedImage(old(storage)) else old(preview)
      ensures localError == old(localError) && storage == old(storage) && formState == old(formState)
    {
      if !readFails {
        var cachedImage := CachedImage(storage);
        if Truthy(cachedImage) {
          preview := cachedImage;
        }
      }
    }

    /**
     * `handleFileChange` followed, for an accepted file, by the reader's
     * `onloadend` with result `read` (None when the read failed); `writeFails`
     * says whether `setItem` throws.
     */
    method SelectFile(file: Option<FileInfo>, read: Option<string>, writeFails: bool) returns (check: FileCheck)
      modifies this
      ensures check == CheckFile(file)
      ensures formState == old(formState)
      ensures check != Accepted ==> preview == old(preview) && storage == old(storage)
      ensures check == NoFile ==> localError == old(localError)
      ensures check == TooLarge ==> localError == Some(FileTooLargeError)
      ensures check == WrongType ==> localError == Some(WrongTypeError)
      ensures check == Accepted ==> preview == read && localError == None
      ensures check == Accepted && !writeFails ==> storage == old(storage)[ImageCacheKey := StoredText(read)]
      ensures check == Accepted && writeFails ==> storage == old(storage)
    {
      check := CheckFile(file);
      match check
      case NoFile =>
      case TooLarge =>
        localError := Some(FileTooLargeError);
      case WrongType =>
        localError := Some(WrongTypeError);
      case Accepted =>
        preview := read;
        if !writeFails {
          storage := storage[ImageCacheKey := StoredText(read)];
        }
        localError := None;
    }

    /** `handleClear`; `removeFails` says whether `removeItem` throws. */
    method Clear(removeFails: bool)
      modifies this
      ensures preview == None
      ensures storage == if removeFails then old(storage) else old(storage) - {ImageCacheKey}
      ensures localError == old(localError) && formState == old(formState)
    {
      preview := None;
      if !removeFails {
        storage := storage - {ImageCacheKey};
      }
    }

    /** Submitting the form: `getAnalysis` on the previous state and the hidden field. */
    method Submit(flow: string -> FlowOutcome<R>) returns (calls: seq<string>)
      modifies this
      ensures var a := GetAnalysis(old(formState), Some(HiddenFieldValue(old(preview))), flow);
        formState == a.state && calls == a.calls
      ensures preview == old(preview) && localError == old(localError) && storage == old(storage)
    {
      var a := GetAnalysis(formState, Some(HiddenFieldValue(preview)), flow);
      formState := a.state;
      calls := a.calls;
    }
  }

  /**
   * Loading an accepted image and reloading the page: the new page shows the
   * image again, unless the write failed (then whatever was cached before
   * comes back) or the data URL was empty.
   */
  method ReloadAfterUpload<R>(storage: map<string, string>, file: FileInfo, dataUrl: string, writeFails: bool)
    returns (restored: Option<string>)
    requires CheckFile(Some(file)) == Accepted
    ensures !writeFails ==> restored == if dataUrl != "" then Some(dataUrl) else None
    ensures writeFails ==> restored == if Truthy(CachedImage(storage)) then CachedImage(storage) else None
  {
    var page := new Analyzer<R>(storage);
    page.Mount(false);
    var _ := page.SelectFile(Some(file), Some(dataUrl), writeFails);
    var reloaded := new Analyzer<R>(page.storage);
    reloaded.Mount(false);
    restored := reloaded.preview;
  }

  /** Clearing and reloading: nothing is restored when the removal succeeded. */
  method ReloadAfterClear<R>(storage: map<string, string>, removeFails: bool) returns (restored: Option<string>)
    ensures !removeFails ==> restored == None
    ensures removeFails ==> restored == if Truthy(CachedImage(storage)) then CachedImage(storage) else None
  {
    var page := new Analyzer<R>(storage);
    page.Mount(false);
    page.Clear(removeFails);
    var reloaded := new Analyzer<R>(page.storage);
    reloaded.Mount(false);
    restored := reloaded.preview;
  }

  /**
   * A read that fails after an accepted selection: the preview is emptied,
   * the slot receives the text "null", and a reload shows that text as the
   * preview, which the server action then rejects.
   */
  method ReloadAfterFailedRead<R>(storage: map<string, string>, file: FileInfo, flow: string -> FlowOutcome<R>)
    returns (current: Option<string>, restored: Option<string>, answer: FormState<R>)
    requires CheckFile(Some(file)) == Accepted
    ensures current == None
    ensures restored == Some("null")
    ensures answer == Rejected()
  {
    var page := new Analyzer<R>(storage);
    page.Mount(false);
    var _ := page.SelectFile(Some(file), None, false);
    current := page.preview;
    var reloaded := new Analyzer<R>(page.storage);
    reloaded.Mount(false);
    restored := reloaded.preview;
    var _ := reloaded.Submit(flow);
    answer := reloaded.formState;
  }

  /** A form without a preview submits "" and is rejected without a flow call. */
  lemma EmptyFormRejected<R>(prevState: FormState<R>, flow: string -> FlowOutcome<R>)
    ensures GetAnalysis(prevState, Some(HiddenFieldValue(None)), flow) == Analysis(Rejected(), [])
  {
  }

  /** A file of exactly 5 MiB passes the size check; one byte more fails it, whatever its type. */
  lemma SizeLimitBoundary()
    ensures CheckFile(Some(FileInfo(MaxFileSize, "image/png"))) == Accepted
    ensures CheckFile(Some(FileInfo(MaxFileSize + 1, "image/png"))) == TooLarge
    ensures CheckFile(Some(FileInfo(MaxFileSize + 1, "text/plain"))) == TooLarge
  {
  }
}
