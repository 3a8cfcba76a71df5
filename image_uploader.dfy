/** The upload panel: which file of a selection or a drop is passed on for
    reading, the drag highlight, and the state and label of the analyze button.
    Reading the file into a data URL is browser I/O and is not modelled: the
    handlers return the file they would hand to the reader. */
module ImageUploader {
  import opened Wrappers
  import opened I18n
  import opened JsString

  /** A selected or dropped file, as far as the filter looks at it. */
  datatype File = File(name: string, mimeType: string)

  const ImageMimePrefix := "image/"

  // ----- Translation table (the keys whose values feed a modelled value) -----

  datatype Key = Analyzing | FindLookalike

  function KeyName(key: Key): string
  {
    match key
    case Analyzing => "analyzing"
    case FindLookalike => "findLookalike"
  }

  function Text(lang: Lang, key: Key): string
  {
    match (lang, key)
    case (En, Analyzing) => "Analyzing..."
    case (En, FindLookalike) => "Find My Lookalike"
    case (Zh, Analyzing) => "分析中..."
    case (Zh, FindLookalike) => "找到我的明星脸"
  }

  /** The panel's `t`: the table is complete, so it returns the locale's
      text and never falls back to the key. */
  function T(lang: Lang, key: Key): (r: string)
    ensures r == Text(lang, key) && r != ""
  {
    OrKey(Text(lang, key), KeyName(key))
  }

  // ----- File selection -----

  /** `files?.[0]`: nothing when the list is null or empty, else its first file. */
  function FirstFile(files: Option<seq<File>>): (f: Option<File>)
    ensures f.Some? <==> files.Some? && |files.value| > 0
    ensures f.Some? ==> f.value == files.value[0]
  {
    if files.Some? && |files.value| > 0 then Some(files.value[0]) else None
  }

  /** `handleFileChange`: the file goes to the reader only when its type starts
      with `image/`; otherwise nothing happens and no upload callback follows. */
  function HandleFileChange(file: File): (toRead: Option<File>)
    ensures toRead.Some? <==> StartsWith(file.mimeType, ImageMimePrefix)
    ensures toRead.Some? ==> toRead.value == file
  {
    if StartsWith(file.mimeType, ImageMimePrefix) then Some(file) else None
  }

  /** What an input change or a drop passes on: the first file, if it is an
      image; later files are never looked at, image or not. */
  function SelectedFile(files: Option<seq<File>>): (toRead: Option<File>)
    ensures toRead.Some? <==>
              files.Some? && |files.value| > 0 && StartsWith(files.value[0].mimeType, ImageMimePrefix)
    ensures toRead.Some? ==> toRead.value == files.value[0]
  {
    match FirstFile(files)
    case None => None
    case Some(f) => HandleFileChange(f)
  }

  /** Only the first file counts: changing or adding any file after it leaves
      the selection as it was. */
  lemma OnlyFirstFileMatters(first: File, rest1: seq<File>, rest2: seq<File>)
    ensures SelectedFile(Some([first] + rest1)) == SelectedFile(Some([first] + rest2))
  {
  }

  // ----- The analyze button -----

  /** `disabled={!uploadedImage || isLoading}`. */
  function AnalyzeDisabled(uploadedImage: Option<string>, isLoading: bool): (disabled: bool)
    ensures !disabled <==> Present(uploadedImage) && !isLoading
  {
    !Present(uploadedImage) || isLoading
  }

  /** The button reads "analyzing" while loading and "find my lookalike" otherwise. */
  function ButtonLabel(lang: Lang, isLoading: bool): (caption: string)
    ensures caption == (if isLoading then Text(lang, Analyzing) else Text(lang, FindLookalike))
  {
    if isLoading then T(lang, Analyzing) else T(lang, FindLookalike)
  }

  /** The two labels differ in each language, so the label tells the states apart. */
  lemma LabelShowsLoading(lang: Lang)
    ensures ButtonLabel(lang, true) != ButtonLabel(lang, false)
  {
    assert Text(lang, Analyzing)[1] != Text(lang, FindLookalike)[1];
  }

  // ----- The drop zone -----

  /** The drop zone's only state: whether a drag is over it (it is highlighted). */
  class DropZone {
    var isDragging: bool

    constructor ()
      ensures !isDragging
    {
      isDragging := false;
    }

    method OnDragEnter()
      modifies this
      ensures isDragging
    {
      isDragging := true;
    }

    /** Only suppresses the browser's default handling, so that a drop can happen. */
    method OnDragOver()
      ensures isDragging == old(isDragging)
    {
    }

    method OnDragLeave()
      modifies this
      ensures !isDragging
    {
      isDragging := false;
    }

    /** Ends the drag and passes on the first dropped file if it is an image. */
    method OnDrop(files: Option<seq<File>>) returns (toRead: Option<File>)
      modifies this
      ensures !isDragging
      ensures toRead == SelectedFile(files)
    {
      isDragging := false;
      var file := FirstFile(files);
      toRead := None;
      if file.Some? {
        toRead := HandleFileChange(file.value);
      }
    }

    /** The file input's change handler; it leaves the drag state alone. */
    method OnFileInputChange(files: Option<seq<File>>) returns (toRead: Option<File>)
      ensures toRead.Some? <==>
                files.Some? && |files.value| > 0 && StartsWith(files.value[0].mimeType, ImageMimePrefix)
      ensures toRead.Some? ==> toRead.value == files.value[0]
    {
      var file := FirstFile(files);
      toRead := None;
      if file.Some? {
        toRead := HandleFileChange(file.value);
      }
    }
  }
}
