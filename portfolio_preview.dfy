/**
 * The result page: which of its three views is shown, which buttons each
 * view offers, and what the copy and download buttons hand to the
 * clipboard and to the archive. JavaScript truthiness decides: `null` and
 * the empty string both count as "nothing".
 */
module PortfolioPreview {
  import opened Optional
  import opened Text
  import opened Types

  datatype View = Failed(message: string) | Generating | Ready(html: string)

  /** The buttons of the result page. */
  datatype Button = TryAgainButton | CopyButton | DownloadButton | StartOverButton

  /** What a button calls. */
  datatype Callback = CallsOnReset | CallsHandleCopy | CallsHandleDownloadZip

  /** A nullable string in a JavaScript condition: neither `null` nor empty. */
  predicate Truthy(s: Option<string>) {
    s.Some? && s.value != ""
  }

  /**
   * The view the page renders: an error wins whatever the HTML is; without
   * one, missing or empty HTML shows the waiting view and anything else the
   * finished page.
   */
  function SelectView(htmlContent: Option<string>, error: Option<string>): (v: View)
    ensures v.Failed? <==> Truthy(error)
    ensures v.Failed? ==> v.message == error.value
    ensures v.Generating? <==> !Truthy(error) && !Truthy(htmlContent)
    ensures v.Ready? ==> Truthy(htmlContent) && v.html == htmlContent.value
  {
    if Truthy(error) then Failed(error.value)
    else if !Truthy(htmlContent) then Generating
    else Ready(htmlContent.value)
  }

  /** The buttons a view offers, in page order. */
  function Buttons(v: View): seq<Button> {
    match v
    case Failed(_) => [TryAgainButton]
    case Generating => []
    case Ready(_) => [CopyButton, DownloadButton, StartOverButton]
  }

  function Handler(b: Button): Callback {
    match b
    case TryAgainButton => CallsOnReset
    case CopyButton => CallsHandleCopy
    case DownloadButton => CallsHandleDownloadZip
    case StartOverButton => CallsOnReset
  }

  /**
   * "Try Again" and "Start Over" both call `onReset` and nothing else, and
   * every view but the waiting one offers a way back.
   */
  lemma ResetButtons(v: View)
    ensures forall b :: b in Buttons(v) ==> (Handler(b) == CallsOnReset <==> b == TryAgainButton || b == StartOverButton)
    ensures (exists b :: b in Buttons(v) && Handler(b) == CallsOnReset) <==> !v.Generating?
  {
    match v
    case Failed(_) => assert TryAgainButton in Buttons(v);
    case Generating =>
    case Ready(_) => assert StartOverButton in Buttons(v);
  }

  const ZipSuffix: string := "_portfolio.zip"

  /**
   * The archive's file name: the user's name with each run of white space
   * replaced by one underscore, then "_portfolio.zip". It never contains
   * white space, and a name without white space is kept as it is.
   */
  function DownloadName(name: string): (fileName: string)
    ensures EndsWith(fileName, ZipSuffix)
    ensures SpaceFree(fileName)
    ensures SpaceFree(name) ==> fileName == name + ZipSuffix
  {
    var stem := ReplaceSpaceRuns(name, '_');
    assert SpaceFree(name) ==> stem == name by {
      if SpaceFree(name) { ReplaceSpaceFree(name, '_'); }
    }
    assert SpaceFree(ZipSuffix);
    assert (stem + ZipSuffix)[|stem + ZipSuffix| - |ZipSuffix|..] == ZipSuffix;
    stem + ZipSuffix
  }

  /** A run of white space between two words of the name becomes a single underscore. */
  lemma DownloadNameJoinsWords(first: string, gap: string, last: string)
    requires SpaceFree(first) && SpaceFree(last)
    requires gap != [] && forall i :: 0 <= i < |gap| ==> IsSpace(gap[i])
    ensures DownloadName(first + gap + last) == first + "_" + last + ZipSuffix
  {
    ReplaceRunBetweenWords(first, gap, last, '_');
    assert last == [] || !IsSpace(last[0]);
    ReplaceSpaceFree(last, '_');
  }

  /** What the download produces: a zip archive holding one file named index.html. */
  datatype Archive = Archive(fileName: string, entryName: string, entry: string)

  /** `handleDownloadZip`: nothing without content; otherwise the archive of the HTML, named after the user. */
  function HandleDownloadZip(htmlContent: Option<string>, formData: PortfolioData): (r: Option<Archive>)
    ensures r.Some? <==> Truthy(htmlContent)
    ensures r.Some? ==> r.value.entry == htmlContent.value && r.value.entryName == "index.html"
    ensures r.Some? ==> r.value.fileName == DownloadName(formData.basicInfo.name)
  {
    if !Truthy(htmlContent) then None
    else Some(Archive(DownloadName(formData.basicInfo.name), "index.html", htmlContent.value))
  }

  /** `handleCopy`: nothing without content; otherwise the text written to the clipboard, the HTML itself. */
  function HandleCopy(htmlContent: Option<string>): (clip: Option<string>)
    ensures clip.Some? <==> Truthy(htmlContent)
    ensures clip.Some? ==> clip == htmlContent
  {
    if !Truthy(htmlContent) then None else htmlContent
  }

  /** Copy and download only ever act on the content of the ready view. */
  lemma ActionsNeedReadyView(htmlContent: Option<string>, error: Option<string>, formData: PortfolioData)
    requires !Truthy(error)
    ensures HandleCopy(htmlContent).Some? <==> SelectView(htmlContent, error).Ready?
    ensures HandleDownloadZip(htmlContent, formData).Some? <==> SelectView(htmlContent, error).Ready?
  {
  }
}
