/**
 * The result screen: it shows the generated poster, saves it under a
 * timestamped file name, and refines it with a free-text edit request.
 * The clock (`Date.now()`) and the service's SDK are parameters; the alert
 * shown when an edit fails is an `EditAttempted` outcome holding a failure.
 */
module ResultView {
  import opened Wrappers
  import opened JsStrings
  import opened GeminiService

  const FileNamePrefix := "vs-cover-"
  const FileNameExtension := ".png"

  /** The name a download is saved under, for the millisecond timestamp of the click. */
  function DownloadFileName(timestamp: nat): (fileName: string)
    ensures StartsWith(fileName, FileNamePrefix) && EndsWith(fileName, FileNameExtension)
    ensures |fileName| > |FileNamePrefix| + |FileNameExtension|
  {
    var name := FileNamePrefix + NatToDecimal(timestamp) + FileNameExtension;
    StartsWithAppend(FileNamePrefix, NatToDecimal(timestamp));
    StartsWithExtend(FileNamePrefix + NatToDecimal(timestamp), FileNamePrefix, FileNameExtension);
    EndsWithAppend(FileNamePrefix + NatToDecimal(timestamp), FileNameExtension);
    name
  }

  /** Reads the timestamp back from a download file name; `None` for any other name. */
  function TimestampOfFileName(fileName: string): (timestamp: Option<nat>)
    ensures timestamp.Some? ==> StartsWith(fileName, FileNamePrefix) && EndsWith(fileName, FileNameExtension)
  {
    if |fileName| > |FileNamePrefix| + |FileNameExtension| && StartsWith(fileName, FileNamePrefix)
      && EndsWith(fileName, FileNameExtension)
    then
      var digits := fileName[|FileNamePrefix|..|fileName| - |FileNameExtension|];
      if IsDecimal(digits) then Some(ParseDecimal(digits)) else None
    else
      None
  }

  /** The timestamp of a download can be read back from its file name. */
  lemma DownloadFileNameRoundTrip(timestamp: nat)
    ensures TimestampOfFileName(DownloadFileName(timestamp)) == Some(timestamp)
  {
    var digits := NatToDecimal(timestamp);
    var name := DownloadFileName(timestamp);
    assert name[|FileNamePrefix|..|name| - |FileNameExtension|] == digits;
    ParseNatToDecimal(timestamp);
  }

  /** Downloads made at different instants get different file names. */
  lemma DownloadFileNamesDistinct(timestamp1: nat, timestamp2: nat)
    requires timestamp1 != timestamp2
    ensures DownloadFileName(timestamp1) != DownloadFileName(timestamp2)
  {
    DownloadFileNameRoundTrip(timestamp1);
    DownloadFileNameRoundTrip(timestamp2);
  }

  /** The temporary link a download clicks: the current image under the timestamped name. */
  datatype DownloadLink = DownloadLink(href: string, download: string)

  /** What one press of the apply button came to. */
  datatype EditOutcome =
    | EditSkipped                                         // the edit text was blank
    | EditAttempted(result: Result<string, ServiceError>) // the service was called (or threw for want of a key)

  /** The state of the result screen. */
  class ResultViewState {
    var currentImageUrl: string
    var editPrompt: string
    var isEditing: bool
    var isLoadingEdit: bool

    /** The screen as it opens on a freshly generated image. */
    constructor (imageUrl: string)
      ensures currentImageUrl == imageUrl && editPrompt == ""
      ensures !isEditing && !isLoadingEdit
    {
      currentImageUrl, editPrompt := imageUrl, "";
      isEditing, isLoadingEdit := false, false;
    }

    /** The apply button is enabled exactly when the edit text is not blank. */
    function ApplyEnabled(): (enabled: bool)
      reads this`editPrompt
      ensures enabled <==> !IsBlank(editPrompt)
    {
      Trim(editPrompt) != ""
    }

    /** `handleDownload`: builds the link for the current image; nothing on the screen changes. */
    method HandleDownload(timestamp: nat) returns (link: DownloadLink)
      ensures link.href == currentImageUrl
      ensures link.download == DownloadFileName(timestamp)
      ensures TimestampOfFileName(link.download) == Some(timestamp)
    {
      link := DownloadLink(currentImageUrl, DownloadFileName(timestamp));
      DownloadFileNameRoundTrip(timestamp);
    }

    /**
     * `handleEdit`. Blank edit text does nothing. Otherwise the payload of the
     * current image (the text after its first comma) is sent with the edit
     * text; a success replaces the image, clears the text and closes the
     * editor, a failure leaves all three as they were, and the loading flag
     * is cleared whatever the outcome.
     */
    method HandleEdit(apiKey: string, sdk: Request -> SdkOutcome) returns (outcome: EditOutcome, sent: Option<Request>)
      modifies this`currentImageUrl, this`editPrompt, this`isEditing, this`isLoadingEdit
      ensures IsBlank(old(editPrompt)) ==>
        outcome == EditSkipped && sent == None
        && currentImageUrl == old(currentImageUrl) && editPrompt == old(editPrompt)
        && isEditing == old(isEditing) && isLoadingEdit == old(isLoadingEdit)
      ensures !IsBlank(old(editPrompt)) ==>
        var request := EditRequest(SecondField(old(currentImageUrl), ','), old(editPrompt));
        && outcome == EditAttempted(ServiceResult(apiKey, request, sdk))
        && sent == (if apiKey == "" then None else Some(request))
        && !isLoadingEdit
      ensures outcome.EditAttempted? && outcome.result.Success? ==>
        currentImageUrl == outcome.result.value && editPrompt == "" && !isEditing
      ensures outcome.EditAttempted? && outcome.result.Failure? ==>
        currentImageUrl == old(currentImageUrl) && editPrompt == old(editPrompt) && isEditing == old(isEditing)
    {
      if Trim(editPrompt) == "" {
        return EditSkipped, None;
      }
      isLoadingEdit := true;
      var base64 := SecondField(currentImageUrl, ',');
      var result;
      result, sent := EditImageWithFlash(apiKey, base64, editPrompt, sdk);
      if result.Success? {
        currentImageUrl := result.value;
        editPrompt := "";
        isEditing := false;
      }
      isLoadingEdit := false;
      outcome := EditAttempted(result);
    }
  }
}
