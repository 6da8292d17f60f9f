/**
 * The page-level controller of the dashboard: the state the page holds in React hooks and the
 * handlers that update it. Asynchronous completions become explicit events: a FileReader that
 * finishes reading is `ImageLoaded`, the end of the analysis delay is `AnalysisFinished`, a tick
 * of the sensor interval is `SensorTick`. The callbacks still outstanding are kept as a
 * multiset of pending reads (`pendingReads`) and a count of pending delays
 * (`pendingAnalyses`), so an event can only fire after the call that scheduled it.
 */
module Dashboard {
  import opened Wrappers
  import opened MockData

  /** A file handed over by the file picker or a drop; it is never inspected. */
  datatype ImageFile = ImageFile(name: string, mimeType: string)

  /** The stage of the analysis workflow that the page shows. */
  datatype Stage = Idle | Analyzing | Complete

  class Controller {
    var sensorData: SensorReading
    var uploadedImage: Option<string>
    var isAnalyzing: bool
    var analysisResults: Option<AnalysisResult>
    var dragActive: bool
    /** Files whose FileReader has not yet fired `onload`. */
    var pendingReads: multiset<ImageFile>
    /** Analysis delays that have been started and not yet elapsed. */
    var pendingAnalyses: nat

    /** The generated data stays in range and the analysing flag implies a pending analysis. */
    ghost predicate Valid()
      reads this
    {
      && SensorInRange(sensorData)
      && (analysisResults.Some? ==> AnalysisInRange(analysisResults.value))
      && (isAnalyzing ==> pendingAnalyses > 0)
    }

    function CurrentStage(): (st: Stage)
      reads this
      ensures st == Analyzing <==> isAnalyzing
      ensures st == Complete <==> !isAnalyzing && analysisResults.Some?
      ensures st == Idle <==> !isAnalyzing && analysisResults.None?
    {
      if isAnalyzing then Analyzing else if analysisResults.Some? then Complete else Idle
    }

    /** Mounting the page: the first reading is generated, nothing is uploaded or analysed. */
    constructor (draws: SensorDraws, timestamp: string)
      requires ValidSensorDraws(draws)
      ensures Valid()
      ensures sensorData == GenerateSensorData(draws, timestamp)
      ensures uploadedImage == None && analysisResults == None
      ensures !isAnalyzing && !dragActive
      ensures pendingReads == multiset{} && pendingAnalyses == 0
      ensures CurrentStage() == Idle
    {
      sensorData := GenerateSensorData(draws, timestamp);
      uploadedImage := None;
      isAnalyzing := false;
      analysisResults := None;
      dragActive := false;
      pendingReads := multiset{};
      pendingAnalyses := 0;
    }

    /** One tick of the sensor interval: the reading is replaced wholesale. */
    method SensorTick(draws: SensorDraws, timestamp: string)
      requires Valid() && ValidSensorDraws(draws)
      modifies this
      ensures Valid()
      ensures sensorData == GenerateSensorData(draws, timestamp)
      ensures uploadedImage == old(uploadedImage) && isAnalyzing == old(isAnalyzing)
      ensures analysisResults == old(analysisResults) && dragActive == old(dragActive)
      ensures pendingReads == old(pendingReads) && pendingAnalyses == old(pendingAnalyses)
    {
      sensorData := GenerateSensorData(draws, timestamp);
    }

    /** `handleImageUpload`: starts reading the file; nothing else changes until it is loaded. */
    method HandleImageUpload(file: ImageFile)
      requires Valid()
      modifies this
      ensures Valid()
      ensures pendingReads == old(pendingReads) + multiset{file}
      ensures sensorData == old(sensorData) && uploadedImage == old(uploadedImage)
      ensures isAnalyzing == old(isAnalyzing) && analysisResults == old(analysisResults)
      ensures dragActive == old(dragActive) && pendingAnalyses == old(pendingAnalyses)
    {
      pendingReads := pendingReads + multiset{file};
    }

    /** The reader's `onload`: the data URL is stored as the image, then an analysis starts. */
    method ImageLoaded(file: ImageFile, dataUrl: string)
      requires Valid() && file in pendingReads
      modifies this
      ensures Valid()
      ensures pendingReads == old(pendingReads) - multiset{file}
      ensures uploadedImage == Some(dataUrl)
      ensures isAnalyzing && CurrentStage() == Analyzing
      ensures pendingAnalyses == old(pendingAnalyses) + 1
      ensures sensorData == old(sensorData) && analysisResults == old(analysisResults)
      ensures dragActive == old(dragActive)
    {
      pendingReads := pendingReads - multiset{file};
      uploadedImage := Some(dataUrl);
      AnalyzeImage();
    }

    /** The synchronous start of `analyzeImage`: the flag is raised and the delay begins. */
    method AnalyzeImage()
      requires Valid()
      modifies this
      ensures Valid()
      ensures isAnalyzing
      ensures pendingAnalyses == old(pendingAnalyses) + 1
      ensures sensorData == old(sensorData) && uploadedImage == old(uploadedImage)
      ensures analysisResults == old(analysisResults) && dragActive == old(dragActive)
      ensures pendingReads == old(pendingReads)
    {
      isAnalyzing := true;
      pendingAnalyses := pendingAnalyses + 1;
    }

    /** The end of one analysis delay: the mocked result is stored and the flag is cleared. */
    method AnalysisFinished(draws: AnalysisDraws, timestamp: string)
      requires Valid() && pendingAnalyses > 0 && ValidAnalysisDraws(draws)
      modifies this
      ensures Valid()
      ensures analysisResults == Some(MockAnalysisResult(draws, timestamp))
      ensures !isAnalyzing && CurrentStage() == Complete
      ensures pendingAnalyses == old(pendingAnalyses) - 1
      ensures sensorData == old(sensorData) && uploadedImage == old(uploadedImage)
      ensures dragActive == old(dragActive) && pendingReads == old(pendingReads)
    {
      analysisResults := Some(MockAnalysisResult(draws, timestamp));
      isAnalyzing := false;
      pendingAnalyses := pendingAnalyses - 1;
    }

    /** `handleDrag`: enter and over raise the highlight, leave lowers it, others keep it. */
    method HandleDrag(eventType: string)
      requires Valid()
      modifies this`dragActive
      ensures Valid()
      ensures eventType == "dragenter" || eventType == "dragover" ==> dragActive
      ensures eventType == "dragleave" ==> !dragActive
      ensures eventType !in {"dragenter", "dragover", "dragleave"} ==> dragActive == old(dragActive)
    {
      if eventType == "dragenter" || eventType == "dragover" {
        dragActive := true;
      } else if eventType == "dragleave" {
        dragActive := false;
      }
    }

    /** `handleDrop`: the highlight is cleared and the first dropped file, if any, is uploaded. */
    method HandleDrop(files: seq<ImageFile>)
      requires Valid()
      modifies this
      ensures Valid()
      ensures !dragActive
      ensures pendingReads == if |files| > 0 then old(pendingReads) + multiset{files[0]} else old(pendingReads)
      ensures sensorData == old(sensorData) && uploadedImage == old(uploadedImage)
      ensures isAnalyzing == old(isAnalyzing) && analysisResults == old(analysisResults)
      ensures pendingAnalyses == old(pendingAnalyses)
    {
      dragActive := false;
      if |files| > 0 {
        HandleImageUpload(files[0]);
      }
    }

    /** The file picker's `onChange`: the first chosen file, if any, is uploaded. */
    method HandleFileInput(files: seq<ImageFile>)
      requires Valid()
      modifies this
      ensures Valid()
      ensures pendingReads == if |files| > 0 then old(pendingReads) + multiset{files[0]} else old(pendingReads)
      ensures sensorData == old(sensorData) && uploadedImage == old(uploadedImage)
      ensures isAnalyzing == old(isAnalyzing) && analysisResults == old(analysisResults)
      ensures dragActive == old(dragActive) && pendingAnalyses == old(pendingAnalyses)
    {
      if |files| > 0 {
        HandleImageUpload(files[0]);
      }
    }

    /** The "Change Image" button: the image and the result are cleared, nothing else. */
    method ChangeImage()
      requires Valid()
      modifies this
      ensures Valid()
      ensures uploadedImage == None && analysisResults == None
      ensures sensorData == old(sensorData) && isAnalyzing == old(isAnalyzing)
      ensures dragActive == old(dragActive) && pendingReads == old(pendingReads)
      ensures pendingAnalyses == old(pendingAnalyses)
      ensures old(CurrentStage()) == Complete ==> CurrentStage() == Idle
    {
      uploadedImage := None;
      analysisResults := None;
    }

    /**
     * `downloadPDFReport`: with no result nothing happens; otherwise, when a window could be
     * opened, the report of the current result is written to it and printed. Returns the result
     * the printed report shows, if one is printed. No state of the page changes.
     */
    method DownloadPdfReport(windowOpened: bool) returns (printed: Option<AnalysisResult>)
      ensures printed.Some? <==> analysisResults.Some? && windowOpened
      ensures printed.Some? ==> printed == analysisResults
    {
      if analysisResults.None? {
        return None;
      }
      if !windowOpened {
        return None;
      }
      printed := analysisResults;
    }
  }

  /**
   * The workflow of the page, from mounting to a completed analysis and back: a loaded image
   * moves the page to Analyzing with the image stored, the end of the delay to Complete with a
   * result in range and the image untouched, and "Change Image" back to Idle.
   */
  method UploadAnalyzeReset(
    mountDraws: SensorDraws, file: ImageFile, dataUrl: string, draws: AnalysisDraws, timestamp: string)
    returns (page: Controller)
    requires ValidSensorDraws(mountDraws) && ValidAnalysisDraws(draws)
    ensures fresh(page) && page.Valid() && page.CurrentStage() == Idle
  {
    page := new Controller(mountDraws, timestamp);
    page.HandleDrop([file]);
    assert file in page.pendingReads;
    page.ImageLoaded(file, dataUrl);
    assert page.CurrentStage() == Analyzing && page.uploadedImage == Some(dataUrl);
    page.AnalysisFinished(draws, timestamp);
    assert page.CurrentStage() == Complete && page.uploadedImage == Some(dataUrl);
    assert AnalysisInRange(page.analysisResults.value);
    var printed := page.DownloadPdfReport(true);
    assert printed == page.analysisResults;
    page.ChangeImage();
    printed := page.DownloadPdfReport(true);
    assert printed == None;
  }

  /**
   * An upload through the file picker followed by a drop onto the drop zone, which accepts a
   * drop while an image is shown, starts two analysis delays, and the first to end clears the flag: the
   * page shows a finished analysis while the second is still pending, and the second result
   * later replaces the first.
   */
  method SecondUploadRace(
    mountDraws: SensorDraws, file: ImageFile, dataUrl: string,
    first: AnalysisDraws, second: AnalysisDraws, timestamp: string)
    returns (page: Controller)
    requires ValidSensorDraws(mountDraws) && ValidAnalysisDraws(first) && ValidAnalysisDraws(second)
    ensures fresh(page) && page.Valid()
    ensures page.analysisResults == Some(MockAnalysisResult(second, timestamp))
  {
    page := new Controller(mountDraws, timestamp);
    page.HandleFileInput([file]);
    page.ImageLoaded(file, dataUrl);
    page.HandleDrop([file]);
    page.ImageLoaded(file, dataUrl);
    assert page.pendingAnalyses == 2;
    page.AnalysisFinished(first, timestamp);
    assert !page.isAnalyzing && page.pendingAnalyses == 1;
    page.AnalysisFinished(second, timestamp);
  }
}
