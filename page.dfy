/**
 * The state of the home page that the scan history depends on: the chosen
 * image, the last prediction, the error banner, and the history kept
 * under the "scanHistory" key through the local-storage cache.
 */
module Page {
  import opened Wrappers
  import opened LocalStorage
  import opened History

  const HistoryKey: string := "scanHistory"
  const ReadErrorMessage: string := "Failed to read the image file. Please try again."

  /** An image file chosen by the user; its bytes are opaque here. */
  type ImageFile = seq<bv8>

  /**
   * How the asynchronous part of an analysis ends: the detector resolves with
   * a prediction, the file reader fails, or the detector's promise rejects.
   */
  datatype Outcome = Detected(result: Prediction) | ReadFailed | DetectionRejected

  class Home {
    var selectedImage: Option<ImageFile>
    var previewUrl: Option<string>
    var prediction: Option<Prediction>
    var error: Option<string>
    /** `useLocalStorage<ScanResult[]>('scanHistory', [])`. */
    const history: Cache<seq<ScanResult>>

    /** The first render, with the JSON encoding of a history and the local storage (if any). */
    constructor (serialize: seq<ScanResult> -> string, parse: string -> Option<seq<ScanResult>>, s: Option<Store>)
      ensures fresh(history)
      ensures history.cfg == Config(HistoryKey, [], serialize, parse)
      ensures history.store == s && history.mirror == ReadValue(s, history.cfg)
      ensures selectedImage.None? && previewUrl.None? && prediction.None? && error.None?
    {
      selectedImage, previewUrl, prediction, error := None, None, None, None;
      history := new Cache(Config(HistoryKey, [], serialize, parse), s);
    }

    /** `handleImageChange`: a chosen file and its object URL replace the old ones and clear the result. */
    method ImageChange(file: Option<ImageFile>, objectUrl: string)
      modifies this
      ensures file.None? ==> unchanged(this)
      ensures file.Some? ==> selectedImage == file && previewUrl == Some(objectUrl)
      ensures file.Some? ==> prediction.None? && error.None?
    {
      if file.Some? {
        selectedImage := file;
        previewUrl := Some(objectUrl);
        prediction := None;
        error := None;
      }
    }

    /** True when the analyse button has nothing to work on (`!selectedImage || !previewUrl`). */
    predicate NothingSelected()
      reads this
    {
      selectedImage.None? || previewUrl.None? || previewUrl.value == ""
    }

    /**
     * `handleAnalyzeClick`. Without an image or a preview URL it returns at
     * once. Otherwise it clears the result and the error, and when the
     * detector resolves it shows the prediction and prepends a record built
     * from it (with the given id and date) to the history through the cache.
     */
    method AnalyzeClick(outcome: Outcome, id: string, date: string, accepted: bool)
      modifies this, history
      ensures old(NothingSelected()) ==> unchanged(this) && unchanged(history)
      ensures selectedImage == old(selectedImage) && previewUrl == old(previewUrl)
      ensures !old(NothingSelected()) && outcome.Detected? ==>
        prediction == Some(outcome.result) && error.None? &&
        history.mirror == Append(old(history.mirror), NewScan(id, date, previewUrl.value, outcome.result))
      ensures !old(NothingSelected()) && outcome.Detected? ==>
        history.mirror[0].diseaseName == outcome.result.diseaseName &&
        history.mirror[0].confidence == outcome.result.confidence &&
        history.mirror[0].prediction == outcome.result
      ensures !old(NothingSelected()) && outcome.Detected? && (old(history.store).None? || !accepted) ==>
        history.store == old(history.store)
      ensures !old(NothingSelected()) && outcome.Detected? && old(history.store).Some? && accepted ==>
        history.store == Some(old(history.store).value[history.cfg.key := history.cfg.serialize(history.mirror)])
      ensures !old(NothingSelected()) && outcome.ReadFailed? ==>
        prediction.None? && error == Some(ReadErrorMessage) && unchanged(history)
      ensures !old(NothingSelected()) && outcome.DetectionRejected? ==>
        prediction.None? && error.None? && unchanged(history)
    {
      if NothingSelected() {
        return;
      }
      error := None;
      prediction := None;
      match outcome {
        case Detected(p) =>
          prediction := Some(p);
          var scan := NewScan(id, date, previewUrl.value, p);
          history.Set(Updater(prev => Append(prev, scan)), accepted);
        case ReadFailed =>
          error := Some(ReadErrorMessage);
        case DetectionRejected =>
      }
    }

    /** `handleClearHistory`: the literal empty history goes through the setter, whatever was there. */
    method ClearHistory(accepted: bool)
      modifies history
      ensures history.mirror == []
      ensures old(history.store).None? || !accepted ==> history.store == old(history.store)
      ensures old(history.store).Some? && accepted ==>
        history.store == Some(old(history.store).value[history.cfg.key := history.cfg.serialize([])])
    {
      history.Set(Literal([]), accepted);
    }
  }

  /** Two analyses on a fresh page with an empty store: the history reads newest first. */
  method TwoScansScenario(
    serialize: seq<ScanResult> -> string, parse: string -> Option<seq<ScanResult>>,
    image: ImageFile, url: string, a: Prediction, b: Prediction)
    returns (history: seq<ScanResult>)
    requires url != ""
    ensures history == [NewScan("2", "today", url, b), NewScan("1", "today", url, a)]
  {
    var home := new Home(serialize, parse, Some(map[]));
    home.ImageChange(Some(image), url);
    home.AnalyzeClick(Detected(a), "1", "today", true);
    home.AnalyzeClick(Detected(b), "2", "today", true);
    history := home.history.mirror;
  }

  /** Clearing twice leaves the state that clearing once leaves, whatever the history held. */
  method ClearTwiceScenario(
    serialize: seq<ScanResult> -> string, parse: string -> Option<seq<ScanResult>>, s: Option<Store>)
    returns (once: Option<Store>, twice: Option<Store>, history: seq<ScanResult>)
    ensures history == [] && twice == once
    ensures s.Some? ==> once == Some(s.value[HistoryKey := serialize([])])
    ensures s.None? ==> once == None
  {
    var home := new Home(serialize, parse, s);
    home.ClearHistory(true);
    once := home.history.store;
    home.ClearHistory(true);
    twice := home.history.store;
    if s.Some? {
      var written := s.value[HistoryKey := serialize([])];
      assert written[HistoryKey := serialize([])] == written;
    }
    history := home.history.mirror;
  }
}
