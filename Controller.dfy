/**
 * The application controller (App.tsx:418-528): one session whose fields
 * the event handlers update, a loader overlay while an analysis runs, and
 * the fixed back-navigation map. Rendering is left out; each event method
 * requires the condition under which the source shows its control.
 */
module Controller {
  import opened Types
  import opened Constants
  import opened Gemini
  import opened Results
  import opened StepTicker
  import Upload

  /**
   * `Promise.all(files.map(fileToGenerativePart))` (App.tsx:430): every file
   * encoded, in order, or `None` as soon as one of them fails.
   */
  function EncodeFiles(files: seq<LocalFile>): (r: Option<seq<InspirationImage>>)
    ensures r.None? <==> exists i :: 0 <= i < |files| && FileToGenerativePart(files[i]).None?
    ensures r.Some? ==> |r.value| == |files|
                        && forall i :: 0 <= i < |files| ==> FileToGenerativePart(files[i]) == Some(r.value[i])
  {
    if files == [] then Some([])
    else
      match FileToGenerativePart(files[0])
      case None => None
      case Some(image) =>
        match EncodeFiles(files[1..])
        case None =>
          assert forall i :: 0 <= i < |files[1..]| ==> files[1..][i] == files[i + 1];
          None
        case Some(images) =>
          assert forall i :: 1 <= i < |files| ==> files[i] == files[1..][i - 1];
          Some([image] + images)
  }

  /** The data URL of an encoded image (App.tsx:467). */
  function DataUrl(image: InspirationImage): (r: string)
    ensures "data:" <= r
    ensures |r| >= |image.data| && r[|r| - |image.data|..] == image.data
  {
    "data:" + image.mimeType + ";base64," + image.data
  }

  /** `loaderBg` (App.tsx:466-468): the first image as a data URL, or empty without images. */
  function LoaderBackground(images: seq<InspirationImage>): (r: string)
    ensures r == "" <==> images == []
    ensures images != [] ==> "data:" <= r
  {
    if |images| > 0 then DataUrl(images[0]) else ""
  }

  /**
   * Building the data URL and taking `split(',')[1]` of it gives back the
   * payload, when neither the type nor the payload holds a comma.
   */
  lemma DataUrlRoundTrip(image: InspirationImage)
    requires ',' !in image.mimeType && ',' !in image.data
    ensures Payload(DataUrl(image)) == Some(image.data)
  {
    var header := "data:" + image.mimeType + ";base64";
    assert DataUrl(image) == header + [','] + image.data;
    PayloadAfterComma(header, image.data);
  }

  /** Reading back the loader's data URL as a file of the same type yields the first image. */
  lemma LoaderBackgroundRoundTrip(images: seq<InspirationImage>)
    requires images != [] && ',' !in images[0].mimeType && ',' !in images[0].data
    ensures FileToGenerativePart(LocalFile(images[0].mimeType, Some(LoaderBackground(images)))) == Some(images[0])
  {
    DataUrlRoundTrip(images[0]);
  }

  /** The back button's target (App.tsx:478-482). */
  function BackTarget(view: AppView): (r: AppView)
    ensures r == RESULTS <==> view == PROFILE
    ensures r == UPLOAD <==> view == RESULTS
    ensures r == HOME <==> view != PROFILE && view != RESULTS
  {
    if view == PROFILE then RESULTS
    else if view == RESULTS then UPLOAD
    else HOME
  }

  /** The fallback's one match names a directory entry, so a fallback result always shows one card. */
  lemma FallbackShowsOneCard()
    ensures |Cards(Fallback().matches, MockPhotographers)| == 1
  {
    assert MockPhotographers[1].id == "p2";
    CardsAllResolved(Fallback().matches, MockPhotographers);
  }

  /** Every id offered to the model as context resolves in the directory. */
  lemma ContextIdsResolve(i: nat)
    requires i < |DatabaseContext()|
    ensures Find(MockPhotographers, DatabaseContext()[i].id) == Some(MockPhotographers[i])
  {
    DirectoryIdsDistinct();
    FindIsFirst(MockPhotographers, MockPhotographers[i].id, i);
  }

  /** Where the suspended `handleAnalysis` call is: not running, awaiting the file reads, or awaiting the match. */
  datatype Pending = Idle | Reading(files: seq<LocalFile>) | Matching

  /** All fields of a session, for stating what an event changes and what it keeps. */
  datatype SessionState = SessionState(
    view: AppView,
    uploadedImages: seq<InspirationImage>,
    analysisResult: Option<MoodboardAnalysis>,
    selectedPhotographerId: Option<string>,
    analysisState: AnalysisState,
    ticker: Ticker,
    pending: Pending)

  class Session {
    var view: AppView
    var uploadedImages: seq<InspirationImage>
    var analysisResult: Option<MoodboardAnalysis>
    var selectedPhotographerId: Option<string>
    var analysisState: AnalysisState
    var ticker: Ticker
    var pending: Pending

    function State(): (s: SessionState)
      reads this
    {
      SessionState(view, uploadedImages, analysisResult, selectedPhotographerId, analysisState, ticker, pending)
    }

    /**
     * The session invariant: the overlay is up exactly while an analysis is
     * pending, and only over the upload screen; the label shown is the
     * ticker's; the results and profile screens have an analysis to show.
     */
    ghost predicate Valid()
      reads this
    {
      && |uploadedImages| <= Upload.MaxFiles
      && (pending.Reading? ==> |pending.files| <= Upload.MaxFiles)
      && (analysisState.isAnalyzing <==> !pending.Idle?)
      && (!pending.Idle? ==> view == UPLOAD)
      && (pending.Reading? ==> analysisState.step == InitialAnalysisSteps[0] && !ticker.running)
      && (pending.Matching? ==> analysisState.step == Label(ticker))
      && (ticker.running ==> pending.Matching? && ticker.index < |InitialAnalysisSteps|)
      && ((view == RESULTS || view == PROFILE) ==> analysisResult.Some?)
      && (view == PROFILE ==> selectedPhotographerId.Some?)
    }

    /** `selectedPhotographer` (App.tsx:461-463). */
    function SelectedPhotographer(): (r: Option<Photographer>)
      reads this
      ensures r.Some? ==> selectedPhotographerId.Some? && r.value.id == selectedPhotographerId.value
                          && r.value in MockPhotographers
    {
      match selectedPhotographerId
      case None => None
      case Some(id) => Find(MockPhotographers, id)
    }

    /** Whether the profile screen renders (App.tsx:510). */
    predicate ProfileShown(): (r: bool)
      reads this
      ensures r ==> view == PROFILE && selectedPhotographerId.Some?
                    && Find(MockPhotographers, selectedPhotographerId.value).Some?
    {
      view == PROFILE && SelectedPhotographer().Some?
    }

    /** Whether the navigation bar, and with it the back button, is shown (App.tsx:474). */
    predicate BackShown(): (r: bool)
      reads this
      ensures r ==> view != HOME && !analysisState.isAnalyzing
      ensures r ==> BackTarget(view) != view
    {
      view != HOME && !analysisState.isAnalyzing
    }

    /** While the overlay is up, the label it shows is one of the ticker's labels. */
    lemma LoaderShowsListedStep()
      requires Valid()
      ensures analysisState.isAnalyzing ==> analysisState.step in InitialAnalysisSteps
    {
    }

    /** The session as the application starts (App.tsx:419-423). */
    constructor ()
      ensures Valid()
      ensures State() == SessionState(HOME, [], None, None, AnalysisState(false, ""), Ticker(0, false), Idle)
    {
      view := HOME;
      uploadedImages := [];
      analysisResult := None;
      selectedPhotographerId := None;
      analysisState := AnalysisState(false, "");
      ticker := Ticker(0, false);
      pending := Idle;
    }

    /** The landing screen's start button (App.tsx:489). */
    method Start()
      requires Valid() && view == HOME
      modifies this
      ensures Valid()
      ensures State() == old(State()).(view := UPLOAD)
    {
      view := UPLOAD;
    }

    /** The navigation bar's back button (App.tsx:478-482). */
    method Back()
      requires Valid() && BackShown()
      modifies this
      ensures Valid()
      ensures State() == old(State()).(view := BackTarget(old(view)))
    {
      view := BackTarget(view);
    }

    /** `handleAnalysis` up to its first `await` (App.tsx:425-430): the overlay goes up on the first label. */
    method StartAnalysis(files: seq<LocalFile>)
      requires Valid() && view == UPLOAD && !analysisState.isAnalyzing
      requires 0 < |files| <= Upload.MaxFiles
      modifies this
      ensures Valid()
      ensures State() == old(State()).(analysisState := AnalysisState(true, InitialAnalysisSteps[0]),
                                       pending := Reading(files))
    {
      analysisState := AnalysisState(true, InitialAnalysisSteps[0]);
      pending := Reading(files);
    }

    /**
     * The file reads settle (App.tsx:430-442, 454-458). If one failed, the
     * overlay comes down on an empty label and nothing else changes; the
     * view stays on the upload screen. Otherwise the images are stored and
     * the ticker starts.
     */
    method FinishReading()
      requires Valid() && pending.Reading?
      modifies this
      ensures Valid()
      ensures EncodeFiles(old(pending.files)).None? ==>
        State() == old(State()).(analysisState := AnalysisState(false, ""), pending := Idle)
      ensures EncodeFiles(old(pending.files)).Some? ==>
        State() == old(State()).(uploadedImages := EncodeFiles(old(pending.files)).value,
                                 ticker := Started, pending := Matching)
    {
      match EncodeFiles(pending.files)
      case None =>
        analysisState := AnalysisState(false, "");
        pending := Idle;
      case Some(images) =>
        uploadedImages := images;
        ticker := Started;
        pending := Matching;
    }

    /** One firing of the interval callback (App.tsx:435-442). */
    method TickStep()
      requires Valid() && ticker.running
      modifies this
      ensures Valid()
      ensures State() == old(State()).(ticker := Tick(old(ticker)),
                                       analysisState := old(analysisState).(step := Label(Tick(old(ticker)))))
    {
      ticker := Tick(ticker);
      if ticker.running {
        analysisState := analysisState.(step := InitialAnalysisSteps[ticker.index]);
      }
    }

    /**
     * The analysis resolves and its delayed completion runs (App.tsx:445-452):
     * the ticker is cleared, the analysis stored, the overlay comes down on
     * 'complete' and the results screen opens. Whatever the reply, there is
     * an analysis to show.
     */
    method CompleteAnalysis(generateContent: GenerateRequest -> Reply)
      requires Valid() && pending.Matching?
      modifies this
      ensures Valid()
      ensures State() == old(State()).(ticker := old(ticker).(running := false),
                                       analysisResult := Some(FindMatchingPhotographers(old(uploadedImages), generateContent)),
                                       analysisState := AnalysisState(false, "complete"),
                                       view := RESULTS,
                                       pending := Idle)
    {
      var result := FindMatchingPhotographers(uploadedImages, generateContent);
      ticker := ticker.(running := false);
      analysisResult := Some(result);
      analysisState := AnalysisState(false, "complete");
      view := RESULTS;
      pending := Idle;
    }

    /**
     * A result card is clicked (App.tsx:503-506). The id is stored and the
     * profile screen opens; it shows a profile exactly when the id resolves.
     */
    method SelectPhotographer(id: string)
      requires Valid() && view == RESULTS
      modifies this
      ensures Valid()
      ensures State() == old(State()).(selectedPhotographerId := Some(id), view := PROFILE)
      ensures ProfileShown() <==> Find(MockPhotographers, id).Some?
    {
      selectedPhotographerId := Some(id);
      view := PROFILE;
    }

    /** The profile's booking button (App.tsx:513). */
    method Book()
      requires Valid() && ProfileShown()
      modifies this
      ensures Valid()
      ensures State() == old(State()).(view := BOOKING_SUCCESS)
    {
      view := BOOKING_SUCCESS;
    }

    /** The confirmation's reset button (App.tsx:518-523): the session's data is cleared. */
    method Reset()
      requires Valid() && view == BOOKING_SUCCESS
      modifies this
      ensures Valid()
      ensures State() == old(State()).(uploadedImages := [], analysisResult := None,
                                       selectedPhotographerId := None, view := HOME)
      ensures LoaderBackground(uploadedImages) == "" && SelectedPhotographer().None?
    {
      uploadedImages := [];
      analysisResult := None;
      selectedPhotographerId := None;
      view := HOME;
    }
  }

  /** Every card on the results screen opens a profile that renders. */
  lemma CardsOpenProfiles(matches: seq<MatchResult>, c: Card)
    requires c in Cards(matches, MockPhotographers)
    ensures Find(MockPhotographers, c.result.photographerId).Some?
  {
  }
}
