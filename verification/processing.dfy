/**
 * The processing screen: it checks that a hairstyle and a photo are in the
 * store, walks the fixed progress checkpoints, reads the photo as a data URL,
 * posts the edit request, and on success stores the returned image as a data
 * URI. Reading the photo and the network exchange are inputs: the data URL
 * the reader produced (absent when fetching the photo fails) and the
 * endpoint's answer.
 */
module Processing {
  import opened JsRuntime
  import opened Store
  import opened EditApi

  /** A (percentage, status text) pair shown to the user. */
  datatype Checkpoint = Checkpoint(progress: int, status: string)

  /** What the screen shows before the stage starts. */
  const Preparing := Checkpoint(0, "Preparing your photo...")

  /** The table walked before the photo is read. */
  const ProgressSteps: seq<Checkpoint> := [
    Checkpoint(20, "Analyzing your face..."),
    Checkpoint(40, "Loading hairstyle..."),
    Checkpoint(60, "Applying AI magic..."),
    Checkpoint(80, "Finalizing your new look...")
  ]

  /** Shown once the photo is encoded, before the request is sent. */
  const Submitting := Checkpoint(90, "Processing with AI...")

  /** Shown after the result is stored. */
  const Done := Checkpoint(100, "Complete!")

  predicate StrictlyIncreasing(cs: seq<Checkpoint>) {
    forall i, j :: 0 <= i < j < |cs| ==> cs[i].progress < cs[j].progress
  }

  /** Every checkpoint a successful run shows, in order. */
  function Checkpoints(): (cs: seq<Checkpoint>)
    ensures |cs| == 6
    ensures StrictlyIncreasing(cs)
    ensures Preparing.progress < cs[0].progress
    ensures cs[5] == Done && forall i :: 0 <= i < 5 ==> cs[i].progress < 100
  {
    ProgressSteps + [Submitting, Done]
  }

  /** Where the stage stopped; the source reports all three through one catch. */
  datatype ErrorKind = PhotoUnreadable | RemoteEditFailed | MalformedResponse

  datatype StageOutcome = MissingData | Failed(error: ErrorKind) | Completed(imageUri: string)

  /** The guard `!selectedHairstyle || !userPhoto`, negated. */
  predicate HasInputs(s: SessionState) {
    s.selectedHairstyle.Some? && Truthy(s.userPhoto)
  }

  /** The JSON body posted to the edit endpoint, when the stage gets that far. */
  function Request(s: SessionState, photo: Option<string>): (r: Option<Json>)
    ensures r.Some? <==> HasInputs(s) && photo.Some?
  {
    if HasInputs(s) && photo.Some? then
      var style := s.selectedHairstyle.value;
      Some(RequestBody(Prompt(style.name, style.description), StripPrefix(photo.value)))
    else
      None
  }

  /** How a run of the stage ends, from the store it starts with and its two inputs. */
  function Outcome(s: SessionState, photo: Option<string>, response: AiResponse): (o: StageOutcome)
    ensures o.MissingData? <==> !HasInputs(s)
    ensures o == Failed(PhotoUnreadable) <==> HasInputs(s) && photo.None?
    ensures o == Failed(RemoteEditFailed) <==> HasInputs(s) && photo.Some? && !response.ok
    ensures o.Completed? <==> HasInputs(s) && photo.Some? && response.ok && ResultUri(response.body).Some?
    ensures o.Completed? ==> Some(o.imageUri) == ResultUri(response.body)
  {
    if !HasInputs(s) then MissingData
    else if photo.None? then Failed(PhotoUnreadable)
    else if !response.ok then Failed(RemoteEditFailed)
    else
      match ResultUri(response.body)
      case None => Failed(MalformedResponse)
      case Some(uri) => Completed(uri)
  }

  /** The checkpoints a run shows, in the order it shows them. */
  function Trace(o: StageOutcome): seq<Checkpoint> {
    match o
    case MissingData => []
    case Failed(PhotoUnreadable) => ProgressSteps
    case Failed(_) => ProgressSteps + [Submitting]
    case Completed(_) => Checkpoints()
  }

  /** The store after a run: only a completed run writes, and only the result. */
  function After(s: SessionState, o: StageOutcome): SessionState {
    if o.Completed? then s.WithProcessedImage(o.imageUri) else s
  }

  /**
   * Progress only moves forward: every run shows a prefix of the checkpoint
   * table, and 100 is reached exactly when the run completes.
   */
  lemma TraceIsOrderedPrefix(o: StageOutcome)
    ensures Trace(o) <= Checkpoints()
    ensures StrictlyIncreasing(Trace(o))
    ensures o.Completed? <==> Done in Trace(o)
    ensures forall i :: 0 <= i < |Trace(o)| ==> Preparing.progress < Trace(o)[i].progress
  {
    var cs := Checkpoints();
    assert Trace(o) == cs[..|Trace(o)|];
    if !o.Completed? {
      assert forall i :: 0 <= i < |Trace(o)| ==> Trace(o)[i].progress < 100;
    }
  }

  /** Without a hairstyle or a photo nothing is sent, shown or stored. */
  lemma MissingInputsDoNothing(s: SessionState, photo: Option<string>, response: AiResponse)
    requires !HasInputs(s)
    ensures Outcome(s, photo, response) == MissingData
    ensures Request(s, photo).None?
    ensures Trace(Outcome(s, photo, response)) == []
    ensures After(s, Outcome(s, photo, response)) == s
  {
  }

  /** Every failure leaves the store as it was and never reaches 100. */
  lemma FailureKeepsStore(s: SessionState, photo: Option<string>, response: AiResponse)
    requires !Outcome(s, photo, response).Completed?
    ensures After(s, Outcome(s, photo, response)) == s
    ensures Done !in Trace(Outcome(s, photo, response))
  {
    TraceIsOrderedPrefix(Outcome(s, photo, response));
  }

  /** A non-OK answer fails after the request was sent, with progress at 90. */
  lemma NonOkResponse(s: SessionState, photo: Option<string>, response: AiResponse)
    requires HasInputs(s) && photo.Some? && !response.ok
    ensures Outcome(s, photo, response) == Failed(RemoteEditFailed)
    ensures Request(s, photo).Some?
    ensures Trace(Outcome(s, photo, response)) == ProgressSteps + [Submitting]
    ensures After(s, Outcome(s, photo, response)) == s
  {
  }

  /**
   * A successful run stores exactly `data:<mimeType>;base64,<base64Data>` and
   * changes no other field.
   */
  lemma CompletionStoresDataUri(s: SessionState, photo: Option<string>, response: AiResponse, mimeType: string, base64Data: string)
    requires HasInputs(s) && photo.Some? && response.ok
    requires response.body == Some(ResponseBody(Some(ImageDescriptor(Some(mimeType), Some(base64Data)))))
    ensures Outcome(s, photo, response) == Completed(DataUri(mimeType, base64Data))
    ensures After(s, Outcome(s, photo, response)).processedImage == Some(DataUri(mimeType, base64Data))
    ensures After(s, Outcome(s, photo, response)).selectedHairstyle == s.selectedHairstyle
    ensures After(s, Outcome(s, photo, response)).userPhoto == s.userPhoto
    ensures Trace(Outcome(s, photo, response)) == Checkpoints()
  {
  }

  /**
   * An answer whose image has no `mimeType` is not rejected: the stored URI
   * spells the missing type "undefined".
   */
  lemma MissingMimeTypeIsStored(s: SessionState, photo: Option<string>, base64Data: string)
    requires HasInputs(s) && photo.Some?
    ensures var response := AiResponse(true, Some(ResponseBody(Some(ImageDescriptor(None, Some(base64Data))))));
      Outcome(s, photo, response) == Completed("data:undefined;base64," + base64Data)
  {
  }

  /**
   * The request carries the chosen style's prompt and, for a photo read as a
   * data URI, exactly that URI's payload.
   */
  lemma RequestCarriesPayload(s: SessionState, mimeType: string, base64Data: string)
    requires HasInputs(s) && NoComma(mimeType) && NoComma(base64Data)
    ensures var style := s.selectedHairstyle.value;
      Request(s, Some(DataUri(mimeType, base64Data)))
        == Some(RequestBody(Prompt(style.name, style.description), Some(base64Data)))
  {
    StripPrefixOfDataUri(mimeType, base64Data);
  }

  /** The screen's `progress` and `status` state. */
  class ProcessingScreen {
    var progress: int
    var status: string
    /** Every checkpoint shown so far, oldest first. */
    ghost var shown: seq<Checkpoint>

    constructor ()
      ensures progress == Preparing.progress && status == Preparing.status && shown == []
    {
      progress, status := Preparing.progress, Preparing.status;
      shown := [];
    }

    /** `setProgress(c.progress); setStatus(c.status)` */
    method Report(c: Checkpoint)
      modifies this
      ensures progress == c.progress && status == c.status
      ensures shown == old(shown) + [c]
    {
      progress, status := c.progress, c.status;
      shown := shown + [c];
    }

    /** `processHairstyle`, with the photo read and the endpoint's answer as inputs. */
    method ProcessHairstyle(store: HairstyleStore, photo: Option<string>, response: AiResponse)
      returns (outcome: StageOutcome, request: Option<Json>)
      modifies this, store
      ensures outcome == Outcome(old(store.State()), photo, response)
      ensures request == Request(old(store.State()), photo)
      ensures store.State() == After(old(store.State()), outcome)
      ensures shown == old(shown) + Trace(outcome)
      ensures Trace(outcome) == [] ==> progress == old(progress) && status == old(status)
      ensures Trace(outcome) != [] ==>
        var last := Trace(outcome)[|Trace(outcome)| - 1];
        progress == last.progress && status == last.status
    {
      if store.selectedHairstyle.None? || !Truthy(store.userPhoto) {
        return MissingData, None;
      }
      var style := store.selectedHairstyle.value;

      for i := 0 to |ProgressSteps|
        invariant shown == old(shown) + ProgressSteps[..i]
        invariant i > 0 ==> progress == ProgressSteps[i - 1].progress && status == ProgressSteps[i - 1].status
        invariant store.State() == old(store.State())
      {
        Report(ProgressSteps[i]);
      }

      if photo.None? {
        return Failed(PhotoUnreadable), None;
      }
      var payload := StripPrefix(photo.value);
      Report(Submitting);

      request := Some(RequestBody(Prompt(style.name, style.description), payload));
      if !response.ok {
        return Failed(RemoteEditFailed), request;
      }

      var uri := ResultUri(response.body);
      if uri.None? {
        return Failed(MalformedResponse), request;
      }
      store.SetProcessedImage(uri.value);
      Report(Done);
      outcome := Completed(uri.value);
    }
  }

  /** Where the app goes next: back to the photo screen, or on to the results. */
  datatype Route = Back | ToResults

  function NextRoute(o: StageOutcome): (r: Route)
    ensures r == ToResults <==> o.Completed?
  {
    if o.Completed? then ToResults else Back
  }
}
