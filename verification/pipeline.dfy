/**
 * The screens together: every store write the app makes, as events applied in
 * the order the user triggers them. The store enforces nothing by itself; the
 * screens' guards keep a stored result always accompanied by a style and a
 * photo, and make every stored result come from a completed edit.
 */
module Pipeline {
  import opened JsRuntime
  import opened Store
  import opened EditApi
  import opened Processing
  import Photo
  import Hairstyles
  import Results

  /**
   * One store-writing action of a screen. A processing run is one event: it
   * reads the store and writes its result in the same step.
   */
  datatype Event =
    | SelectHairstyle(h: Hairstyle)                          // a card on the hairstyle screen
    | ApplyPhoto(selectedImage: Option<string>)              // "Apply Hairstyle" on the photo screen
    | Process(photo: Option<string>, response: AiResponse)   // one run of the processing screen
    | TryAgain                                               // "Try Again" on the results screen

  function Step(s: SessionState, e: Event): SessionState {
    match e
    case SelectHairstyle(h) => s.WithSelectedHairstyle(h)
    case ApplyPhoto(img) => Photo.ContinueWithPhoto(s, img)
    case Process(photo, response) => After(s, Outcome(s, photo, response))
    case TryAgain => s.Reset()
  }

  /** The store after the events, applied oldest first. */
  function Run(s: SessionState, events: seq<Event>): SessionState
    decreases |events|
  {
    if events == [] then s
    else Step(Run(s, events[..|events| - 1]), events[|events| - 1])
  }

  /** A result is only ever present as a non-empty URI, beside a style and a non-empty photo. */
  predicate Consistent(s: SessionState) {
    s.processedImage.Some? ==> Truthy(s.processedImage) && HasInputs(s)
  }

  lemma StepKeepsConsistent(s: SessionState, e: Event)
    requires Consistent(s)
    ensures Consistent(Step(s, e))
  {
    if e.Process? {
      ResultUriTruthy(e.response.body);
    }
  }

  lemma {:induction false} RunKeepsConsistent(s: SessionState, events: seq<Event>)
    requires Consistent(s)
    ensures Consistent(Run(s, events))
    decreases |events|
  {
    if events != [] {
      RunKeepsConsistent(s, events[..|events| - 1]);
      StepKeepsConsistent(Run(s, events[..|events| - 1]), events[|events| - 1]);
    }
  }

  /**
   * Whatever the user does, the results screen shows a result exactly when
   * one is stored: a stored result never meets the "No results" view.
   */
  lemma ResultsViewMatchesStore(events: seq<Event>)
    ensures var s := Run(Initial, events);
      Consistent(s) && (Results.ShowsNoResults(s) <==> s.processedImage.None?)
  {
    RunKeepsConsistent(Initial, events);
  }

  /** Every stored result is the image of some completed processing run, in that run's store. */
  lemma {:induction false} ResultComesFromCompletedRun(events: seq<Event>)
    requires Run(Initial, events).processedImage.Some?
    ensures exists k :: (0 <= k < |events| && events[k].Process? &&
      Outcome(Run(Initial, events[..k]), events[k].photo, events[k].response)
        == Completed(Run(Initial, events).processedImage.value))
    decreases |events|
  {
    var n := |events| - 1;
    var prefix := events[..n];
    var before := Run(Initial, prefix);
    var e := events[n];
    assert events[..n] == prefix;
    if e.Process? && Outcome(before, e.photo, e.response).Completed? {
      assert Run(Initial, events[..n]) == before;
    } else {
      assert e != TryAgain;
      assert before.processedImage == Run(Initial, events).processedImage;
      ResultComesFromCompletedRun(prefix);
      var k :| 0 <= k < |prefix| && prefix[k].Process? &&
        Outcome(Run(Initial, prefix[..k]), prefix[k].photo, prefix[k].response)
          == Completed(before.processedImage.value);
      assert prefix[..k] == events[..k];
      assert prefix[k] == events[k];
    }
  }

  /** Whatever came before, "Try Again" leaves the empty session. */
  lemma TryAgainClearsSession(s: SessionState, events: seq<Event>)
    ensures Run(s, events + [TryAgain]) == Initial
  {
    assert (events + [TryAgain])[..|events|] == events;
  }

  /**
   * Choosing "Pixie Cut", continuing with a photo, and an endpoint answering
   * with a JPEG stores the matching data URI, shows all six checkpoints, and
   * lets the results screen show the result.
   */
  lemma PixieCutEndToEnd(photoUri: string, dataUrl: string, base64Data: string)
    requires photoUri != ""
    ensures var response := AiResponse(true, Some(ResponseBody(Some(ImageDescriptor(Some("image/jpeg"), Some(base64Data))))));
      var ready := Run(Initial, [SelectHairstyle(Hairstyles.Catalogue()[2]), ApplyPhoto(Some(photoUri))]);
      var done := Run(Initial, [SelectHairstyle(Hairstyles.Catalogue()[2]), ApplyPhoto(Some(photoUri)),
                                Process(Some(dataUrl), response)]);
      && ready.selectedHairstyle == Some(Hairstyles.Catalogue()[2])
      && Hairstyles.Catalogue()[2].name == "Pixie Cut"
      && Hairstyles.Catalogue()[2].description == "Short and chic pixie"
      && Trace(Outcome(ready, Some(dataUrl), response)) == Checkpoints()
      && done.processedImage == Some("data:image/jpeg;base64," + base64Data)
      && done.userPhoto == Some(photoUri)
      && !Results.ShowsNoResults(done)
  {
    var response := AiResponse(true, Some(ResponseBody(Some(ImageDescriptor(Some("image/jpeg"), Some(base64Data))))));
    var events := [SelectHairstyle(Hairstyles.Catalogue()[2]), ApplyPhoto(Some(photoUri)),
                   Process(Some(dataUrl), response)];
    assert events[..2] == [SelectHairstyle(Hairstyles.Catalogue()[2]), ApplyPhoto(Some(photoUri))];
    assert events[..2][..1] == [SelectHairstyle(Hairstyles.Catalogue()[2])];
    assert events[..2][..1][..0] == [];
    assert "data:" + "image/jpeg" + ";base64," + base64Data == "data:image/jpeg;base64," + base64Data;
  }
}
