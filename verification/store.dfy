/**
 * The session store shared by every screen: the chosen hairstyle, the user's
 * photo and the AI-edited result, each absent (`null`) until a stage sets it.
 * The store itself enforces no ordering between its three setters.
 */
module Store {
  import opened JsRuntime

  /** One entry of the hairstyle catalogue. */
  datatype Hairstyle = Hairstyle(id: string, name: string, image: string, description: string)

  /** The store's three data fields, as a value. */
  datatype SessionState = SessionState(
    selectedHairstyle: Option<Hairstyle>,
    userPhoto: Option<string>,
    processedImage: Option<string>)
  {
    function WithSelectedHairstyle(h: Hairstyle): (r: SessionState)
      ensures r.selectedHairstyle == Some(h)
      ensures r.userPhoto == userPhoto && r.processedImage == processedImage
    {
      this.(selectedHairstyle := Some(h))
    }

    function WithUserPhoto(photo: string): (r: SessionState)
      ensures r.userPhoto == Some(photo)
      ensures r.selectedHairstyle == selectedHairstyle && r.processedImage == processedImage
    {
      this.(userPhoto := Some(photo))
    }

    /** Succeeds from every state, whether or not a hairstyle and a photo are present. */
    function WithProcessedImage(image: string): (r: SessionState)
      ensures r.processedImage == Some(image)
      ensures r.selectedHairstyle == selectedHairstyle && r.userPhoto == userPhoto
    {
      this.(processedImage := Some(image))
    }

    /** All three fields cleared together, whatever the prior state. */
    function Reset(): (r: SessionState)
      ensures r.selectedHairstyle.None? && r.userPhoto.None? && r.processedImage.None?
    {
      SessionState(None, None, None)
    }
  }

  /** The state the store is created in. */
  const Initial := SessionState(None, None, None)

  lemma ResetIsInitial(s: SessionState)
    ensures s.Reset() == Initial
  {
  }

  lemma ResetIdempotent(s: SessionState)
    ensures s.Reset().Reset() == s.Reset()
  {
  }

  /** The store has no invariant of its own: a result can be stored into the empty session. */
  lemma ProcessedImageWithoutInputs(image: string)
    ensures Initial.WithProcessedImage(image).processedImage == Some(image)
    ensures Initial.WithProcessedImage(image).selectedHairstyle.None?
    ensures Initial.WithProcessedImage(image).userPhoto.None?
  {
  }

  /** The store object; each setter overwrites its own field and nothing else. */
  class HairstyleStore {
    var selectedHairstyle: Option<Hairstyle>
    var userPhoto: Option<string>
    var processedImage: Option<string>

    function State(): SessionState
      reads this
    {
      SessionState(selectedHairstyle, userPhoto, processedImage)
    }

    constructor ()
      ensures State() == Initial
    {
      selectedHairstyle, userPhoto, processedImage := None, None, None;
    }

    method SetSelectedHairstyle(h: Hairstyle)
      modifies this
      ensures State() == old(State()).WithSelectedHairstyle(h)
    {
      selectedHairstyle := Some(h);
    }

    method SetUserPhoto(photo: string)
      modifies this
      ensures State() == old(State()).WithUserPhoto(photo)
    {
      userPhoto := Some(photo);
    }

    method SetProcessedImage(image: string)
      modifies this
      ensures State() == old(State()).WithProcessedImage(image)
    {
      processedImage := Some(image);
    }

    method Reset()
      modifies this
      ensures State() == Initial
    {
      selectedHairstyle, userPhoto, processedImage := None, None, None;
    }
  }
}
