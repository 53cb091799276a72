/**
 * The photo screen: its local `selectedImage`, filled from the gallery or the
 * camera when permission is given and the picker returns an asset, cleared by
 * "Change Photo", and handed to the store by "Apply Hairstyle".
 */
module Photo {
  import opened JsRuntime
  import opened Store

  datatype Asset = Asset(uri: string)

  /** What the image picker resolves with. */
  datatype PickerResult = PickerResult(canceled: bool, assets: seq<Asset>)

  /** `!result.canceled && result.assets[0]`: the picked uri, if any. */
  function Adopted(result: PickerResult): (r: Option<string>)
    ensures r.Some? <==> !result.canceled && |result.assets| > 0
    ensures r.Some? ==> r.value == result.assets[0].uri
  {
    if !result.canceled && |result.assets| > 0 then Some(result.assets[0].uri) else None
  }

  /** `requestPermissions`: the web needs no media-library permission. */
  predicate GalleryAllowed(isWeb: bool, permission: PermissionStatus) {
    isWeb || permission == Granted
  }

  /** The store after "Apply Hairstyle": the photo is written only when one is selected. */
  function ContinueWithPhoto(s: SessionState, selectedImage: Option<string>): (r: SessionState)
    ensures Truthy(selectedImage) ==> r == s.WithUserPhoto(selectedImage.value)
    ensures !Truthy(selectedImage) ==> r == s
  {
    if Truthy(selectedImage) then s.WithUserPhoto(selectedImage.value) else s
  }

  class PhotoScreen {
    var selectedImage: Option<string>

    constructor ()
      ensures selectedImage == None
    {
      selectedImage := None;
    }

    /** `pickImageFromGallery` */
    method PickImageFromGallery(isWeb: bool, permission: PermissionStatus, result: PickerResult)
      modifies this
      ensures !GalleryAllowed(isWeb, permission) ==> selectedImage == old(selectedImage)
      ensures GalleryAllowed(isWeb, permission) ==>
        selectedImage == if Adopted(result).Some? then Adopted(result) else old(selectedImage)
    {
      if !GalleryAllowed(isWeb, permission) {
        return;
      }
      if !result.canceled && |result.assets| > 0 {
        selectedImage := Some(result.assets[0].uri);
      }
    }

    /** `takePhoto`: no camera on the web, and none without camera permission. */
    method TakePhoto(isWeb: bool, permission: PermissionStatus, result: PickerResult)
      modifies this
      ensures isWeb || permission != Granted ==> selectedImage == old(selectedImage)
      ensures !isWeb && permission == Granted ==>
        selectedImage == if Adopted(result).Some? then Adopted(result) else old(selectedImage)
    {
      if isWeb {
        return;
      }
      if permission != Granted {
        return;
      }
      if !result.canceled && |result.assets| > 0 {
        selectedImage := Some(result.assets[0].uri);
      }
    }

    /** "Change Photo" */
    method ChangePhoto()
      modifies this
      ensures selectedImage == None
    {
      selectedImage := None;
    }

    /** `handleContinue`: proceeds to processing only with a selected photo. */
    method HandleContinue(store: HairstyleStore) returns (proceed: bool)
      modifies store
      ensures proceed == Truthy(selectedImage)
      ensures store.State() == ContinueWithPhoto(old(store.State()), selectedImage)
    {
      proceed := false;
      if Truthy(selectedImage) {
        store.SetUserPhoto(selectedImage.value);
        proceed := true;
      }
    }
  }

  /** A photo that was picked and then continued with is the store's photo. */
  lemma PickedPhotoReachesStore(s: SessionState, result: PickerResult)
    requires Adopted(result).Some? && Adopted(result).value != ""
    ensures ContinueWithPhoto(s, Adopted(result)).userPhoto == Some(result.assets[0].uri)
    ensures ContinueWithPhoto(s, Adopted(result)).selectedHairstyle == s.selectedHairstyle
    ensures ContinueWithPhoto(s, Adopted(result)).processedImage == s.processedImage
  {
  }
}
