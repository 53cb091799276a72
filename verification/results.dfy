/**
 * The results screen: its guard on the store, the download file name and the
 * share text built from the chosen style, the early returns of the save
 * action, and "try again", which clears the session.
 */
module Results {
  import opened JsRuntime
  import opened Store

  /** The "No results to display" view is rendered instead of the result. */
  predicate ShowsNoResults(s: SessionState) {
    !Truthy(s.processedImage) || !Truthy(s.userPhoto)
  }

  /** `selectedHairstyle?.name`, as a template literal renders it. */
  function StyleName(selected: Option<Hairstyle>): string {
    match selected
    case Some(h) => h.name
    case None => "undefined"
  }

  /** The web download name `hairstyle-<name>-<Date.now()>.jpg`. */
  function DownloadName(selected: Option<Hairstyle>, now: nat): string {
    "hairstyle-" + StyleName(selected) + "-" + Decimal(now) + ".jpg"
  }

  const SharePrefix := "Check out my new "
  const ShareSuffix := " hairstyle!"

  /** The text handed to the share sheet. */
  function ShareText(selected: Option<Hairstyle>): string {
    SharePrefix + StyleName(selected) + ShareSuffix
  }

  /**
   * The download name reads back as its parts: the fixed prefix, the style
   * name, and the timestamp's digits before `.jpg`.
   */
  lemma DownloadNameFields(selected: Option<Hairstyle>, now: nat)
    ensures var f := DownloadName(selected, now);
      var n := |StyleName(selected)|;
      && f[..10] == "hairstyle-"
      && f[10..10 + n] == StyleName(selected)
      && f[10 + n] == '-'
      && f[11 + n..|f| - 4] == Decimal(now)
      && f[|f| - 4..] == ".jpg"
  {
  }

  /** Downloads of one style at different instants get different names. */
  lemma DownloadNameDistinct(selected: Option<Hairstyle>, t1: nat, t2: nat)
    requires t1 != t2
    ensures DownloadName(selected, t1) != DownloadName(selected, t2)
  {
    if DownloadName(selected, t1) == DownloadName(selected, t2) {
      DownloadNameFields(selected, t1);
      DownloadNameFields(selected, t2);
      DecimalInjective(t1, t2);
    }
  }

  /** The share text names the style, and different names give different texts. */
  lemma ShareTextNamesStyle(a: Option<Hairstyle>, b: Option<Hairstyle>)
    ensures var t := ShareText(a);
      |t| == |SharePrefix| + |StyleName(a)| + |ShareSuffix|
      && t[|SharePrefix|..|t| - |ShareSuffix|] == StyleName(a)
    ensures ShareText(a) == ShareText(b) <==> StyleName(a) == StyleName(b)
  {
    var t, u := ShareText(a), ShareText(b);
    assert t[|SharePrefix|..|t| - |ShareSuffix|] == StyleName(a);
    assert u[|SharePrefix|..|u| - |ShareSuffix|] == StyleName(b);
  }

  /** What pressing "Save" leads to. */
  datatype SaveAction =
    | NothingToSave
    | Download(href: string, fileName: string)
    | PermissionNeeded
    | SaveToLibrary

  /**
   * `saveImage` up to the device write: nothing without a result; on the web a
   * download of the result under `DownloadName`; elsewhere nothing saved unless
   * the media-library permission is granted.
   */
  method SaveImage(s: SessionState, isWeb: bool, permission: PermissionStatus, now: nat)
    returns (action: SaveAction)
    ensures !Truthy(s.processedImage) ==> action == NothingToSave
    ensures Truthy(s.processedImage) && isWeb ==>
      action == Download(s.processedImage.value, DownloadName(s.selectedHairstyle, now))
    ensures Truthy(s.processedImage) && !isWeb && permission == Granted ==> action == SaveToLibrary
    ensures Truthy(s.processedImage) && !isWeb && permission != Granted ==> action == PermissionNeeded
  {
    if !Truthy(s.processedImage) {
      return NothingToSave;
    }
    if isWeb {
      return Download(s.processedImage.value, DownloadName(s.selectedHairstyle, now));
    }
    if permission != Granted {
      return PermissionNeeded;
    }
    action := SaveToLibrary;
  }

  /** `tryAgain`: clear the whole session before going back to the start. */
  method TryAgain(store: HairstyleStore)
    modifies store
    ensures store.State() == Initial
    ensures ShowsNoResults(store.State())
  {
    store.Reset();
  }
}
