/**
 * The wire contract with the image-edit endpoint, as the processing screen
 * builds and reads it: the payload taken out of a `data:` URI, the edit
 * instruction, the JSON request body, the response record and the data URI
 * rebuilt from it (the `data:<mime>;base64,<payload>` form of RFC 2397).
 */
module EditApi {
  import opened JsRuntime

  // ---------------------------------------------------------------------
  // data URIs

  predicate NoComma(s: string) {
    ',' !in s
  }

  /** `data:${mimeType};base64,${base64Data}` */
  function DataUri(mimeType: string, base64Data: string): string {
    "data:" + mimeType + ";base64," + base64Data
  }

  /**
   * `result.split(',')[1]`: the text between the first and the second comma
   * (or the end), `undefined` when there is no comma at all.
   */
  function StripPrefix(dataUrl: string): (r: Option<string>)
    ensures r.None? <==> ',' !in dataUrl
    ensures r.Some? ==> NoComma(r.value)
  {
    var parts := Split(dataUrl, ',');
    if |parts| > 1 then Some(parts[1]) else None
  }

  /** The payload is whatever stands between the first and the second comma. */
  lemma StripPrefixBetweenCommas(header: string, payload: string, rest: string)
    requires NoComma(header) && NoComma(payload)
    ensures StripPrefix(header + "," + payload) == Some(payload)
    ensures StripPrefix(header + "," + payload + "," + rest) == Some(payload)
  {
    SplitFront(header, payload, ',');
    SplitNoSeparator(payload, ',');
    SplitFront(header, payload + "," + rest, ',');
    SplitFront(payload, rest, ',');
    assert header + "," + payload + "," + rest == header + [','] + (payload + "," + rest);
  }

  /** Building a data URI and stripping its prefix gives the payload back. */
  lemma StripPrefixOfDataUri(mimeType: string, base64Data: string)
    requires NoComma(mimeType) && NoComma(base64Data)
    ensures StripPrefix(DataUri(mimeType, base64Data)) == Some(base64Data)
  {
    var header := "data:" + mimeType + ";base64";
    assert NoComma(header);
    assert DataUri(mimeType, base64Data) == header + "," + base64Data;
    StripPrefixBetweenCommas(header, base64Data, "");
  }

  // ---------------------------------------------------------------------
  // the edit instruction

  const PromptHead := "Change the hairstyle to "
  const PromptMiddle := ". Apply the "
  const PromptTail := " hairstyle to this person while keeping their face and features exactly the same. Make it look natural and realistic."

  /** The instruction sent with the photo, from the style's name and description. */
  function Prompt(name: string, description: string): string {
    PromptHead + ToLower(name) + PromptMiddle + ToLower(description) + PromptTail
  }

  /**
   * The prompt is the fixed template read field by field: at known offsets it
   * holds the lower-cased name and the lower-cased description.
   */
  lemma PromptFields(name: string, description: string)
    ensures var p := Prompt(name, description);
      var a := |PromptHead|;
      var b := a + |name|;
      var c := b + |PromptMiddle|;
      var d := c + |description|;
      && |p| == d + |PromptTail|
      && p[..a] == PromptHead
      && p[a..b] == ToLower(name)
      && p[b..c] == PromptMiddle
      && p[c..d] == ToLower(description)
      && p[d..] == PromptTail
  {
  }

  /** Two prompts of styles with equally long names agree exactly when the lower-cased fields agree. */
  lemma PromptInjective(n1: string, d1: string, n2: string, d2: string)
    requires |n1| == |n2|
    ensures Prompt(n1, d1) == Prompt(n2, d2) <==> ToLower(n1) == ToLower(n2) && ToLower(d1) == ToLower(d2)
  {
    if Prompt(n1, d1) == Prompt(n2, d2) {
      PromptFields(n1, d1);
      PromptFields(n2, d2);
      var a := |PromptHead|;
      var c := a + |n1| + |PromptMiddle|;
      assert ToLower(n1) == Prompt(n1, d1)[a..a + |n1|];
      assert ToLower(d1) == Prompt(n1, d1)[c..|Prompt(n1, d1)| - |PromptTail|];
      assert ToLower(d2) == Prompt(n2, d2)[c..|Prompt(n2, d2)| - |PromptTail|];
    }
  }

  /** Letter case in the catalogue entry never reaches the service. */
  lemma PromptIgnoresCase(name: string, description: string)
    ensures Prompt(ToLower(name), ToLower(description)) == Prompt(name, description)
  {
    ToLowerIdempotent(name);
    ToLowerIdempotent(description);
  }

  /** The instruction for the catalogue's "Bob Cut" entry. */
  lemma BobCutPrompt()
    ensures Prompt("Bob Cut", "Classic bob hairstyle")
         == PromptHead + "bob cut" + PromptMiddle + "classic bob hairstyle" + PromptTail
  {
    LowerBobCut();
    LowerClassicBob();
  }

  lemma LowerBobCut()
    ensures ToLower("Bob Cut") == "bob cut"
  {
    assert ToLower("B") == "b" && ToLower("C") == "c";
    ToLowerOfLower("ob ");
    ToLowerOfLower("ut");
    ToLowerAppend("C", "ut");
    ToLowerAppend("ob ", "Cut");
    ToLowerAppend("B", "ob Cut");
    assert "Bob Cut" == "B" + ("ob " + ("C" + "ut"));
  }

  lemma LowerClassic()
    ensures ToLower("Classic") == "classic"
  {
    ToLowerOfLower("lassic");
    assert ToLower("Classic") == [LowerChar('C')] + ToLower("lassic");
  }

  lemma LowerClassicBob()
    ensures ToLower("Classic bob hairstyle") == "classic bob hairstyle"
  {
    assert "Classic bob hairstyle" == "Classic" + " bob hairstyle" by {}
    assert "classic bob hairstyle" == "classic" + " bob hairstyle" by {}
    assert ToLower("Classic" + " bob hairstyle") == "classic" + " bob hairstyle" by {
      LowerClassic();
      ToLowerOfLower(" bob hairstyle");
      ToLowerAppend("Classic", " bob hairstyle");
    }
  }

  // ---------------------------------------------------------------------
  // the JSON request body

  /** The JSON values the request body is made of (before JSON.stringify). */
  datatype Json = JString(s: string) | JArray(items: seq<Json>) | JObject(fields: seq<(string, Json)>)

  /** The value of the first field named `key`, if any. */
  function Field(fields: seq<(string, Json)>, key: string): Option<Json> {
    if fields == [] then None
    else if fields[0].0 == key then Some(fields[0].1)
    else Field(fields[1..], key)
  }

  function Keys(fields: seq<(string, Json)>): seq<string> {
    seq(|fields|, i requires 0 <= i < |fields| => fields[i].0)
  }

  /** `{ type: 'image', image: base64 }`; JSON.stringify drops the key when `base64` is undefined. */
  function ImageEntry(payload: Option<string>): Json {
    match payload
    case Some(p) => JObject([("type", JString("image")), ("image", JString(p))])
    case None => JObject([("type", JString("image"))])
  }

  function RequestBody(prompt: string, payload: Option<string>): Json {
    JObject([("prompt", JString(prompt)), ("images", JArray([ImageEntry(payload)]))])
  }

  /**
   * The body has exactly the fields `prompt` and `images`; `images` holds one
   * entry of type `image` whose `image` field is the payload when there is one.
   */
  lemma RequestBodyShape(prompt: string, payload: Option<string>)
    ensures var body := RequestBody(prompt, payload);
      && body.JObject?
      && Keys(body.fields) == ["prompt", "images"]
      && Field(body.fields, "prompt") == Some(JString(prompt))
      && Field(body.fields, "images") == Some(JArray([ImageEntry(payload)]))
    ensures var entry := ImageEntry(payload);
      && entry.JObject?
      && Field(entry.fields, "type") == Some(JString("image"))
      && (payload.Some? ==> Keys(entry.fields) == ["type", "image"]
                            && Field(entry.fields, "image") == Some(JString(payload.value)))
      && (payload.None? ==> Keys(entry.fields) == ["type"] && Field(entry.fields, "image").None?)
  {
  }

  // ---------------------------------------------------------------------
  // the response

  /** `result.image`: each sub-field may be missing from the JSON. */
  datatype ImageDescriptor = ImageDescriptor(mimeType: Option<string>, base64Data: Option<string>)

  /** The parsed success body; `image` may be missing. */
  datatype ResponseBody = ResponseBody(image: Option<ImageDescriptor>)

  /**
   * What the endpoint answered: `ok` for a 2xx status, and the parsed body,
   * absent when `json()` rejects.
   */
  datatype AiResponse = AiResponse(ok: bool, body: Option<ResponseBody>)

  /**
   * The data URI built from a success body; absent when the body could not be
   * parsed or has no `image` (reading `result.image.mimeType` then throws).
   * A missing `mimeType` or `base64Data` is not rejected: it is spelled "undefined".
   */
  function ResultUri(body: Option<ResponseBody>): (r: Option<string>)
    ensures r.Some? <==> body.Some? && body.value.image.Some?
    ensures r.Some? ==>
      var img := body.value.image.value;
      r.value == DataUri(Interpolate(img.mimeType), Interpolate(img.base64Data))
  {
    match body
    case None => None
    case Some(b) =>
      match b.image
      case None => None
      case Some(img) =>
        Some(DataUri(Interpolate(img.mimeType), Interpolate(img.base64Data)))
  }

  /** A rebuilt data URI is never empty, so the screens treat it as present. */
  lemma ResultUriTruthy(body: Option<ResponseBody>)
    ensures ResultUri(body).Some? ==> Truthy(ResultUri(body))
  {
  }

  /** The rebuilt URI carries the payload back out through the same prefix strip. */
  lemma ResultUriRoundTrip(mimeType: string, base64Data: string)
    requires NoComma(mimeType) && NoComma(base64Data)
    ensures var r := ResultUri(Some(ResponseBody(Some(ImageDescriptor(Some(mimeType), Some(base64Data))))));
      r == Some(DataUri(mimeType, base64Data)) && StripPrefix(r.value) == Some(base64Data)
  {
    StripPrefixOfDataUri(mimeType, base64Data);
  }
}
