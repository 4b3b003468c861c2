/**
 * The image-generation app: its administrator settings (engine, key, image
 * size, steps, default model), each update validated before it is stored,
 * and the request body and image URLs built by `generate_image`.  The HTTP
 * call, the base-64 decoding and the files written to the image cache are
 * foreign; their outcomes are parameters.
 */
module ImageApp {
  import opened Wrappers
  import PyStr

  // ---------------------------------------------------------------------------
  // The image-size pattern `^\d+x\d+$`
  // ---------------------------------------------------------------------------

  predicate IsDigit(c: char) {
    '0' <= c <= '9'
  }

  /** One or more digits, as `\d+` matches them. */
  predicate Digits(s: string) {
    |s| > 0 && forall i :: 0 <= i < |s| ==> IsDigit(s[i])
  }

  /** The length of the longest run of digits at the front of `s`. */
  function DigitRun(s: string): (n: nat)
    ensures n <= |s|
    ensures forall i :: 0 <= i < n ==> IsDigit(s[i])
    ensures n < |s| ==> !IsDigit(s[n])
  {
    if |s| == 0 || !IsDigit(s[0]) then 0 else 1 + DigitRun(s[1..])
  }

  /** A run of digits ended by a non-digit has exactly that length. */
  lemma {:induction false} DigitRunOf(s: string, n: nat)
    requires n < |s| && !IsDigit(s[n])
    requires forall i :: 0 <= i < n ==> IsDigit(s[i])
    ensures DigitRun(s) == n
    decreases n
  {
    if n > 0 {
      DigitRunOf(s[1..], n - 1);
    }
  }

  /** `$` also matches just before one final newline. */
  function BeforeFinalNewline(s: string): (body: string)
    ensures body == s || (|s| > 0 && s[|s| - 1] == '\n' && body == s[..|s| - 1])
  {
    if |s| > 0 && s[|s| - 1] == '\n' then s[..|s| - 1] else s
  }

  /** Digits, an `x` and digits, covering the whole of `body`. */
  predicate SizeBody(body: string) {
    var n := DigitRun(body);
    0 < n < |body| && body[n] == 'x' && Digits(body[n + 1..])
  }

  /** `re.match(r"^\d+x\d+$", size)` */
  predicate MatchesSize(size: string) {
    SizeBody(BeforeFinalNewline(size))
  }

  /** Width and height in digits, with or without one trailing newline, are accepted. */
  lemma SizeAccepted(width: string, height: string)
    requires Digits(width) && Digits(height)
    ensures MatchesSize(width + "x" + height)
    ensures MatchesSize(width + "x" + height + "\n")
  {
    var body := width + "x" + height;
    DigitRunOf(body, |width|);
    assert body[|width| + 1..] == height;
    assert BeforeFinalNewline(body) == body;
    assert (body + "\n")[..|body|] == body;
  }

  /** Digits, an `x` and digits, perhaps followed by one newline. */
  ghost predicate SizeShaped(size: string) {
    exists width, height :: Digits(width) && Digits(height)
      && (size == width + "x" + height || size == width + "x" + height + "\n")
  }

  /** Every accepted size is digits, an `x` and digits, perhaps followed by one newline. */
  lemma SizeShape(size: string)
    requires MatchesSize(size)
    ensures SizeShaped(size)
  {
    var body := BeforeFinalNewline(size);
    var n := DigitRun(body);
    var width, height := body[..n], body[n + 1..];
    assert Digits(width);
    assert body == width + "x" + height;
    if body != size {
      assert size == body + "\n";
    }
  }

  /** The pattern accepts exactly these strings. */
  lemma MatchesSizeIff(size: string)
    ensures MatchesSize(size) <==> SizeShaped(size)
  {
    if MatchesSize(size) {
      SizeShape(size);
    }
    if SizeShaped(size) {
      var width, height :| Digits(width) && Digits(height)
         && (size == width + "x" + height || size == width + "x" + height + "\n");
      SizeAccepted(width, height);
    }
  }

  // ---------------------------------------------------------------------------
  // Generated images
  // ---------------------------------------------------------------------------

  const ImageUrlPrefix: string := "/cache/image/generations/"

  /** The URL of a saved image; a failed save (`None`) is formatted as `None`. */
  function ImageUrl(imageId: Option<string>): string {
    ImageUrlPrefix + imageId.GetOr("None") + ".png"
  }

  /** The id can be read back from the URL: its text sits between the prefix and `.png`. */
  lemma ImageUrlId(imageId: Option<string>)
    ensures var url := ImageUrl(imageId);
            && PyStr.StartsWith(url, ImageUrlPrefix) && PyStr.EndsWith(url, ".png")
            && url[|ImageUrlPrefix|..|url| - 4] == imageId.GetOr("None")
  {
    var url := ImageUrl(imageId);
    assert url[..|ImageUrlPrefix|] == ImageUrlPrefix;
    assert url[|url| - 4..] == ".png";
  }

  /** Different saved ids give different URLs. */
  lemma ImageUrlInjective(a: string, b: string)
    ensures ImageUrl(Some(a)) == ImageUrl(Some(b)) ==> a == b
  {
    ImageUrlId(Some(a));
    ImageUrlId(Some(b));
  }

  /**
   * The loop over the response's images: one URL per image, in order, for
   * the id each save returned.
   */
  method ImageUrls(savedIds: seq<Option<string>>) returns (urls: seq<string>)
    ensures |urls| == |savedIds|
    ensures forall i :: 0 <= i < |savedIds| ==> urls[i] == ImageUrl(savedIds[i])
  {
    urls := [];
    var i := 0;
    while i < |savedIds|
      invariant 0 <= i <= |savedIds|
      invariant |urls| == i
      invariant forall j :: 0 <= j < i ==> urls[j] == ImageUrl(savedIds[j])
    {
      urls := urls + [ImageUrl(savedIds[i])];
      i := i + 1;
    }
  }

  /** Images saved under distinct ids get distinct URLs. */
  lemma ImageUrlsDistinct(savedIds: seq<Option<string>>, urls: seq<string>, i: int, j: int)
    requires |urls| == |savedIds|
    requires forall k :: 0 <= k < |savedIds| ==> urls[k] == ImageUrl(savedIds[k])
    requires 0 <= i < |savedIds| && 0 <= j < |savedIds|
    requires savedIds[i].Some? && savedIds[j].Some? && savedIds[i] != savedIds[j]
    ensures urls[i] != urls[j]
  {
    ImageUrlInjective(savedIds[i].value, savedIds[j].value);
  }

  // ---------------------------------------------------------------------------
  // The app's state
  // ---------------------------------------------------------------------------

  datatype ImageError =
    | IndexError                        // `OPENAI_API_KEYS[0]` on an empty key list
    | ApiKeyNotFound                    // 400 from the key update
    | IncorrectFormat(example: string)  // 400 from the size and steps updates
    | Generation                        // 400: anything raised while generating

  /** The body posted to the image API. */
  datatype ImageRequest = ImageRequest(model: string, prompt: string, n: int, size: string, responseFormat: string)

  const DefaultModel: string := "dall-e-3"

  /** `keys and keys[0]`: whether a client manager is built at start-up. */
  predicate HasFirstKey(keys: seq<string>) {
    |keys| > 0 && keys[0] != ""
  }

  class ImageState {
    var engine: string
    var enabled: bool
    var openaiApiKeys: seq<string>
    var openaiApiBaseUrls: seq<string>
    var clientManagerPresent: bool
    var model: string
    var imageSize: string
    var imageSteps: int

    /** The module's start-up settings; the client manager exists only with a first key. */
    constructor (keys: seq<string>, baseUrls: seq<string>)
      ensures engine == "openai" && !enabled && model == DefaultModel
      ensures imageSize == "1024x1024" && imageSteps == 50
      ensures openaiApiKeys == keys && openaiApiBaseUrls == baseUrls
      ensures clientManagerPresent <==> HasFirstKey(keys)
    {
      engine := "openai";
      openaiApiKeys := keys;
      openaiApiBaseUrls := baseUrls;
      clientManagerPresent := |keys| > 0 && keys[0] != "";
      enabled := false;
      model := DefaultModel;
      imageSize := "1024x1024";
      imageSteps := 50;
    }

    /** `update_config`: both settings are stored as given. */
    method UpdateConfig(newEngine: string, newEnabled: bool) returns (reported: (string, bool))
      modifies this`engine, this`enabled
      ensures engine == newEngine && enabled == newEnabled
      ensures reported == (newEngine, newEnabled)
    {
      engine := newEngine;
      enabled := newEnabled;
      reported := (engine, enabled);
    }

    /** `get_openai_key` */
    function OpenAIKey(): (r: Result<string, ImageError>)
      reads this
      ensures r.Failure? <==> openaiApiKeys == []
      ensures r.Success? ==> r.value == openaiApiKeys[0]
    {
      if openaiApiKeys == [] then Failure(IndexError) else Success(openaiApiKeys[0])
    }

    /**
     * `update_openai_key`: refused when neither a stored first key nor a new
     * key exists; otherwise a non-empty key replaces the first one and the
     * others are untouched.  On success a non-empty first key is reported.
     */
    method UpdateOpenAIKey(key: string) returns (r: Result<string, ImageError>)
      modifies this`openaiApiKeys
      ensures old(openaiApiKeys) == [] ==> r == Failure(IndexError) && openaiApiKeys == old(openaiApiKeys)
      ensures old(openaiApiKeys) != [] && old(openaiApiKeys)[0] == "" && key == "" ==>
                r == Failure(ApiKeyNotFound) && openaiApiKeys == old(openaiApiKeys)
      ensures r.Success? <==> old(openaiApiKeys) != [] && (old(openaiApiKeys)[0] != "" || key != "")
      ensures r.Success? ==> && |openaiApiKeys| == |old(openaiApiKeys)|
                             && openaiApiKeys[1..] == old(openaiApiKeys)[1..]
                             && openaiApiKeys[0] == (if key != "" then key else old(openaiApiKeys)[0])
                             && r.value == openaiApiKeys[0] != ""
    {
      if openaiApiKeys == [] {
        return Failure(IndexError);
      }
      if openaiApiKeys[0] == "" && key == "" {
        return Failure(ApiKeyNotFound);
      }
      if key != "" {
        openaiApiKeys := openaiApiKeys[0 := key];
      }
      return Success(openaiApiKeys[0]);
    }

    /** `update_image_size`: stored only when it matches the size pattern. */
    method UpdateImageSize(size: string) returns (r: Result<string, ImageError>)
      modifies this`imageSize
      ensures r.Success? <==> MatchesSize(size)
      ensures r.Success? ==> imageSize == size && r.value == size
      ensures r.Failure? ==> imageSize == old(imageSize) && r.error == IncorrectFormat("  (e.g., 512x512).")
    {
      if MatchesSize(size) {
        imageSize := size;
        return Success(imageSize);
      }
      return Failure(IncorrectFormat("  (e.g., 512x512)."));
    }

    /** The steps update: stored only when not negative. */
    method UpdateImageSteps(steps: int) returns (r: Result<int, ImageError>)
      modifies this`imageSteps
      ensures r.Success? <==> steps >= 0
      ensures r.Success? ==> imageSteps == steps && r.value == steps
      ensures r.Failure? ==> imageSteps == old(imageSteps) && r.error == IncorrectFormat("  (e.g., 50).")
    {
      if steps >= 0 {
        imageSteps := steps;
        return Success(imageSteps);
      }
      return Failure(IncorrectFormat("  (e.g., 50)."));
    }

    /** `get_models`: the two DALL·E models, only for the OpenAI engine (`None` otherwise). */
    function Models(): (r: Option<seq<(string, string)>>)
      reads this
      ensures r.Some? <==> engine == "openai"
      ensures r.Some? ==> r.value == [("dall-e-2", "DALL·E 2"), (DefaultModel, "DALL·E 3")]
    {
      if engine == "openai" then Some([("dall-e-2", "DALL·E 2"), (DefaultModel, "DALL·E 3")]) else None
    }

    /** `get_default_model`: the stored model, or `dall-e-3` when it is empty. */
    function DefaultModelReported(): (r: Option<string>)
      reads this
      ensures r.Some? <==> engine == "openai"
      ensures r.Some? ==> r.value != "" && (model != "" ==> r.value == model)
      ensures r.Some? && model == "" ==> r.value == DefaultModel
    {
      if engine == "openai" then Some(if model != "" then model else DefaultModel) else None
    }

    /** `set_model_handler`: the model changes only under the OpenAI engine. */
    method SetModel(newModel: string) returns (r: Option<string>)
      modifies this`model
      ensures engine == "openai" ==> model == newModel && r == Some(newModel)
      ensures engine != "openai" ==> model == old(model) && r == None
    {
      if engine == "openai" {
        model := newModel;
        return Some(model);
      }
      return None;
    }

    /** The body `generate_image` posts: the form's size when given, else the stored one. */
    function RequestData(prompt: string, n: int, formSize: Option<string>): (r: ImageRequest)
      reads this
      ensures r.model != "" && (model != "" ==> r.model == model)
      ensures model == "" ==> r.model == DefaultModel
      ensures r.prompt == prompt && r.n == n && r.responseFormat == "b64_json"
      ensures r.size == if formSize.Some? && formSize.value != "" then formSize.value else imageSize
    {
      ImageRequest(if model != "" then model else DefaultModel, prompt, n,
                   if formSize.Some? && formSize.value != "" then formSize.value else imageSize,
                   "b64_json")
    }

    /** The model sent is the one `get_default_model` reports. */
    lemma RequestModelIsDefaultModel(prompt: string, n: int, formSize: Option<string>)
      requires engine == "openai"
      ensures DefaultModelReported() == Some(RequestData(prompt, n, formSize).model)
    {
    }

    /**
     * `generate_image`: `None` for another engine; a 400 without a client
     * manager or when the request fails (`savedIds == None`); otherwise one
     * URL per returned image, from the id its save produced.
     */
    method GenerateImage(savedIds: Option<seq<Option<string>>>) returns (r: Result<Option<seq<string>>, ImageError>)
      ensures engine != "openai" ==> r == Success(None)
      ensures engine == "openai" && (!clientManagerPresent || savedIds.None?) ==> r == Failure(Generation)
      ensures engine == "openai" && clientManagerPresent && savedIds.Some? ==>
                r.Success? && r.value.Some? && |r.value.value| == |savedIds.value|
                && forall i :: 0 <= i < |savedIds.value| ==> r.value.value[i] == ImageUrl(savedIds.value[i])
    {
      if engine != "openai" {
        return Success(None);
      }
      if !clientManagerPresent || savedIds.None? {
        return Failure(Generation);
      }
      var urls := ImageUrls(savedIds.value);
      return Success(Some(urls));
    }
  }
}
