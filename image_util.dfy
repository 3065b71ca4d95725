/** The image-output utility (src/utils/imageUtils.ts): choosing the payload among the
    provider's image outputs, checking that a payload looks like base64, and deriving the
    name, path and URL under which a payload is saved. The disk operations are parameters:
    `mkdir` is `None` when `ensureDirectoryExists` returns and holds the thrown value
    otherwise, and `write` is the same for `writeFileSync` and the `statSync` after it. */
module ImageUtil {
  import opened Wrappers
  import opened Text
  import FileUtil

  /** What a successful save reports. */
  datatype ImageSaveResult = ImageSaveResult(localImageUrl: string, filename: string, filePath: string)

  /** The options of a save; each may be absent. */
  datatype SaveOptions = SaveOptions(model: Option<string>, size: Option<string>,
                                     quality: Option<string>, prompt: Option<string>)

  /** One `image_generation_call` output of the provider; `result` is its base64 payload. */
  datatype ImageOutput = ImageOutput(result: Option<string>)

  predicate IsAsciiAlnum(c: char) {
    ('a' <= c <= 'z') || ('A' <= c <= 'Z') || ('0' <= c <= '9')
  }

  /** An ASCII letter or digit, as a UTF-16 code unit. */
  predicate IsAsciiAlnumUnit(u: int) {
    (97 <= u <= 122) || (65 <= u <= 90) || (48 <= u <= 57)
  }

  /** What the class `[^a-zA-Z0-9]` does to one code unit: a letter or digit is kept, any
      other unit, a surrogate half included, becomes '_'. */
  function SanitizeUnit(u: int): (c: char)
    ensures IsAsciiAlnumUnit(u) ==> c as int == u
    ensures !IsAsciiAlnumUnit(u) ==> c == '_'
  {
    if IsAsciiAlnumUnit(u) then u as char else '_'
  }

  /** What the class does to the code units of one character: a letter or digit is kept, any
      other character becomes one '_' per code unit. */
  function SanitizeChar(c: char): (h: string)
    ensures |h| == |Utf16Char(c)|
    ensures forall j :: 0 <= j < |h| ==> h[j] == SanitizeUnit(Utf16Char(c)[j])
  {
    if IsAsciiAlnum(c) then [c] else if c as int <= 0xFFFF then "_" else "__"
  }

  /** `s.replace(/[^a-zA-Z0-9]/g, '_')`. Without the `u` flag the class is matched against
      each UTF-16 code unit, so a character outside the Basic Multilingual Plane becomes two
      '_'. The result holds one character per code unit of `s`. */
  function Sanitize(s: string): (r: string)
    ensures |r| == |Utf16(s)|
    ensures forall k :: 0 <= k < |r| ==> r[k] == SanitizeUnit(Utf16(s)[k])
    decreases |s|
  {
    if |s| == 0 then ""
    else
      var r := SanitizeChar(s[0]) + Sanitize(s[1..]);
      SanitizedConcat(SanitizeChar(s[0]), Sanitize(s[1..]), Utf16Char(s[0]), Utf16(s[1..]));
      r
  }

  /** Unit-wise sanitising commutes with concatenation. */
  lemma SanitizedConcat(h: string, t: string, us: seq<int>, vs: seq<int>)
    requires |h| == |us| && forall j :: 0 <= j < |h| ==> h[j] == SanitizeUnit(us[j])
    requires |t| == |vs| && forall j :: 0 <= j < |t| ==> t[j] == SanitizeUnit(vs[j])
    ensures forall k :: 0 <= k < |h + t| ==> (h + t)[k] == SanitizeUnit((us + vs)[k])
  {
    forall k | 0 <= k < |h + t| ensures (h + t)[k] == SanitizeUnit((us + vs)[k]) {
      if k >= |h| {
        assert (h + t)[k] == t[k - |h|] && (us + vs)[k] == vs[k - |h|];
      }
    }
  }

  /** The prompt fragment of a saved name: `prompt.substring(0, 30)` with every code unit
      outside [A-Za-z0-9] replaced by '_'. `substring` counts code units, and a cut through a
      surrogate pair leaves a lone half that the class also replaces, so the fragment is the
      first 30 units of the sanitised prompt. */
  function PromptFragment(prompt: string): (f: string)
    ensures |f| == if |Utf16(prompt)| < 30 then |Utf16(prompt)| else 30
    ensures forall k :: 0 <= k < |f| ==> f[k] == SanitizeUnit(Utf16(prompt)[k])
    ensures forall k :: 0 <= k < |f| ==> IsAsciiAlnum(f[k]) || f[k] == '_'
  {
    var r := Sanitize(prompt);
    if |r| < 30 then r else r[..30]
  }

  /** Without characters outside the Basic Multilingual Plane, sanitising works character
      by character. */
  lemma SanitizeBmp(s: string)
    requires forall k :: 0 <= k < |s| ==> s[k] as int <= 0xFFFF
    ensures |Sanitize(s)| == |s|
    ensures forall k :: 0 <= k < |s| ==> Sanitize(s)[k] == if IsAsciiAlnum(s[k]) then s[k] else '_'
  {
    Utf16Bmp(s);
  }

  /** A cat emoji is one character but two code units, so it becomes two '_'. */
  lemma SanitizeEmoji(s: string)
    requires s == "\U{1F431}cat"
    ensures Sanitize(s) == "__cat"
  {
    var t := s[1..];
    assert t == "cat" && s[0] as int == 0x1F431;
    assert Sanitize(t[2..]) == "t";
    assert Sanitize(t[1..]) == "at";
    assert Sanitize(t) == "cat";
  }

  /** The name `saveBase64Image` gives a payload: an enhanced PNG name whose model, size and
      quality default to 'gpt-image-1', '1024x1024' and 'low', and whose prompt part is never
      empty: the prompt fragment, or 'chat_image' when there is no prompt. */
  function SaveFilename(options: SaveOptions, iso: string): (name: string)
    ensures name == Or(options.model, "gpt-image-1") + "_" + FileUtil.SizePart(Some(Or(options.size, "1024x1024")))
                    + "_" + Or(options.quality, "low") + "_" + FileUtil.Stamp(iso)
                    + ("_" + (if Truthy(options.prompt) then PromptFragment(options.prompt.value) else "chat_image"))
                    + "." + "png"
  {
    var fragment := if Truthy(options.prompt) then PromptFragment(options.prompt.value) else "chat_image";
    assert FileUtil.PromptPart(Some(fragment)) == "_" + fragment by {
      if Truthy(options.prompt) { assert |Utf16(options.prompt.value)| >= 1; }
    }
    FileUtil.EnhancedFilename("png", Some(Or(options.model, "gpt-image-1")), Some(Or(options.size, "1024x1024")),
      Some(Or(options.quality, "low")), Some(fragment), iso)
  }

  /** `saveBase64Image`: the payload is written under the derived name in `imagesDir`.
      Creating the directory happens before the `try`, so its failure escapes as it is; a
      failed write is rethrown as "Failed to save image: " followed by the cause. */
  function SaveBase64Image(imageBase64: string, options: SaveOptions, iso: string, imagesDir: string,
                           mkdir: Option<Thrown>, write: Option<Thrown>): (r: Result<ImageSaveResult>)
    ensures r.Err? <==> mkdir.Some? || write.Some?
    ensures mkdir.Some? ==> r == Err(MessageOf(mkdir.value))
    ensures mkdir.None? && write.Some? ==> r.error == "Failed to save image: " + MessageOf(write.value)
    ensures r.Ok? ==> r.value.filename == SaveFilename(options, iso)
    ensures r.Ok? ==> r.value.localImageUrl == "/images/" + r.value.filename
    ensures r.Ok? ==> r.value.filePath == FileUtil.JoinPath(imagesDir, r.value.filename)
  {
    var filename := SaveFilename(options, iso);
    if mkdir.Some? then Err(MessageOf(mkdir.value))
    else if write.Some? then Err("Failed to save image: " + MessageOf(write.value))
    else Ok(ImageSaveResult("/images/" + filename, filename, FileUtil.JoinPath(imagesDir, filename)))
  }

  /** `processImageOutputs`: only the first output is consulted; no outputs, or a first
      output without a payload, give `null` (here `None`) even when later outputs carry data. */
  function ProcessImageOutputs(outputs: seq<ImageOutput>, options: SaveOptions, iso: string, imagesDir: string,
                               mkdir: Option<Thrown>, write: Option<Thrown>): (r: Result<Option<ImageSaveResult>>)
    ensures r == Ok(None) <==> |outputs| == 0 || !Truthy(outputs[0].result)
    ensures |outputs| > 0 ==> r == ProcessImageOutputs(outputs[..1], options, iso, imagesDir, mkdir, write)
    ensures r.Ok? && r.value.Some? ==>
      Ok(r.value.value) == SaveBase64Image(outputs[0].result.value, options, iso, imagesDir, mkdir, write)
    ensures r.Err? <==> |outputs| > 0 && Truthy(outputs[0].result) && (mkdir.Some? || write.Some?)
    ensures r.Err? ==> r.error == SaveBase64Image(outputs[0].result.value, options, iso, imagesDir, mkdir, write).error
  {
    if |outputs| == 0 || !Truthy(outputs[0].result) then Ok(None)
    else
      match SaveBase64Image(outputs[0].result.value, options, iso, imagesDir, mkdir, write)
      case Ok(saved) => Ok(Some(saved))
      case Err(e) => Err(e)
  }

  /** The characters of the base64 alphabet (without the padding '='). */
  predicate IsBase64Char(c: char) {
    IsAsciiAlnum(c) || c == '+' || c == '/'
  }

  /** `s` matches /^[A-Za-z0-9+/]*={0,2}$/ with the alphabet part ending at `k`. */
  predicate Base64SplitAt(s: string, k: int) {
    0 <= k <= |s| && |s| - k <= 2
    && (forall j :: 0 <= j < k ==> IsBase64Char(s[j]))
    && (forall j :: k <= j < |s| ==> s[j] == '=')
  }

  /** The number of '=' characters at the end of `s`. */
  function TrailingPadding(s: string): (n: nat)
    ensures n <= |s|
    ensures forall j :: |s| - n <= j < |s| ==> s[j] == '='
    ensures n < |s| ==> s[|s| - n - 1] != '='
    decreases |s|
  {
    if |s| > 0 && s[|s| - 1] == '=' then 1 + TrailingPadding(s[..|s| - 1]) else 0
  }

  lemma {:induction false} PaddingDetermined(s: string, k: int)
    requires Base64SplitAt(s, k)
    ensures TrailingPadding(s) == |s| - k
    decreases |s|
  {
    if k < |s| {
      var t := s[..|s| - 1];
      assert Base64SplitAt(t, k);
      PaddingDetermined(t, k);
    } else if |s| > 0 {
      assert IsBase64Char(s[|s| - 1]);
    }
  }

  /** `validateBase64Image`: true exactly when the string is longer than 100 characters and
      has the shape of base64 text: alphabet characters followed by at most two '='. */
  function ValidateBase64Image(imageBase64: string): (ok: bool)
    ensures ok <==> |imageBase64| > 100 && exists k :: Base64SplitAt(imageBase64, k)
  {
    var pad := TrailingPadding(imageBase64);
    var k := |imageBase64| - pad;
    if forall j :: 0 <= j < k ==> IsBase64Char(imageBase64[j]) then
      assert pad <= 2 ==> Base64SplitAt(imageBase64, k);
      assert forall k' :: Base64SplitAt(imageBase64, k') ==> pad <= 2 by {
        forall k' | Base64SplitAt(imageBase64, k') ensures pad <= 2 { PaddingDetermined(imageBase64, k'); }
      }
      imageBase64 != "" && pad <= 2 && |imageBase64| > 100
    else
      assert forall k' :: !Base64SplitAt(imageBase64, k') by {
        forall k' | Base64SplitAt(imageBase64, k') ensures false { PaddingDetermined(imageBase64, k'); }
      }
      false
  }

  /** `getImageFileInfo`: a timestamp PNG name in the images directory. */
  function GetImageFileInfo(iso: string, imagesDir: string): (info: (string, string, string))
    ensures info.0 == FileUtil.TimestampFilename(iso, "png")
    ensures info.1 == imagesDir && info.2 == FileUtil.JoinPath(imagesDir, info.0)
  {
    var filename := FileUtil.TimestampFilename(iso, "png");
    (filename, imagesDir, FileUtil.JoinPath(imagesDir, filename))
  }
}
