/** The direct-generation service (src/services/openaiService.ts, `generateAndSaveImage`).
    The provider call and the download are abstract: the method returns the request it
    sends and the download it starts, and takes the provider's reply and the download's
    outcome as inputs. The two clock readings (`iso` for the name, `savedAt` for the
    result) are inputs too. */
module OpenAIService {
  import opened Wrappers
  import opened Text
  import FileUtil
  import ImageUtil

  /** The caller's options; each may be absent. */
  datatype GenerateOptions = GenerateOptions(model: Option<string>, size: Option<string>,
                                             quality: Option<string>, systemPrompt: Option<string>)

  /** The body of the `images.generate` call. */
  datatype GenerateRequest = GenerateRequest(model: string, prompt: string, quality: string, n: nat, size: string)

  /** One entry of the provider's `data` list. */
  datatype ImageDatum = ImageDatum(url: Option<string>)

  /** The provider's answer: a thrown error, or a response whose `data` list may be absent. */
  datatype ImagesReply = ImagesThrew(error: Thrown) | ImagesData(data: Option<seq<ImageDatum>>)

  /** How `downloadImage` ended: the server answered with a status code, or the request failed. */
  datatype DownloadOutcome = Responded(statusCode: int) | RequestFailed(error: Thrown)

  /** The record returned to the route on success. */
  datatype GenerateResult = GenerateResult(imageUrl: string, localImageUrl: string, filename: string,
                                           savedAt: string, model: string, size: string, quality: string,
                                           finalPrompt: string)

  const NoUrlMessage := "No image URL returned from OpenAI"
  const SystemHeader := "General system prompt:\n"
  const PromptHeader := "\n\n Image specific prompt:\n"

  function EffectiveModel(options: GenerateOptions): string { Or(options.model, "dall-e-2") }
  function EffectiveSize(options: GenerateOptions): string { Or(options.size, "256x256") }
  function EffectiveQuality(options: GenerateOptions): string { Or(options.quality, "auto") }
  function EffectiveSystemPrompt(options: GenerateOptions): string { Or(options.systemPrompt, "") }

  /** The prompt sent to the provider: the user prompt alone when there is no system prompt,
      otherwise the labelled system block followed by the labelled user block. Either way
      the user prompt is its tail. */
  function FinalPrompt(prompt: string, systemPrompt: string): (fp: string)
    ensures systemPrompt == "" ==> fp == prompt
    ensures EndsWith(fp, prompt)
    ensures systemPrompt != "" ==>
      |fp| == |SystemHeader| + |systemPrompt| + |PromptHeader| + |prompt|
      && fp[..|SystemHeader| + |systemPrompt|] == SystemHeader + systemPrompt
      && fp[|SystemHeader| + |systemPrompt|..|fp| - |prompt|] == PromptHeader
  {
    if systemPrompt == "" then prompt
    else
      var head := SystemHeader + systemPrompt;
      var fp := head + PromptHeader + prompt;
      assert fp[..|head|] == head;
      assert fp[|head|..|fp| - |prompt|] == PromptHeader;
      assert fp[|fp| - |prompt|..] == prompt;
      fp
  }

  /** `response.data?.[0]?.url`, when it is truthy. */
  function ImageUrl(reply: ImagesReply): Option<string>
    requires reply.ImagesData?
  {
    if reply.data.Some? && |reply.data.value| > 0 && Truthy(reply.data.value[0].url)
    then reply.data.value[0].url else None
  }

  /** The saved name: an enhanced PNG name from the effective model, size and quality and the
      fragment of the USER prompt (not of the final prompt); an empty prompt adds no part. */
  function GeneratedFilename(prompt: string, options: GenerateOptions, iso: string): (name: string)
    ensures name == EffectiveModel(options) + "_" + FileUtil.SizePart(Some(EffectiveSize(options)))
                    + "_" + EffectiveQuality(options) + "_" + FileUtil.Stamp(iso)
                    + (if prompt == "" then "" else "_" + ImageUtil.PromptFragment(prompt)) + "." + "png"
  {
    assert ImageUtil.PromptFragment(prompt) == "" <==> prompt == "" by {
      if prompt != "" { assert |Utf16(prompt)| >= 1; }
    }
    FileUtil.EnhancedFilename("png", Some(EffectiveModel(options)), Some(EffectiveSize(options)),
      Some(EffectiveQuality(options)), Some(ImageUtil.PromptFragment(prompt)), iso)
  }

  /** The system prompt reaches the provider but never the file name. */
  lemma NameIgnoresSystemPrompt(prompt: string, options: GenerateOptions, iso: string, systemPrompt: Option<string>)
    ensures GeneratedFilename(prompt, options, iso) == GeneratedFilename(prompt, options.(systemPrompt := systemPrompt), iso)
  {
  }

  method GenerateAndSaveImage(prompt: string, options: GenerateOptions, reply: ImagesReply,
                              download: DownloadOutcome, iso: string, savedAt: string, imagesDir: string)
    returns (request: GenerateRequest, fetch: Option<(string, string)>, outcome: Result<GenerateResult>)
    ensures request == GenerateRequest(EffectiveModel(options),
      FinalPrompt(prompt, EffectiveSystemPrompt(options)), EffectiveQuality(options), 1, EffectiveSize(options))
    ensures reply.ImagesThrew? ==> fetch == None && outcome == Err(MessageOf(reply.error))
    ensures reply.ImagesData? && ImageUrl(reply).None? ==> fetch == None && outcome == Err(NoUrlMessage)
    ensures reply.ImagesData? && ImageUrl(reply).Some? ==>
      fetch == Some((ImageUrl(reply).value, FileUtil.JoinPath(imagesDir, GeneratedFilename(prompt, options, iso))))
    ensures fetch.Some? && download.Responded? && download.statusCode != 200 ==>
      outcome == Err("HTTP " + IntToString(download.statusCode))
    ensures fetch.Some? && download.RequestFailed? ==> outcome == Err(MessageOf(download.error))
    ensures outcome.Ok? <==> fetch.Some? && download == Responded(200)
    ensures outcome.Ok? ==>
      var r := outcome.value;
      && r.imageUrl == fetch.value.0
      && r.filename == GeneratedFilename(prompt, options, iso)
      && r.localImageUrl == "/images/" + r.filename
      && r.savedAt == savedAt
      && r.model == EffectiveModel(options) && r.size == EffectiveSize(options)
      && r.quality == EffectiveQuality(options)
      && r.finalPrompt == request.prompt
  {
    var model := EffectiveModel(options);
    var size := EffectiveSize(options);
    var quality := EffectiveQuality(options);
    var systemPrompt := EffectiveSystemPrompt(options);
    var finalPrompt := FinalPrompt(prompt, systemPrompt);
    request := GenerateRequest(model, finalPrompt, quality, 1, size);
    fetch := None;
    if reply.ImagesThrew? {
      outcome := Err(MessageOf(reply.error));
      return;
    }
    var imageUrl := ImageUrl(reply);
    if imageUrl.None? {
      outcome := Err(NoUrlMessage);
      return;
    }
    var filename := GeneratedFilename(prompt, options, iso);
    var filePath := FileUtil.JoinPath(imagesDir, filename);
    fetch := Some((imageUrl.value, filePath));
    match download {
      case RequestFailed(e) =>
        outcome := Err(MessageOf(e));
      case Responded(code) =>
        if code != 200 {
          outcome := Err("HTTP " + IntToString(code));
        } else {
          var localImageUrl := "/images/" + filename;
          outcome := Ok(GenerateResult(imageUrl.value, localImageUrl, filename, savedAt, model, size, quality, finalPrompt));
        }
    }
  }
}
