/** What the gallery reads back from the names the generators write. Parsing is not the
    inverse of encoding: the enhanced generator writes `model_W_H_quality_stamp[_prompt].ext`,
    the parser splits it on '_' and takes segment 1 (the width) as the model, segment 2 (the
    height) as the size, and joins everything from the stamp onwards into the prompt. */
module FilenameCodec {
  import opened Wrappers
  import opened Text
  import FileUtil
  import ImageUtil
  import Gallery
  import Chat
  import OpenAIService

  /** The width half of the written size: the text before its first 'x', or the default's. */
  function Width(size: Option<string>): string {
    if Truthy(size) then size.value[..IndexOf(size.value, 'x')] else "1024"
  }

  /** The height half of the written size: the text after its first 'x', or the default's. */
  function Height(size: Option<string>): string
    requires !Truthy(size) || 'x' in size.value
  {
    if Truthy(size) then size.value[IndexOf(size.value, 'x') + 1..] else "1024"
  }

  /** A size the enhanced generator can write: absent, or with an 'x' and no '_'. */
  predicate WritableSize(size: Option<string>) {
    !Truthy(size) || ('x' in size.value && '_' !in size.value)
  }

  lemma SizePartHalves(size: Option<string>)
    requires WritableSize(size)
    ensures FileUtil.SizePart(size) == Width(size) + "_" + Height(size)
    ensures '_' !in Width(size) && '_' !in Height(size)
  {
    if Truthy(size) {
      var v := size.value;
      var i := IndexOf(v, 'x');
      var sp := FileUtil.SizePart(size);
      var halves := v[..i] + "_" + v[i + 1..];
      assert sp == halves by {
        assert |sp| == |halves| == |v|;
        forall k | 0 <= k < |sp| ensures sp[k] == halves[k] {
          if k < i {
            assert halves[k] == v[k];
          } else if k > i {
            assert halves[k] == v[k];
          }
        }
      }
      assert Width(size) == v[..i] && Height(size) == v[i + 1..];
    }
  }

  /** Stripping the extension of `base + "." + ext` gives `base` back when `ext` is a proper
      extension (non-empty, without '.' or '/'). */
  lemma StripAppendedExtension(base: string, ext: string)
    requires ext != "" && '.' !in ext && '/' !in ext
    ensures Gallery.StripExtension(base + "." + ext) == base
  {
    var s := base + "." + ext;
    var r := Gallery.StripExtension(s);
    assert s[|base|] == '.';
    assert forall k :: |base| < k < |s| ==> s[k] == ext[k - |base| - 1];
    assert Gallery.ExtensionAt(s, |base|);
    assert |r| == |base|;
    assert s[..|base|] == base;
  }

  /** `ps[0] + "_" + ps[1] + "_" + ... + "_" + rest`. */
  function Prefixed(ps: seq<string>, rest: string): string
    decreases |ps|
  {
    if |ps| == 0 then rest else ps[0] + "_" + Prefixed(ps[1..], rest)
  }

  /** One more leading segment: if `tail` splits into `ps` followed by the pieces of `rest`, then
      `p + "_" + tail` splits into `p`, `ps` and those pieces, when `p` has no '_'. */
  lemma SplitStep(p: string, ps: seq<string>, rest: string, tail: string)
    requires '_' !in p
    requires Split(tail, '_') == ps + Split(rest, '_')
    ensures Split(p + "_" + tail, '_') == [p] + ps + Split(rest, '_')
  {
    SplitAround(p, '_', tail);
  }

  /** Segments without '_' placed in front of `rest` come back out of the split one by one. */
  lemma {:induction false} SplitPrefixed(ps: seq<string>, rest: string)
    requires forall i :: 0 <= i < |ps| ==> '_' !in ps[i]
    ensures Split(Prefixed(ps, rest), '_') == ps + Split(rest, '_')
    decreases |ps|
  {
    if |ps| > 0 {
      var tail := ps[1..];
      SplitPrefixed(tail, rest);
      SplitStep(ps[0], tail, rest, Prefixed(tail, rest));
      assert ps == [ps[0]] + tail;
    }
  }

  lemma Concat3(a: string, b: string, c: string)
    ensures a + (b + c) == a + b + c
  {
  }

  lemma PrefixedFour(m: string, w: string, h: string, q: string, rest: string)
    ensures Prefixed([m, w, h, q], rest) == m + "_" + w + "_" + h + "_" + q + "_" + rest
  {
    var ps := [m, w, h, q];
    assert ps[1..] == [w, h, q];
    assert ps[1..][1..] == [h, q];
    assert ps[1..][1..][1..] == [q];
    assert ps[1..][1..][1..][1..] == [];
    assert Prefixed([q], rest) == q + "_" + rest;
    assert Prefixed([h, q], rest) == h + "_" + (q + "_" + rest);
    assert Prefixed([w, h, q], rest) == w + "_" + (h + "_" + (q + "_" + rest));
  }

  /** An enhanced name is its four leading fields, the stamp and prompt part, and the extension. */
  lemma EnhancedShape(ext: string, model: Option<string>, size: Option<string>, quality: Option<string>,
                      prompt: Option<string>, iso: string)
    requires WritableSize(size)
    ensures FileUtil.EnhancedFilename(ext, model, size, quality, prompt, iso)
         == Prefixed([FileUtil.ModelPart(model), Width(size), Height(size), FileUtil.QualityPart(quality)],
                     FileUtil.Stamp(iso) + FileUtil.PromptPart(prompt)) + "." + ext
  {
    var m, q := FileUtil.ModelPart(model), FileUtil.QualityPart(quality);
    var w, h := Width(size), Height(size);
    var rest := FileUtil.Stamp(iso) + FileUtil.PromptPart(prompt);
    SizePartHalves(size);
    var x := m + "_";
    Concat3(x, w + "_", h);
    Concat3(x, w, "_");
    var y := m + "_" + w + "_" + h + "_" + q + "_";
    Concat3(y, FileUtil.Stamp(iso), FileUtil.PromptPart(prompt));
    PrefixedFour(m, w, h, q, rest);
  }

  /** The segments of an enhanced name, when model and quality have no '_' and the size is one
      the generator can write: model, width, height, quality, then the pieces of the stamp and
      the prompt. */
  lemma EnhancedSegments(ext: string, model: Option<string>, size: Option<string>, quality: Option<string>,
                         prompt: Option<string>, iso: string)
    requires ext != "" && '.' !in ext && '/' !in ext
    requires '_' !in FileUtil.ModelPart(model) && '_' !in FileUtil.QualityPart(quality)
    requires WritableSize(size)
    ensures Gallery.Segments(FileUtil.EnhancedFilename(ext, model, size, quality, prompt, iso))
         == [FileUtil.ModelPart(model), Width(size), Height(size), FileUtil.QualityPart(quality)]
            + Split(FileUtil.Stamp(iso) + FileUtil.PromptPart(prompt), '_')
  {
    var fields := [FileUtil.ModelPart(model), Width(size), Height(size), FileUtil.QualityPart(quality)];
    var rest := FileUtil.Stamp(iso) + FileUtil.PromptPart(prompt);
    var base := Prefixed(fields, rest);
    EnhancedShape(ext, model, size, quality, prompt, iso);
    StripAppendedExtension(base, ext);
    SizePartHalves(size);
    SplitPrefixed(fields, rest);
  }

  /** A name of at least four '_'-free leading segments, the rest and an extension parses with
      segments 1, 2 and 3 as the model, the size and the quality, whatever they hold. */
  lemma PrefixedParse(ps: seq<string>, rest: string, ext: string)
    requires |ps| >= 4 && forall i :: 0 <= i < |ps| ==> '_' !in ps[i]
    requires ext != "" && '.' !in ext && '/' !in ext
    ensures var m := Gallery.ParsedMetadata(Prefixed(ps, rest) + "." + ext);
      m.model == Some(ps[1]) && m.size == Some(ps[2]) && m.quality == Some(ps[3])
  {
    StripAppendedExtension(Prefixed(ps, rest), ext);
    SplitPrefixed(ps, rest);
  }

  /** The layout `date_time_model_size_quality_prompt.png` given as an example beside the parser,
      `20241220_143022_dall-e-3_1024x1024_hd_a-beautiful-sunset.png` (the segments `ps` and `rest`
      below joined with '_'), is not the layout the generator writes: read by that parser, its
      time becomes the model, its model the size and its size the quality. */
  lemma CommentExampleShifted(ps: seq<string>, rest: string)
    requires ps == ["20241220", "143022", "dall-e-3", "1024x1024", "hd"] && rest == "a-beautiful-sunset"
    ensures var m := Gallery.ParsedMetadata(Prefixed(ps, rest) + "." + "png");
      m.model == Some("143022") && m.size == Some("dall-e-3") && m.quality == Some("1024x1024")
  {
    forall i | 0 <= i < |ps| ensures '_' !in ps[i] {
      assert ps[i] in ["20241220", "143022", "dall-e-3", "1024x1024", "hd"];
    }
    var ext := "png";
    assert ext != "" && '.' !in ext && '/' !in ext;
    PrefixedParse(ps, rest, ext);
  }

  /** Parsing a freshly encoded enhanced name: the model comes back as the width, the size as
      the height, the quality is exact, the prompt is the stamp and prompt part with every '-'
      turned into a space, and the type is chat only when the name contains "chat" or the width
      is "gpt-image-1". */
  lemma ParseOfEnhanced(ext: string, model: Option<string>, size: Option<string>, quality: Option<string>,
                        prompt: Option<string>, iso: string)
    requires ext != "" && '.' !in ext && '/' !in ext
    requires '_' !in FileUtil.ModelPart(model) && '_' !in FileUtil.QualityPart(quality)
    requires WritableSize(size)
    ensures var name := FileUtil.EnhancedFilename(ext, model, size, quality, prompt, iso);
      Gallery.ParsedMetadata(name)
        == Gallery.Metadata(Some(Width(size)), Some(Height(size)), Some(FileUtil.QualityPart(quality)),
                            Some(ReplaceEach(FileUtil.Stamp(iso) + FileUtil.PromptPart(prompt), {'-'}, ' ')),
                            Gallery.EnhancedType(name, Width(size)))
  {
    var name := FileUtil.EnhancedFilename(ext, model, size, quality, prompt, iso);
    var rest := FileUtil.Stamp(iso) + FileUtil.PromptPart(prompt);
    EnhancedSegments(ext, model, size, quality, prompt, iso);
    var parts := Gallery.Segments(name);
    assert parts[4..] == Split(rest, '_');
    JoinSplit(rest, '_');
  }

  /** Every name the enhanced generator writes with the "png" extension passes the gallery's
      extension filter. */
  lemma EnhancedPngListed(model: Option<string>, size: Option<string>, quality: Option<string>,
                          prompt: Option<string>, iso: string)
    ensures Gallery.IsImageFile(FileUtil.EnhancedFilename("png", model, size, quality, prompt, iso))
  {
    PngListed(FileUtil.EnhancedFilename("png", model, size, quality, prompt, iso));
  }

  lemma PngListed(name: string)
    requires EndsWith(name, ".png")
    ensures Gallery.IsImageFile(name)
  {
    var l := Gallery.Lower(name);
    assert l[|l| - 4..] == Gallery.Lower(name[|name| - 4..]);
  }

  /** A string without the first character of `sub` does not contain `sub`. */
  lemma NotContainsFirst(s: string, sub: string)
    requires sub != "" && sub[0] !in s
    ensures !Contains(s, sub)
  {
    if Contains(s, sub) {
      var i := ContainsWitness(s, sub);
    }
  }

  lemma DefaultSizeHalves(size: Option<string>)
    requires size == Some("1024x1024")
    ensures Width(size) == "1024" && Height(size) == "1024"
  {
    assert size.value[4] == 'x';
    assert IndexOf(size.value, 'x') == 4;
  }

  /** The size "1024x1024" is written as `1024_1024`, which holds no 'c'. */
  lemma DefaultSizeFacts(size: Option<string>)
    requires size == Some("1024x1024")
    ensures WritableSize(size) && Width(size) == "1024" && Height(size) == "1024"
    ensures 'c' !in FileUtil.SizePart(size)
  {
    DefaultSizeHalves(size);
    SizePartHalves(size);
  }

  /** A character that is none of '_' and '.' and occurs in no field is not in the name. */
  lemma CharNotInEnhanced(c: char, ext: string, model: Option<string>, size: Option<string>,
                          quality: Option<string>, prompt: Option<string>, iso: string)
    requires c != '_' && c != '.' && c !in ext
    requires c !in FileUtil.ModelPart(model) && c !in FileUtil.SizePart(size) && c !in FileUtil.QualityPart(quality)
    requires c !in FileUtil.Stamp(iso) && c !in FileUtil.PromptPart(prompt)
    ensures c !in FileUtil.EnhancedFilename(ext, model, size, quality, prompt, iso)
  {
  }

  lemma StampKeepsC(iso: string)
    requires 'c' !in iso
    ensures 'c' !in FileUtil.Stamp(iso)
  {
  }

  /** Turning dashes into spaces on `x + "_" + y` works piece by piece. */
  lemma SpacedJoin(x: string, y: string)
    ensures ReplaceEach(x + ("_" + y), {'-'}, ' ') == ReplaceEach(x, {'-'}, ' ') + "_" + ReplaceEach(y, {'-'}, ' ')
  {
    ReplaceEachAppend(x, "_" + y, {'-'}, ' ');
    ReplaceEachAppend("_", y, {'-'}, ' ');
  }

  /** An enhanced name none of whose fields holds a 'c' is typed direct exactly when the width
      is not "gpt-image-1": without a 'c' the name cannot spell "chat". */
  lemma EnhancedWithoutC(ext: string, model: Option<string>, size: Option<string>, quality: Option<string>,
                         prompt: Option<string>, iso: string)
    requires ext != "" && '.' !in ext && '/' !in ext && 'c' !in ext
    requires '_' !in FileUtil.ModelPart(model) && '_' !in FileUtil.QualityPart(quality)
    requires WritableSize(size)
    requires 'c' !in FileUtil.ModelPart(model) && 'c' !in FileUtil.SizePart(size) && 'c' !in FileUtil.QualityPart(quality)
    requires 'c' !in iso && 'c' !in FileUtil.PromptPart(prompt)
    ensures var m := Gallery.ParsedMetadata(FileUtil.EnhancedFilename(ext, model, size, quality, prompt, iso));
      m.kind == (if Width(size) == "gpt-image-1" then Gallery.Chat else Gallery.Direct)
  {
    var name := FileUtil.EnhancedFilename(ext, model, size, quality, prompt, iso);
    ParseOfEnhanced(ext, model, size, quality, prompt, iso);
    StampKeepsC(iso);
    CharNotInEnhanced('c', ext, model, size, quality, prompt, iso);
    NotContainsFirst(name, "chat");
  }

  /** With a prompt given, the parsed prompt is the stamp and the prompt with dashes turned into
      spaces, and the '_' between the two stays. */
  lemma EnhancedPromptKeepsUnderscore(ext: string, model: Option<string>, size: Option<string>,
                                      quality: Option<string>, prompt: string, iso: string)
    requires ext != "" && '.' !in ext && '/' !in ext
    requires '_' !in FileUtil.ModelPart(model) && '_' !in FileUtil.QualityPart(quality)
    requires WritableSize(size) && prompt != ""
    ensures Gallery.ParsedMetadata(FileUtil.EnhancedFilename(ext, model, size, quality, Some(prompt), iso)).prompt
            == Some(ReplaceEach(FileUtil.Stamp(iso), {'-'}, ' ') + "_" + ReplaceEach(prompt, {'-'}, ' '))
  {
    ParseOfEnhanced(ext, model, size, quality, Some(prompt), iso);
    SpacedJoin(FileUtil.Stamp(iso), prompt);
  }

  /** The `dall-e-3`/`1024x1024`/`hd` example is `dall-e-3_1024_1024_hd_<stamp>_<prompt>.png`: the generator
      writes it for model "dall-e-3", size "1024x1024" and quality "hd", and the parser gives back
      model "1024", size "1024" and quality "hd". The three lemmas below state the fields, the
      prompt and the type; for `a-beautiful-sunset` at 2024-12-20T14:30:22.000Z the parsed
      prompt reads `2024 12 20T14 30 22 000Z_a beautiful sunset`. */
  predicate ExampleOptions(model: Option<string>, size: Option<string>, quality: Option<string>) {
    model == Some("dall-e-3") && size == Some("1024x1024") && quality == Some("hd")
  }

  /** What the example's options give each field of the name. */
  lemma ExampleParts(model: Option<string>, size: Option<string>, quality: Option<string>)
    requires ExampleOptions(model, size, quality)
    ensures FileUtil.ModelPart(model) == "dall-e-3" && FileUtil.QualityPart(quality) == "hd"
    ensures WritableSize(size) && Width(size) == "1024" && Height(size) == "1024"
    ensures '_' !in FileUtil.ModelPart(model) && '_' !in FileUtil.QualityPart(quality)
    ensures 'c' !in FileUtil.ModelPart(model) && 'c' !in FileUtil.SizePart(size) && 'c' !in FileUtil.QualityPart(quality)
  {
    DefaultSizeFacts(size);
  }

  lemma WorkedExampleFields(model: Option<string>, size: Option<string>, quality: Option<string>,
                            prompt: Option<string>, iso: string)
    requires ExampleOptions(model, size, quality)
    ensures var m := Gallery.ParsedMetadata(FileUtil.EnhancedFilename("png", model, size, quality, prompt, iso));
      m.model == Some("1024") && m.size == Some("1024") && m.quality == Some("hd")
  {
    ExampleParts(model, size, quality);
    ParseOfEnhanced("png", model, size, quality, prompt, iso);
  }

  lemma WorkedExamplePrompt(model: Option<string>, size: Option<string>, quality: Option<string>,
                            prompt: string, iso: string)
    requires ExampleOptions(model, size, quality) && prompt != ""
    ensures Gallery.ParsedMetadata(FileUtil.EnhancedFilename("png", model, size, quality, Some(prompt), iso)).prompt
            == Some(ReplaceEach(FileUtil.Stamp(iso), {'-'}, ' ') + "_" + ReplaceEach(prompt, {'-'}, ' '))
  {
    ExampleParts(model, size, quality);
    EnhancedPromptKeepsUnderscore("png", model, size, quality, prompt, iso);
  }

  lemma WorkedExampleKind(model: Option<string>, size: Option<string>, quality: Option<string>,
                          prompt: string, iso: string)
    requires ExampleOptions(model, size, quality) && 'c' !in prompt && 'c' !in iso
    ensures Gallery.ParsedMetadata(FileUtil.EnhancedFilename("png", model, size, quality, Some(prompt), iso)).kind
            == Gallery.Direct
  {
    ExampleParts(model, size, quality);
    assert 'c' !in FileUtil.PromptPart(Some(prompt));
    EnhancedWithoutC("png", model, size, quality, Some(prompt), iso);
  }

  /** An image the chat service saves with the default size and quality is typed direct
      whenever the user's message and the instant hold no 'c': the name holds the width where
      the parser looks for "gpt-image-1", and nothing in it spells "chat". */
  lemma ChatImageTypedDirect(options: Chat.ChatOptions, userMessage: string, iso: string)
    requires options.size == None && options.quality == None
    requires userMessage != "" && 'c' !in userMessage && 'c' !in iso
    ensures Gallery.ParsedMetadata(ImageUtil.SaveFilename(Chat.SaveOptionsFor(options, userMessage), iso)).kind
            == Gallery.Direct
  {
    var model, size, quality := Some(Chat.AiModel), Some("1024x1024"), Some("low");
    ChatSavedName(options, userMessage, iso, model, size, quality);
    ChatNameKind(userMessage, iso, model, size, quality, Some(ImageUtil.PromptFragment(userMessage)));
  }

  /** The converse side: the fragment comes from the user's message, so the message "chat"
      puts "chat" into the name, and the gallery then types the image as a chat image. */
  lemma ChatMessageTypedChat(options: Chat.ChatOptions, iso: string)
    requires options.size == None && options.quality == None
    ensures Gallery.ParsedMetadata(ImageUtil.SaveFilename(Chat.SaveOptionsFor(options, "chat"), iso)).kind
            == Gallery.Chat
  {
    var o := Chat.SaveOptionsFor(options, "chat");
    ChatWordInName(o, iso);
    ChatSaveFields(o);
    ParseOfSaved(o, iso);
  }

  lemma ChatSaveFields(o: ImageUtil.SaveOptions)
    requires o.model == Some(Chat.AiModel) && o.size == Some("1024x1024") && o.quality == Some("low")
    ensures '_' !in Or(o.model, "gpt-image-1") && '_' !in Or(o.quality, "low")
    ensures WritableSize(Some(Or(o.size, "1024x1024")))
  {
    assert Or(o.model, "gpt-image-1") == Chat.AiModel;
    assert Or(o.quality, "low") == "low";
    assert Or(o.size, "1024x1024") == "1024x1024";
    DefaultSizeFacts(o.size);
  }

  lemma ChatWordInName(o: ImageUtil.SaveOptions, iso: string)
    requires o.prompt == Some("chat")
    ensures Contains(ImageUtil.SaveFilename(o, iso), "chat")
  {
    ChatWordFragment();
    var name := ImageUtil.SaveFilename(o, iso);
    var head := Or(o.model, "gpt-image-1") + "_" + FileUtil.SizePart(Some(Or(o.size, "1024x1024")))
                + "_" + Or(o.quality, "low") + "_" + FileUtil.Stamp(iso);
    assert name == head + ("_" + "chat") + "." + "png";
    ContainsField(head, "chat", ".", "png");
  }

  lemma ContainsField(head: string, field: string, dot: string, ext: string)
    ensures Contains(head + ("_" + field) + dot + ext, field)
  {
    var s := head + ("_" + field) + dot + ext;
    var i := |head| + 1;
    assert s[i..i + |field|] == field;
    ContainsAt(s, field, i);
  }

  lemma ChatWordFragment()
    ensures ImageUtil.PromptFragment("chat") == "chat"
  {
    var s := "chat";
    assert forall k :: 0 <= k < |s| ==> s[k] as int <= 0xFFFF;
    Utf16Bmp(s);
    var f := ImageUtil.PromptFragment(s);
    forall k | 0 <= k < 4 ensures f[k] == s[k] {
      assert ImageUtil.IsAsciiAlnumUnit(Utf16(s)[k]);
    }
  }

  lemma ChatNameKind(userMessage: string, iso: string, model: Option<string>, size: Option<string>,
                     quality: Option<string>, fragment: Option<string>)
    requires model == Some(Chat.AiModel) && size == Some("1024x1024") && quality == Some("low")
    requires fragment == Some(ImageUtil.PromptFragment(userMessage))
    requires 'c' !in userMessage && 'c' !in iso
    ensures Gallery.ParsedMetadata(FileUtil.EnhancedFilename("png", model, size, quality, fragment, iso)).kind
            == Gallery.Direct
  {
    var ext := "png";
    assert ext != "" && '.' !in ext && '/' !in ext && 'c' !in ext;
    ChatNameFields(userMessage, model, size, quality);
    EnhancedWithoutC(ext, model, size, quality, fragment, iso);
  }

  /** The fields of a chat image's name with the default size and quality hold no 'c', and
      the width is not "gpt-image-1". */
  lemma ChatNameFields(userMessage: string, model: Option<string>, size: Option<string>, quality: Option<string>)
    requires model == Some(Chat.AiModel) && size == Some("1024x1024") && quality == Some("low")
    requires 'c' !in userMessage
    ensures WritableSize(size) && Width(size) != "gpt-image-1"
    ensures '_' !in FileUtil.ModelPart(model) && '_' !in FileUtil.QualityPart(quality)
    ensures 'c' !in FileUtil.ModelPart(model) && 'c' !in FileUtil.SizePart(size) && 'c' !in FileUtil.QualityPart(quality)
    ensures 'c' !in FileUtil.PromptPart(Some(ImageUtil.PromptFragment(userMessage)))
  {
    FragmentWithoutC(userMessage);
    DefaultSizeFacts(size);
    WidthNotModel(size);
    ChatDefaultParts(model, quality);
  }

  /** The name the chat service saves an image under, with the default size and quality. */
  lemma ChatSavedName(options: Chat.ChatOptions, userMessage: string, iso: string,
                      model: Option<string>, size: Option<string>, quality: Option<string>)
    requires options.size == None && options.quality == None && userMessage != ""
    requires model == Some(Chat.AiModel) && size == Some("1024x1024") && quality == Some("low")
    ensures ImageUtil.SaveFilename(Chat.SaveOptionsFor(options, userMessage), iso)
            == FileUtil.EnhancedFilename("png", model, size, quality, Some(ImageUtil.PromptFragment(userMessage)), iso)
  {
  }

  lemma FragmentWithoutC(prompt: string)
    requires 'c' !in prompt
    ensures 'c' !in ImageUtil.PromptFragment(prompt)
  {
    var frag := ImageUtil.PromptFragment(prompt);
    Utf16Below(prompt, 'c');
    forall k | 0 <= k < |frag| ensures frag[k] != 'c' {
      var u := Utf16(prompt)[k];
      assert u in Utf16(prompt) && frag[k] == ImageUtil.SanitizeUnit(u);
    }
  }

  /** `saveBase64Image` without options names the payload after gpt-image-1, a 1024x1024
      square, low quality and the words "chat_image". */
  lemma SavedNameDefaults(options: ImageUtil.SaveOptions, iso: string)
    requires options == ImageUtil.SaveOptions(None, None, None, None)
    ensures ImageUtil.SaveFilename(options, iso)
         == "gpt-image-1" + "_" + "1024_1024" + "_" + "low" + "_" + FileUtil.Stamp(iso) + ("_" + "chat_image") + "." + "png"
  {
    DefaultSizePart();
  }

  lemma DefaultSizePart()
    ensures FileUtil.SizePart(Some("1024x1024")) == "1024_1024"
  {
    var size := Some("1024x1024");
    DefaultSizeFacts(size);
    SizePartHalves(size);
  }

  /** What the gallery reads back from a name `saveBase64Image` writes: the width as the
      model, the height as the size, the (defaulted) quality, and as the prompt the stamp and
      the never-empty fragment, with dashes turned into spaces. */
  lemma ParseOfSaved(options: ImageUtil.SaveOptions, iso: string)
    requires '_' !in Or(options.model, "gpt-image-1") && '_' !in Or(options.quality, "low")
    requires WritableSize(Some(Or(options.size, "1024x1024")))
    ensures var size := Some(Or(options.size, "1024x1024"));
      var fragment := if Truthy(options.prompt) then ImageUtil.PromptFragment(options.prompt.value) else "chat_image";
      var name := ImageUtil.SaveFilename(options, iso);
      Gallery.ParsedMetadata(name)
        == Gallery.Metadata(Some(Width(size)), Some(Height(size)), Some(Or(options.quality, "low")),
                            Some(ReplaceEach(FileUtil.Stamp(iso) + "_" + fragment, {'-'}, ' ')),
                            Gallery.EnhancedType(name, Width(size)))
  {
    var model, size, quality := Some(Or(options.model, "gpt-image-1")), Some(Or(options.size, "1024x1024")),
                                Some(Or(options.quality, "low"));
    var fragment := if Truthy(options.prompt) then ImageUtil.PromptFragment(options.prompt.value) else "chat_image";
    var ext := "png";
    var name := FileUtil.EnhancedFilename(ext, model, size, quality, Some(fragment), iso);
    assert ImageUtil.SaveFilename(options, iso) == name && fragment != "" by {
      SavedIsEnhanced(options, iso);
    }
    assert Gallery.ParsedMetadata(name)
        == Gallery.Metadata(Some(Width(size)), Some(Height(size)), Some(Or(options.quality, "low")),
                            Some(ReplaceEach(FileUtil.Stamp(iso) + "_" + fragment, {'-'}, ' ')),
                            Gallery.EnhancedType(name, Width(size))) by {
      assert FileUtil.Stamp(iso) + FileUtil.PromptPart(Some(fragment)) == FileUtil.Stamp(iso) + "_" + fragment;
      assert ext != "" && '.' !in ext && '/' !in ext;
      ParseOfEnhanced(ext, model, size, quality, Some(fragment), iso);
    }
  }

  /** A saved name is the enhanced name of the defaulted fields and a never-empty fragment. */
  lemma SavedIsEnhanced(options: ImageUtil.SaveOptions, iso: string)
    ensures var fragment := if Truthy(options.prompt) then ImageUtil.PromptFragment(options.prompt.value) else "chat_image";
      && fragment != ""
      && ImageUtil.SaveFilename(options, iso)
         == FileUtil.EnhancedFilename("png", Some(Or(options.model, "gpt-image-1")), Some(Or(options.size, "1024x1024")),
                                      Some(Or(options.quality, "low")), Some(fragment), iso)
  {
    var fragment := if Truthy(options.prompt) then ImageUtil.PromptFragment(options.prompt.value) else "chat_image";
    assert fragment != "" by {
      if Truthy(options.prompt) { assert |Utf16(options.prompt.value)| >= 1; }
    }
  }

  /** What the gallery reads back from a name `generateAndSaveImage` writes: the fields of
      the effective options (the width as the model) and the fragment of the user's prompt,
      whatever the system prompt was. */
  lemma ParseOfGenerated(prompt: string, options: OpenAIService.GenerateOptions, iso: string)
    requires '_' !in OpenAIService.EffectiveModel(options) && '_' !in OpenAIService.EffectiveQuality(options)
    requires WritableSize(Some(OpenAIService.EffectiveSize(options)))
    ensures var size := Some(OpenAIService.EffectiveSize(options));
      var name := OpenAIService.GeneratedFilename(prompt, options, iso);
      Gallery.ParsedMetadata(name)
        == Gallery.Metadata(Some(Width(size)), Some(Height(size)), Some(OpenAIService.EffectiveQuality(options)),
                            Some(ReplaceEach(FileUtil.Stamp(iso) + FileUtil.PromptPart(Some(ImageUtil.PromptFragment(prompt))),
                                             {'-'}, ' ')),
                            Gallery.EnhancedType(name, Width(size)))
  {
    var model, size, quality := Some(OpenAIService.EffectiveModel(options)), Some(OpenAIService.EffectiveSize(options)),
                                Some(OpenAIService.EffectiveQuality(options));
    var fragment := Some(ImageUtil.PromptFragment(prompt));
    assert OpenAIService.GeneratedFilename(prompt, options, iso) == FileUtil.EnhancedFilename("png", model, size, quality, fragment, iso);
    ParseOfEnhanced("png", model, size, quality, fragment, iso);
  }

  /** What the defaults of an image saved from a chat give the model and quality fields. */
  lemma ChatDefaultParts(model: Option<string>, quality: Option<string>)
    requires model == Some(Chat.AiModel) && quality == Some("low")
    ensures '_' !in FileUtil.ModelPart(model) && '_' !in FileUtil.QualityPart(quality)
    ensures 'c' !in FileUtil.ModelPart(model) && 'c' !in FileUtil.QualityPart(quality)
  {
  }

  lemma WidthNotModel(size: Option<string>)
    requires Width(size) == "1024"
    ensures Width(size) != "gpt-image-1"
  {
  }
}
