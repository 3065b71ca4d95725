/** The filename generators of the file utility (src/utils/fileUtils.ts). The clock is a
    parameter: `iso` stands for the value of `new Date().toISOString()`. */
module FileUtil {
  import opened Wrappers
  import opened Text

  /** `path.join(dir, name)` for a plain file name: the directory, a separator and the name. */
  function JoinPath(dir: string, name: string): (p: string)
    ensures EndsWith(p, "/" + name)
  {
    var p := dir + "/" + name;
    assert p[|dir|..] == "/" + name;
    p
  }

  /** The timestamp part of a name: the ISO string with every ':' and '.' turned into '-'. */
  function Stamp(iso: string): (ts: string)
    ensures |ts| == |iso|
    ensures ':' !in ts && '.' !in ts
    ensures forall k :: 0 <= k < |iso| && iso[k] !in {':', '.'} ==> ts[k] == iso[k]
  {
    ReplaceEach(iso, {':', '.'}, '-')
  }

  /** `generateTimestampFilename(extension)`. */
  function TimestampFilename(iso: string, extension: string): (name: string)
    ensures |name| == 6 + |iso| + 1 + |extension|
    ensures name[..6] == "image_"
    ensures EndsWith(name, "." + extension)
    ensures name[6..6 + |iso|] == Stamp(iso)
  {
    "image_" + Stamp(iso) + "." + extension
  }

  /** The model field of an enhanced name: `options.model || 'dalle2'`. */
  function ModelPart(model: Option<string>): (m: string)
    ensures Truthy(model) ==> m == model.value
    ensures !Truthy(model) ==> m == "dalle2"
  {
    Or(model, "dalle2")
  }

  /** The size field of an enhanced name: `options.size?.replace('x', '_') || '1024_1024'`.
      Only the first 'x' becomes '_'. */
  function SizePart(size: Option<string>): (s: string)
    ensures !Truthy(size) ==> s == "1024_1024"
    ensures Truthy(size) ==> |s| == |size.value|
    ensures Truthy(size) ==> forall k :: 0 <= k < |s| && k != IndexOf(size.value, 'x') ==> s[k] == size.value[k]
    ensures Truthy(size) && 'x' in size.value ==> s[IndexOf(size.value, 'x')] == '_'
    ensures Truthy(size) && 'x' !in size.value ==> s == size.value
  {
    if Truthy(size) then ReplaceFirst(size.value, 'x', '_') else "1024_1024"
  }

  /** The quality field of an enhanced name: `options.quality || 'auto'`. */
  function QualityPart(quality: Option<string>): (q: string)
    ensures Truthy(quality) ==> q == quality.value
    ensures !Truthy(quality) ==> q == "auto"
  {
    Or(quality, "auto")
  }

  /** The optional prompt suffix: `_` followed by the prompt, or nothing for an absent or empty prompt. */
  function PromptPart(prompt: Option<string>): (p: string)
    ensures Truthy(prompt) ==> p == "_" + prompt.value
    ensures !Truthy(prompt) ==> p == ""
  {
    if Truthy(prompt) then "_" + prompt.value else ""
  }

  /** `generateEnhancedFilename(extension, {model, size, quality, prompt})`. */
  function EnhancedFilename(extension: string, model: Option<string>, size: Option<string>,
                            quality: Option<string>, prompt: Option<string>, iso: string): (name: string)
    ensures EndsWith(name, "." + extension)
    ensures |name| > |ModelPart(model)| && name[..|ModelPart(model)| + 1] == ModelPart(model) + "_"
  {
    var m := ModelPart(model);
    var base := m + "_" + SizePart(size) + "_" + QualityPart(quality) + "_" + Stamp(iso) + PromptPart(prompt);
    var name := base + "." + extension;
    assert name == base + ("." + extension);
    assert name[|base|..] == "." + extension;
    assert base[..|m| + 1] == m + "_";
    name
  }

  /** The size field carries an underscore whenever the size is defaulted or holds an 'x'. */
  lemma SizePartUnderscore(size: Option<string>)
    requires !Truthy(size) || 'x' in size.value
    ensures '_' in SizePart(size)
  {
    if Truthy(size) {
      var i := IndexOf(size.value, 'x');
      assert SizePart(size)[i] == '_';
    } else {
      assert SizePart(size)[4] == '_';
    }
  }

  /** An enhanced name whose size was defaulted or contains an 'x' splits on '_' into at least five pieces,
      whatever the model and quality contain. */
  lemma EnhancedFilenameSegments(extension: string, model: Option<string>, size: Option<string>,
                                 quality: Option<string>, prompt: Option<string>, iso: string)
    requires !Truthy(size) || 'x' in size.value
    ensures |Split(EnhancedFilename(extension, model, size, quality, prompt, iso), '_')| >= 5
  {
    var name := EnhancedFilename(extension, model, size, quality, prompt, iso);
    SizePartUnderscore(size);
    SplitCount(name, '_');
    var m, sz, q, st, pp := ModelPart(model), SizePart(size), QualityPart(quality), Stamp(iso), PromptPart(prompt);
    assert name == m + "_" + sz + "_" + q + "_" + st + pp + "." + extension;
    var u := multiset("_")['_'];
    assert u == 1;
    assert multiset(sz)['_'] >= 1;
    calc {
      multiset(name)['_'];
      multiset(m)['_'] + u + multiset(sz)['_'] + u + multiset(q)['_'] + u + multiset(st)['_'] + multiset(pp)['_']
        + multiset(".")['_'] + multiset(extension)['_'];
    >= 4;
    }
  }
}
