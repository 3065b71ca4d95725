/** The gallery service (src/services/galleryService.ts): reading metadata back out of a
    file name, cataloguing an abstract directory listing, and folding the catalogue into
    statistics. */
module Gallery {
  import opened Wrappers
  import opened Text
  import FileUtil

  // ---------------------------------------------------------------------------
  // Data model

  datatype ImageType = Direct | Chat | Unknown

  /** What a file name reveals about an image; the four text fields may be absent. */
  datatype Metadata = Metadata(model: Option<string>, size: Option<string>, quality: Option<string>,
                               prompt: Option<string>, kind: ImageType)

  /** The part of `fs.statSync` the catalogue uses; times are milliseconds since the epoch. */
  datatype FileStat = FileStat(size: nat, birthtime: int, mtime: int)

  /** One name from `readdirSync`, with the outcome of `statSync` on it (`None` when it throws). */
  datatype DirEntry = DirEntry(name: string, stat: Option<FileStat>)

  /** The images directory: absent (and then created, possibly failing), unreadable, or listed. */
  datatype Listing = Missing(createError: Option<Thrown>) | Unreadable(error: Thrown) | Present(entries: seq<DirEntry>)

  datatype GalleryImage = GalleryImage(filename: string, filepath: string, url: string, size: nat,
                                       createdAt: int, modifiedAt: int, metadata: Metadata)

  function TypeName(t: ImageType): string {
    match t
    case Direct => "direct"
    case Chat => "chat"
    case Unknown => "unknown"
  }

  // ---------------------------------------------------------------------------
  // The extension filter

  function LowerAscii(c: char): char {
    if 'A' <= c <= 'Z' then (c as int + 32) as char else c
  }

  function Lower(s: string): (r: string)
    ensures |r| == |s|
    ensures forall k :: 0 <= k < |s| ==> r[k] == LowerAscii(s[k])
  {
    seq(|s|, k requires 0 <= k < |s| => LowerAscii(s[k]))
  }

  /** The name ends, ignoring case, in one of the five image extensions. */
  predicate IsImageFile(name: string) {
    var l := Lower(name);
    EndsWith(l, ".jpg") || EndsWith(l, ".jpeg") || EndsWith(l, ".png") || EndsWith(l, ".gif") || EndsWith(l, ".webp")
  }

  // ---------------------------------------------------------------------------
  // Stripping the extension: `replace(/\.[^/.]+$/, '')`

  /** The number of trailing characters that are neither '.' nor '/'. */
  function FreeSuffixLen(s: string): (n: nat)
    ensures n <= |s|
    ensures forall k :: |s| - n <= k < |s| ==> s[k] != '.' && s[k] != '/'
    ensures n < |s| ==> s[|s| - n - 1] == '.' || s[|s| - n - 1] == '/'
    decreases |s|
  {
    if |s| == 0 || s[|s| - 1] == '.' || s[|s| - 1] == '/' then 0
    else FreeSuffixLen(s[..|s| - 1]) + 1
  }

  /** A position where the pattern `\.[^/.]+$` matches. */
  predicate ExtensionAt(s: string, i: int) {
    0 <= i < |s| - 1 && s[i] == '.' && forall k :: i < k < |s| ==> s[k] != '.' && s[k] != '/'
  }

  /** The name without its final extension: the pattern matches at most once, and when it
      matches the result is everything before the match; otherwise the name is unchanged. */
  function StripExtension(s: string): (r: string)
    ensures |r| <= |s| && r == s[..|r|]
    ensures r != s ==> ExtensionAt(s, |r|)
    ensures r == s ==> forall i :: 0 <= i < |s| ==> !ExtensionAt(s, i)
  {
    var n := FreeSuffixLen(s);
    if 0 < n < |s| && s[|s| - n - 1] == '.' then
      s[..|s| - n - 1]
    else
      s
  }

  // ---------------------------------------------------------------------------
  // Parsing the metadata

  predicate IsDigit(c: char) { '0' <= c <= '9' }

  /** `^\d+x\d+$`: digits, one 'x', digits. */
  predicate IsDimensions(p: string) {
    var i := IndexOf(p, 'x');
    0 < i < |p| - 1
    && (forall k :: 0 <= k < i ==> IsDigit(p[k]))
    && (forall k :: i < k < |p| ==> IsDigit(p[k]))
  }

  predicate IsQualityName(p: string) {
    p in ["standard", "hd", "auto", "low", "medium", "high"]
  }

  /** Which field a legacy segment fills; the tests are tried in this order. */
  datatype Slot = ModelSlot | SizeSlot | QualitySlot | NoSlot

  function SlotOf(p: string): Slot {
    if Contains(p, "dall-e") || Contains(p, "gpt-image") then ModelSlot
    else if IsDimensions(p) then SizeSlot
    else if IsQualityName(p) then QualitySlot
    else NoSlot
  }

  /** The last segment that fills `slot`, if any. */
  function LastOf(parts: seq<string>, slot: Slot): (r: Option<string>)
    ensures r.None? ==> forall k :: 0 <= k < |parts| ==> SlotOf(parts[k]) != slot
    ensures r.Some? ==> exists k :: 0 <= k < |parts| && parts[k] == r.value && SlotOf(parts[k]) == slot
                                    && forall j :: k < j < |parts| ==> SlotOf(parts[j]) != slot
    decreases |parts|
  {
    if |parts| == 0 then None
    else if SlotOf(parts[|parts| - 1]) == slot then Some(parts[|parts| - 1])
    else
      var r := LastOf(parts[..|parts| - 1], slot);
      assert forall k :: 0 <= k < |parts| - 1 ==> parts[..|parts| - 1][k] == parts[k];
      r
  }

  /** The type guessed for a legacy name. */
  function LegacyType(filename: string): ImageType {
    if Contains(filename, "chat") then Chat
    else if Contains(filename, "direct") || Contains(filename, "dall-e") then Direct
    else Unknown
  }

  /** The type given to an enhanced name. */
  function EnhancedType(filename: string, model: string): ImageType {
    if Contains(filename, "chat") || model == "gpt-image-1" then Chat else Direct
  }

  /** The segments `parseFilenameMetadata` works on. */
  function Segments(filename: string): (parts: seq<string>)
    ensures |parts| >= 1
  {
    Split(StripExtension(filename), '_')
  }

  /** The metadata read from a name, by its number of '_'-segments:
      five or more — the enhanced layout, read by position;
      two to four — the legacy layout, read by recognising segments;
      fewer — nothing but the unknown type. */
  function ParsedMetadata(filename: string): (m: Metadata)
  {
    var parts := Segments(filename);
    if |parts| >= 5 then
      Metadata(Some(parts[1]), Some(parts[2]), Some(parts[3]),
               Some(ReplaceEach(Join(parts[4..], "_"), {'-'}, ' ')), EnhancedType(filename, parts[1]))
    else if |parts| >= 2 then
      Metadata(LastOf(parts, ModelSlot), LastOf(parts, SizeSlot), LastOf(parts, QualitySlot), None,
               LegacyType(filename))
    else
      Metadata(None, None, None, None, Unknown)
  }

  /** `parseFilenameMetadata`: starts from the unknown type and overwrites fields, scanning the
      segments one by one for a legacy name. */
  method ParseFilenameMetadata(filename: string) returns (m: Metadata)
    ensures m == ParsedMetadata(filename)
  {
    m := Metadata(None, None, None, None, Unknown);
    var parts := Segments(filename);
    if |parts| >= 5 {
      m := m.(model := Some(parts[1]), size := Some(parts[2]), quality := Some(parts[3]));
      m := m.(prompt := Some(ReplaceEach(Join(parts[4..], "_"), {'-'}, ' ')));
      if Contains(filename, "chat") || m.model == Some("gpt-image-1") {
        m := m.(kind := Chat);
      } else {
        m := m.(kind := Direct);
      }
    } else if |parts| >= 2 {
      if Contains(filename, "chat") {
        m := m.(kind := Chat);
      } else if Contains(filename, "direct") || Contains(filename, "dall-e") {
        m := m.(kind := Direct);
      }
      m := ReadLegacySegments(parts, m);
    }
  }

  /** The `forEach` over the segments of a legacy name: each recognised segment overwrites its
      field, so each field ends up holding the last segment recognised for it. */
  method ReadLegacySegments(parts: seq<string>, m0: Metadata) returns (m: Metadata)
    requires m0.model.None? && m0.size.None? && m0.quality.None?
    ensures m == m0.(model := LastOf(parts, ModelSlot), size := LastOf(parts, SizeSlot),
                     quality := LastOf(parts, QualitySlot))
  {
    m := m0;
    var i := 0;
    while i < |parts|
      invariant 0 <= i <= |parts|
      invariant m == m0.(model := LastOf(parts[..i], ModelSlot), size := LastOf(parts[..i], SizeSlot),
                         quality := LastOf(parts[..i], QualitySlot))
    {
      var part := parts[i];
      LastOfStep(parts, i, ModelSlot);
      LastOfStep(parts, i, SizeSlot);
      LastOfStep(parts, i, QualitySlot);
      if Contains(part, "dall-e") || Contains(part, "gpt-image") {
        m := m.(model := Some(part));
      } else if IsDimensions(part) {
        m := m.(size := Some(part));
      } else if IsQualityName(part) {
        m := m.(quality := Some(part));
      }
      i := i + 1;
    }
    assert parts[..i] == parts;
  }

  /** The last segment for a slot, after one more segment. */
  lemma LastOfStep(parts: seq<string>, i: int, slot: Slot)
    requires 0 <= i < |parts|
    ensures LastOf(parts[..i + 1], slot) == if SlotOf(parts[i]) == slot then Some(parts[i]) else LastOf(parts[..i], slot)
  {
    assert parts[..i + 1][..i] == parts[..i];
    assert parts[..i + 1][i] == parts[i];
  }

  /** A name of fewer than two segments yields exactly the unknown type. */
  lemma ShortNameUnknown(filename: string)
    requires '_' !in StripExtension(filename)
    ensures ParsedMetadata(filename) == Metadata(None, None, None, None, Unknown)
  {
    SplitWithout(StripExtension(filename), '_');
  }

  /** For a legacy name each field is the last segment recognised for it. */
  lemma LegacyLastWins(filename: string, k: nat)
    requires 2 <= |Segments(filename)| < 5
    requires k < |Segments(filename)| && SlotOf(Segments(filename)[k]) == SizeSlot
    requires forall j :: k < j < |Segments(filename)| ==> SlotOf(Segments(filename)[j]) != SizeSlot
    ensures ParsedMetadata(filename).size == Some(Segments(filename)[k])
  {
    var parts := Segments(filename);
    var r := LastOf(parts, SizeSlot);
    var w :| 0 <= w < |parts| && parts[w] == r.value && SlotOf(parts[w]) == SizeSlot
             && forall j :: w < j < |parts| ==> SlotOf(parts[j]) != SizeSlot;
    assert w == k;
  }

  // ---------------------------------------------------------------------------
  // The catalogue

  /** The record built for a listed image file whose stat succeeded. */
  function ImageOf(imagesDir: string, name: string, st: FileStat): (img: GalleryImage)
    ensures img.filename == name && img.url == "/images/" + name
    ensures img.filepath == FileUtil.JoinPath(imagesDir, name)
    ensures img.size == st.size && img.createdAt == st.birthtime && img.modifiedAt == st.mtime
    ensures img.metadata == ParsedMetadata(name)
  {
    GalleryImage(name, FileUtil.JoinPath(imagesDir, name), "/images/" + name, st.size, st.birthtime, st.mtime,
                 ParsedMetadata(name))
  }

  /** The image a listed entry contributes: one for an image name whose stat succeeded, none
      for any other name and none when the stat throws. */
  function EntryImage(imagesDir: string, e: DirEntry): (r: Option<GalleryImage>)
    ensures r.Some? <==> IsImageFile(e.name) && e.stat.Some?
    ensures r.Some? ==> r.value == ImageOf(imagesDir, e.name, e.stat.value)
  {
    if IsImageFile(e.name) then
      match e.stat
      case None => None
      case Some(st) => Some(ImageOf(imagesDir, e.name, st))
    else None
  }

  /** The values `f` yields on `xs`, in order, skipping the items it yields nothing for. */
  function Collect<E, I>(xs: seq<E>, f: E -> Option<I>): (ys: seq<I>)
    ensures |ys| <= |xs|
    decreases |xs|
  {
    if |xs| == 0 then []
    else
      var rest := Collect(xs[..|xs| - 1], f);
      match f(xs[|xs| - 1])
      case None => rest
      case Some(y) => rest + [y]
  }

  /** Collecting over one more item. */
  lemma CollectStep<E, I>(xs: seq<E>, f: E -> Option<I>, i: int)
    requires 0 <= i < |xs|
    ensures Collect(xs[..i + 1], f) == match f(xs[i]) case None => Collect(xs[..i], f) case Some(y) => Collect(xs[..i], f) + [y]
  {
    assert xs[..i + 1][..i] == xs[..i];
    assert xs[..i + 1][i] == xs[i];
  }

  /** Every value `f` yields on an item is collected. */
  lemma {:induction false} CollectComplete<E, I>(xs: seq<E>, f: E -> Option<I>, i: int)
    requires 0 <= i < |xs| && f(xs[i]).Some?
    ensures f(xs[i]).value in Collect(xs, f)
    decreases |xs|
  {
    var front, c := xs[..|xs| - 1], Collect(xs, f);
    var cf := Collect(front, f);
    if i < |front| {
      assert front[i] == xs[i];
      CollectComplete(front, f, i);
      var k :| 0 <= k < |cf| && cf[k] == f(xs[i]).value;
      assert c == cf || c == cf + [f(xs[|xs| - 1]).value];
      assert c[k] == cf[k];
    } else {
      assert c == cf + [f(xs[i]).value];
      assert c[|cf|] == f(xs[i]).value;
    }
  }

  /** Every collected value is the one `f` yields on some item. */
  lemma {:induction false} CollectSound<E, I>(xs: seq<E>, f: E -> Option<I>, y: I)
    requires y in Collect(xs, f)
    ensures exists j :: 0 <= j < |xs| && f(xs[j]) == Some(y)
    decreases |xs|
  {
    var front := xs[..|xs| - 1];
    var cf := Collect(front, f);
    if y in cf {
      CollectSound(front, f, y);
      var j :| 0 <= j < |front| && f(front[j]) == Some(y);
      assert front[j] == xs[j];
    } else {
      assert f(xs[|xs| - 1]) == Some(y);
    }
  }

  /** Collecting preserves the order of the items: values from earlier items come first. */
  lemma {:induction false} CollectAppend<E, I>(xs: seq<E>, zs: seq<E>, f: E -> Option<I>)
    ensures Collect(xs + zs, f) == Collect(xs, f) + Collect(zs, f)
    decreases |zs|
  {
    if |zs| == 0 {
      assert xs + zs == xs;
    } else {
      var front := zs[..|zs| - 1];
      CollectAppend(xs, front, f);
      assert (xs + zs)[..|xs + zs| - 1] == xs + front;
      assert (xs + zs)[|xs + zs| - 1] == zs[|zs| - 1];
    }
  }

  /** The images of a listing in listing order, before sorting. */
  function Catalogue(imagesDir: string, entries: seq<DirEntry>): (images: seq<GalleryImage>)
    ensures |images| <= |entries|
  {
    Collect(entries, e => EntryImage(imagesDir, e))
  }

  /** Every image file whose stat succeeded has its image in the catalogue. */
  lemma CatalogueComplete(imagesDir: string, entries: seq<DirEntry>, i: int)
    requires 0 <= i < |entries| && IsImageFile(entries[i].name) && entries[i].stat.Some?
    ensures ImageOf(imagesDir, entries[i].name, entries[i].stat.value) in Catalogue(imagesDir, entries)
  {
    CollectComplete(entries, e => EntryImage(imagesDir, e), i);
  }

  /** Every image of the catalogue comes from an image file whose stat succeeded. */
  lemma CatalogueSound(imagesDir: string, entries: seq<DirEntry>, x: GalleryImage)
    requires x in Catalogue(imagesDir, entries)
    ensures exists j :: 0 <= j < |entries| && IsImageFile(entries[j].name) && entries[j].stat.Some?
                        && x == ImageOf(imagesDir, entries[j].name, entries[j].stat.value)
  {
    CollectSound(entries, e => EntryImage(imagesDir, e), x);
    var j :| 0 <= j < |entries| && EntryImage(imagesDir, entries[j]) == Some(x);
  }

  /** Non-increasing creation time. */
  predicate NewestFirst(images: seq<GalleryImage>) {
    forall i, j :: 0 <= i < j < |images| ==> images[i].createdAt >= images[j].createdAt
  }

  function InsertByDate(x: GalleryImage, s: seq<GalleryImage>): (r: seq<GalleryImage>)
    requires NewestFirst(s)
    ensures NewestFirst(r)
    ensures multiset(r) == multiset(s) + multiset{x}
    ensures |r| > 0 && (r[0] == x || (|s| > 0 && r[0] == s[0]))
    decreases |s|
  {
    if |s| == 0 || x.createdAt >= s[0].createdAt then [x] + s
    else
      var t := InsertByDate(x, s[1..]);
      assert s == [s[0]] + s[1..];
      [s[0]] + t
  }

  /** `images.sort((a, b) => b.createdAt - a.createdAt)`: newest first, a permutation. */
  function SortNewestFirst(s: seq<GalleryImage>): (r: seq<GalleryImage>)
    ensures NewestFirst(r)
    ensures multiset(r) == multiset(s)
    decreases |s|
  {
    if |s| == 0 then []
    else
      assert s == [s[0]] + s[1..];
      InsertByDate(s[0], SortNewestFirst(s[1..]))
  }

  const ScanErrorPrefix := "Failed to scan images directory: "

  /** `getAllImages` over an abstract listing. */
  method GetAllImages(imagesDir: string, listing: Listing) returns (r: Result<seq<GalleryImage>>)
    ensures listing.Missing? && listing.createError.None? ==> r == Ok([])
    ensures listing.Missing? && listing.createError.Some? ==> r == Err(ScanErrorPrefix + MessageOf(listing.createError.value))
    ensures listing.Unreadable? ==> r == Err(ScanErrorPrefix + MessageOf(listing.error))
    ensures listing.Present? ==> r.Ok?
    ensures r.Ok? && listing.Present? ==>
      NewestFirst(r.value) && multiset(r.value) == multiset(Catalogue(imagesDir, listing.entries))
  {
    match listing
    case Missing(e) =>
      if e.Some? { r := Err(ScanErrorPrefix + MessageOf(e.value)); } else { r := Ok([]); }
    case Unreadable(e) =>
      r := Err(ScanErrorPrefix + MessageOf(e));
    case Present(files) =>
      var images := ScanEntries(imagesDir, files);
      r := Ok(SortNewestFirst(images));
  }

  /** The loop of `getAllImages`: one image per listed image file whose stat succeeds, in
      listing order; files whose stat throws are skipped. */
  method ScanEntries(imagesDir: string, files: seq<DirEntry>) returns (images: seq<GalleryImage>)
    ensures images == Catalogue(imagesDir, files)
  {
    images := [];
    var i := 0;
    while i < |files|
      invariant 0 <= i <= |files|
      invariant images == Catalogue(imagesDir, files[..i])
    {
      var f := files[i];
      CollectStep(files, e => EntryImage(imagesDir, e), i);
      if IsImageFile(f.name) {
        match f.stat
        case None =>
        case Some(st) =>
          images := images + [ImageOf(imagesDir, f.name, st)];
      }
      i := i + 1;
    }
    assert files[..i] == files;
  }

  // ---------------------------------------------------------------------------
  // Statistics

  /** The four metadata fields the statistics count by. */
  datatype Field = ModelField | TypeField | SizeField | QualityField

  function FieldOf(img: GalleryImage, f: Field): Option<string> {
    match f
    case ModelField => img.metadata.model
    case TypeField => Some(TypeName(img.metadata.kind))
    case SizeField => img.metadata.size
    case QualityField => img.metadata.quality
  }

  /** The sum of a per-item weight over a list. */
  function SumOf<T>(items: seq<T>, w: T -> nat): nat
    decreases |items|
  {
    if |items| == 0 then 0 else SumOf(items[..|items| - 1], w) + w(items[|items| - 1])
  }

  lemma {:induction false} SumOfAppend<T>(a: seq<T>, b: seq<T>, w: T -> nat)
    ensures SumOf(a + b, w) == SumOf(a, w) + SumOf(b, w)
    decreases |b|
  {
    if |b| > 0 {
      SumOfAppend(a, b[..|b| - 1], w);
      assert (a + b)[..|a + b| - 1] == a + b[..|b| - 1];
    } else {
      assert a + b == a;
    }
  }

  /** Taking out the occurrence at `j` of the last item of `a` keeps `b` a permutation of the
      rest of `a`. */
  lemma RemoveMatching<T>(a: seq<T>, b: seq<T>, j: int)
    requires multiset(a) == multiset(b) && |a| > 0 && 0 <= j < |b| && b[j] == a[|a| - 1]
    ensures multiset(a[..|a| - 1]) == multiset(b[..j] + b[j + 1..])
  {
    var x, front, rest := a[|a| - 1], a[..|a| - 1], b[..j] + b[j + 1..];
    assert a == front + [x];
    assert b == b[..j] + [x] + b[j + 1..];
    assert multiset(b) == multiset(b[..j]) + multiset{x} + multiset(b[j + 1..]);
    assert multiset(rest) == multiset(b[..j]) + multiset(b[j + 1..]);
    assert multiset(front) + multiset{x} == multiset(rest) + multiset{x};
    forall z ensures multiset(front)[z] == multiset(rest)[z] {
      assert (multiset(front) + multiset{x})[z] == (multiset(rest) + multiset{x})[z];
    }
  }

  /** A sum over a list does not depend on the order of the list. */
  lemma {:induction false} SumOfPermutation<T>(a: seq<T>, b: seq<T>, w: T -> nat)
    requires multiset(a) == multiset(b)
    ensures SumOf(a, w) == SumOf(b, w)
    decreases |a|
  {
    if |a| > 0 {
      var x := a[|a| - 1];
      assert x in multiset(b) by { assert x in multiset(a); }
      var j :| 0 <= j < |b| && b[j] == x;
      RemoveMatching(a, b, j);
      SumOfPermutation(a[..|a| - 1], b[..j] + b[j + 1..], w);
      assert b == b[..j] + [x] + b[j + 1..];
      SumOfAppend(b[..j] + [x], b[j + 1..], w);
      SumOfAppend(b[..j], [x], w);
      SumOfAppend(b[..j], b[j + 1..], w);
      assert SumOf([x], w) == w(x) by { assert [x][..0] == []; }
    } else {
      assert |b| == |multiset(b)| == 0;
    }
  }

  function Indicator(img: GalleryImage, f: Field, key: string): nat {
    if FieldOf(img, f) == Some(key) then 1 else 0
  }

  /** How many images have `key` in field `f`. */
  function Count(images: seq<GalleryImage>, f: Field, key: string): nat {
    SumOf(images, img => Indicator(img, f, key))
  }

  /** `m` counts the images by field `f`: its keys are exactly the non-empty values that occur. */
  ghost predicate Tallied(m: map<string, nat>, images: seq<GalleryImage>, f: Field) {
    (forall k :: k in m ==> k != "" && m[k] == Count(images, f, k) && m[k] > 0)
    && (forall k :: k != "" && Count(images, f, k) > 0 ==> k in m)
  }

  /** `m[key] = (m[key] || 0) + 1` when the key is truthy. */
  function Bump(m: map<string, nat>, key: Option<string>): map<string, nat> {
    if Truthy(key) then m[key.value := (if key.value in m then m[key.value] else 0) + 1] else m
  }

  lemma BumpTallied(m: map<string, nat>, images: seq<GalleryImage>, img: GalleryImage, f: Field)
    requires Tallied(m, images, f)
    ensures Tallied(Bump(m, FieldOf(img, f)), images + [img], f)
  {
    var s := images + [img];
    assert s[..|s| - 1] == images;
  }

  /** The four counters `getGalleryStats` keeps. */
  datatype Tallies = Tallies(byModel: map<string, nat>, byType: map<string, nat>,
                             bySize: map<string, nat>, byQuality: map<string, nat>)

  ghost predicate AllTallied(t: Tallies, images: seq<GalleryImage>) {
    Tallied(t.byModel, images, ModelField) && Tallied(t.byType, images, TypeField)
    && Tallied(t.bySize, images, SizeField) && Tallied(t.byQuality, images, QualityField)
  }

  /** One turn of the counting loop. */
  function BumpAll(t: Tallies, img: GalleryImage): Tallies {
    Tallies(Bump(t.byModel, img.metadata.model), Bump(t.byType, Some(TypeName(img.metadata.kind))),
            Bump(t.bySize, img.metadata.size), Bump(t.byQuality, img.metadata.quality))
  }

  lemma BumpAllTallied(t: Tallies, images: seq<GalleryImage>, img: GalleryImage)
    requires AllTallied(t, images)
    ensures AllTallied(BumpAll(t, img), images + [img])
  {
    BumpTallied(t.byModel, images, img, ModelField);
    BumpTallied(t.byType, images, img, TypeField);
    BumpTallied(t.bySize, images, img, SizeField);
    BumpTallied(t.byQuality, images, img, QualityField);
  }

  function SizeOf(img: GalleryImage): nat { img.size }

  function SumSizes(images: seq<GalleryImage>): nat {
    SumOf(images, SizeOf)
  }

  /** The counters do not depend on the order of the images. */
  lemma TalliedPermutation(t: Tallies, a: seq<GalleryImage>, b: seq<GalleryImage>)
    requires multiset(a) == multiset(b) && AllTallied(t, a)
    ensures AllTallied(t, b)
  {
    forall f: Field, k: string ensures Count(a, f, k) == Count(b, f, k) {
      SumOfPermutation(a, b, img => Indicator(img, f, k));
    }
  }

  datatype GalleryStats = GalleryStats(totalImages: nat, totalSize: nat,
                                       byModel: map<string, nat>, byType: map<string, nat>,
                                       bySize: map<string, nat>, byQuality: map<string, nat>,
                                       oldestImage: Option<int>, newestImage: Option<int>)

  /** Every image has exactly one type, so the three type counts add up to the number of images. */
  lemma {:induction false} TypeCountsSum(images: seq<GalleryImage>)
    ensures Count(images, TypeField, "direct") + Count(images, TypeField, "chat") + Count(images, TypeField, "unknown") == |images|
    ensures forall k :: k !in ["direct", "chat", "unknown"] ==> Count(images, TypeField, k) == 0
    decreases |images|
  {
    if |images| > 0 {
      TypeCountsSum(images[..|images| - 1]);
    }
  }

  function CountOr0(m: map<string, nat>, k: string): nat {
    if k in m then m[k] else 0
  }

  /** The `byType` counters cover every image once: they have only the three type names as keys
      and their values add up to the number of images. */
  lemma ByTypeSum(t: Tallies, images: seq<GalleryImage>)
    requires AllTallied(t, images)
    ensures forall k :: k in t.byType ==> k in ["direct", "chat", "unknown"]
    ensures CountOr0(t.byType, "direct") + CountOr0(t.byType, "chat") + CountOr0(t.byType, "unknown") == |images|
  {
    TypeCountsSum(images);
  }

  /** The statistics of a catalogue, counting in one pass over it. */
  method ComputeStats(images: seq<GalleryImage>) returns (stats: GalleryStats)
    ensures stats.totalImages == |images| && stats.totalSize == SumSizes(images)
    ensures AllTallied(Tallies(stats.byModel, stats.byType, stats.bySize, stats.byQuality), images)
    ensures stats.oldestImage.Some? <==> |images| > 0
    ensures stats.newestImage.Some? <==> |images| > 0
    ensures |images| > 0 ==>
      stats.oldestImage.value == images[|images| - 1].createdAt && stats.newestImage.value == images[0].createdAt
  {
    var oldest: Option<int> := None;
    var newest: Option<int> := None;
    if |images| > 0 {
      oldest := Some(images[|images| - 1].createdAt);
      newest := Some(images[0].createdAt);
    }
    var t := Tallies(map[], map[], map[], map[]);
    var i := 0;
    while i < |images|
      invariant 0 <= i <= |images|
      invariant AllTallied(t, images[..i])
    {
      assert images[..i + 1] == images[..i] + [images[i]];
      BumpAllTallied(t, images[..i], images[i]);
      t := BumpAll(t, images[i]);
      i := i + 1;
    }
    assert images[..i] == images;
    stats := GalleryStats(|images|, SumSizes(images), t.byModel, t.byType, t.bySize, t.byQuality, oldest, newest);
  }

  /** `getGalleryStats`: the statistics of the catalogue returned by `getAllImages`. They are
      stated on the unsorted catalogue, since none depends on the order of the images except
      the two dates, which are the extremes of the creation times. */
  method GetGalleryStats(imagesDir: string, listing: Listing) returns (r: Result<GalleryStats>)
    ensures r.Ok? <==> listing.Present? || (listing.Missing? && listing.createError.None?)
    ensures listing.Unreadable? ==> r == Err(ScanErrorPrefix + MessageOf(listing.error))
    ensures listing.Missing? && listing.createError.Some? ==> r == Err(ScanErrorPrefix + MessageOf(listing.createError.value))
    ensures listing.Missing? && listing.createError.None? ==>
      r == Ok(GalleryStats(0, 0, map[], map[], map[], map[], None, None))
    ensures listing.Present? ==>
      var images := Catalogue(imagesDir, listing.entries);
      var st := r.value;
      && st.totalImages == |images| && st.totalSize == SumSizes(images)
      && AllTallied(Tallies(st.byModel, st.byType, st.bySize, st.byQuality), images)
      && (st.newestImage.Some? <==> |images| > 0) && (st.oldestImage.Some? <==> |images| > 0)
      && (|images| > 0 ==>
            (exists i :: 0 <= i < |images| && images[i].createdAt == st.newestImage.value)
            && (exists i :: 0 <= i < |images| && images[i].createdAt == st.oldestImage.value)
            && forall i :: 0 <= i < |images| ==>
                 st.oldestImage.value <= images[i].createdAt <= st.newestImage.value)
  {
    var all := GetAllImages(imagesDir, listing);
    if all.Err? {
      r := Err(all.error);
      return;
    }
    var sorted := all.value;
    var stats := ComputeStats(sorted);
    r := Ok(stats);
    if listing.Missing? {
      assert stats.byModel == map[] && stats.byType == map[] && stats.bySize == map[] && stats.byQuality == map[];
      return;
    }
    ghost var images := Catalogue(imagesDir, listing.entries);
    SumOfPermutation(sorted, images, SizeOf);
    TalliedPermutation(Tallies(stats.byModel, stats.byType, stats.bySize, stats.byQuality), sorted, images);
    if |images| > 0 {
      assert |sorted| == |images| by { assert |multiset(sorted)| == |multiset(images)|; }
      assert sorted[0] in multiset(images);
      assert sorted[|sorted| - 1] in multiset(images);
      forall i | 0 <= i < |images|
        ensures stats.oldestImage.value <= images[i].createdAt <= stats.newestImage.value
      {
        assert images[i] in multiset(sorted);
        var j :| 0 <= j < |sorted| && sorted[j] == images[i];
        assert sorted[0].createdAt >= sorted[j].createdAt >= sorted[|sorted| - 1].createdAt;
      }
    }
  }
}
