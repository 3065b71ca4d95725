/** The gallery page of the web client (public/gallery.js, class `GalleryManager`): the list
    of images received from the server, the filtered list on display, the three filter selects,
    the grid/list switch, the totals and the image shown in the modal. Rendering, the fetch and
    the clipboard are outside the model; the server's answer is an input of `LoadGallery`. */
module GalleryView {
  import opened Wrappers
  import opened Text
  import Gallery
  import Dom

  type GalleryImage = Gallery.GalleryImage

  datatype View = Grid | List

  /** The values of the three filter selects; "" stands for "All". */
  datatype Filters = Filters(model: string, kind: string, size: string)

  const NoFilters := Filters("", "", "")

  /** What `fetch('/api/gallery/images')` gave: the images, an unsuccessful answer with an
      optional message, or an error thrown by the fetch itself. */
  datatype GalleryReply = Listed(images: seq<GalleryImage>) | Unsuccessful(message: Option<string>)
                        | FetchFailed(reason: string)

  /** What a download link is made of: the image's URL and the name to save it under. */
  datatype DownloadLink = DownloadLink(href: string, download: string)

  // ---------------------------------------------------------------------------
  // Filtering

  /** An image passes the filters when it agrees with every filter that is set. */
  predicate Matches(img: GalleryImage, f: Filters) {
    && (f.model == "" || img.metadata.model == Some(f.model))
    && (f.kind == "" || Gallery.TypeName(img.metadata.kind) == f.kind)
    && (f.size == "" || img.metadata.size == Some(f.size))
  }

  /** `a` is `b` with some elements left out and the rest in their order. */
  predicate Subsequence<T(==)>(a: seq<T>, b: seq<T>)
    decreases |b|
  {
    |a| == 0 || (|b| > 0 && ((a[0] == b[0] && Subsequence(a[1..], b[1..])) || Subsequence(a, b[1..])))
  }

  lemma {:induction false} SubsequenceReflexive<T>(a: seq<T>)
    ensures Subsequence(a, a)
    decreases |a|
  {
    if |a| > 0 {
      SubsequenceReflexive(a[1..]);
    }
  }

  /** `images.filter(...)` with the three filter tests. */
  function FilterImages(images: seq<GalleryImage>, f: Filters): (r: seq<GalleryImage>)
    ensures |r| <= |images|
    ensures forall x :: x in r <==> x in images && Matches(x, f)
    decreases |images|
  {
    if |images| == 0 then []
    else (if Matches(images[0], f) then [images[0]] else []) + FilterImages(images[1..], f)
  }

  /** The filtered list keeps the images in the order of the full list. */
  lemma {:induction false} FilterKeepsOrder(images: seq<GalleryImage>, f: Filters)
    ensures Subsequence(FilterImages(images, f), images)
    decreases |images|
  {
    if |images| > 0 {
      FilterKeepsOrder(images[1..], f);
      var rest := FilterImages(images[1..], f);
      if Matches(images[0], f) {
        assert FilterImages(images, f) == [images[0]] + rest;
        assert ([images[0]] + rest)[1..] == rest;
      } else {
        assert FilterImages(images, f) == rest;
      }
    }
  }

  /** Every matching image is kept as often as it occurs, and no other image is. */
  lemma {:induction false} FilterCounts(images: seq<GalleryImage>, f: Filters, x: GalleryImage)
    ensures multiset(FilterImages(images, f))[x] == if Matches(x, f) then multiset(images)[x] else 0
    decreases |images|
  {
    if |images| > 0 {
      FilterCounts(images[1..], f, x);
      assert images == [images[0]] + images[1..];
    }
  }

  /** With every filter on "All", the filtered list is the full list. */
  lemma {:induction false} NoFiltersKeepAll(images: seq<GalleryImage>)
    ensures FilterImages(images, NoFilters) == images
    decreases |images|
  {
    if |images| > 0 {
      NoFiltersKeepAll(images[1..]);
      assert images == [images[0]] + images[1..];
    }
  }

  /** Filtering a filtered list again changes nothing. */
  lemma {:induction false} FilterIdempotent(images: seq<GalleryImage>, f: Filters)
    ensures FilterImages(FilterImages(images, f), f) == FilterImages(images, f)
    decreases |images|
  {
    if |images| > 0 {
      FilterIdempotent(images[1..], f);
      var rest := FilterImages(images[1..], f);
      if Matches(images[0], f) {
        var kept := [images[0]] + rest;
        assert FilterImages(images, f) == kept;
        assert kept[0] == images[0] && kept[1..] == rest;
        assert FilterImages(kept, f) == [images[0]] + FilterImages(rest, f);
      } else {
        assert FilterImages(images, f) == rest;
      }
    }
  }

  // ---------------------------------------------------------------------------
  // The option lists of the filter selects

  /** `images.map(img => img.metadata[field]).filter(Boolean)`. */
  function TruthyValues(images: seq<GalleryImage>, field: Gallery.Field): (r: seq<string>)
    ensures forall i :: 0 <= i < |r| ==> r[i] != ""
    ensures forall v :: v in r <==> v != "" && exists i :: 0 <= i < |images| && Gallery.FieldOf(images[i], field) == Some(v)
    decreases |images|
  {
    if |images| == 0 then []
    else
      var head := Gallery.FieldOf(images[0], field);
      var rest := TruthyValues(images[1..], field);
      assert forall i :: 0 <= i < |images| - 1 ==> images[1..][i] == images[i + 1];
      if Truthy(head) then [head.value] + rest else rest
  }

  /** `[...new Set(values)]`: the option list of a filter select, with each present non-empty
      value once. */
  function OptionValues(images: seq<GalleryImage>, field: Gallery.Field): (r: seq<string>)
    ensures NoDup(r)
    ensures forall v :: v in r <==> v != "" && exists i :: 0 <= i < |images| && Gallery.FieldOf(images[i], field) == Some(v)
  {
    Distinct(TruthyValues(images, field))
  }

  // ---------------------------------------------------------------------------
  // The view switch

  function Toggled(v: View): (w: View)
    ensures w != v
  {
    match v
    case Grid => List
    case List => Grid
  }

  /** Switching twice gives the view back. */
  lemma ToggleTwice(v: View)
    ensures Toggled(Toggled(v)) == v
  {
  }

  class GalleryManager {
    var images: seq<GalleryImage>
    var filteredImages: seq<GalleryImage>
    var currentView: View
    var filters: Filters
    const modelFilter: Dom.SelectElement
    const typeFilter: Dom.SelectElement
    const sizeFilter: Dom.SelectElement
    /** The two totals on the page: the number of images and their bytes (shown formatted). */
    var totalImagesShown: nat
    var totalBytes: nat
    var currentModalImage: Option<GalleryImage>
    var errorMessage: Option<string>

    /** The three selects are distinct, each keeps its leading "All" option, and the list on
        display is drawn from the full list in its order. */
    ghost predicate Valid()
      reads this, modelFilter, typeFilter, sizeFilter
    {
      && modelFilter != typeFilter && modelFilter != sizeFilter && typeFilter != sizeFilter
      && modelFilter.Valid() && typeFilter.Valid() && sizeFilter.Valid()
      && |modelFilter.children| >= 1 && |sizeFilter.children| >= 1
      && Subsequence(filteredImages, images)
    }

    /** A manager over the page's three filter selects, with no images yet, the grid view and
        no filter set. */
    constructor(modelFilter: Dom.SelectElement, typeFilter: Dom.SelectElement, sizeFilter: Dom.SelectElement)
      requires modelFilter != typeFilter && modelFilter != sizeFilter && typeFilter != sizeFilter
      requires modelFilter.Valid() && typeFilter.Valid() && sizeFilter.Valid()
      requires |modelFilter.children| >= 1 && |sizeFilter.children| >= 1
      ensures Valid()
      ensures this.modelFilter == modelFilter && this.typeFilter == typeFilter && this.sizeFilter == sizeFilter
      ensures images == [] && filteredImages == [] && currentView == Grid && filters == NoFilters
      ensures currentModalImage == None && errorMessage == None
    {
      this.modelFilter := modelFilter;
      this.typeFilter := typeFilter;
      this.sizeFilter := sizeFilter;
      images := [];
      filteredImages := [];
      currentView := Grid;
      filters := NoFilters;
      totalImagesShown := 0;
      totalBytes := 0;
      currentModalImage := None;
      errorMessage := None;
    }

    /** `loadGallery`: a listing replaces the images, resets the filtered list to a copy of
        them, and refreshes the totals and the filter options; a failure shows
        "Failed to load gallery: " and the message instead, and changes nothing else. */
    method LoadGallery(reply: GalleryReply)
      requires Valid()
      modifies this`images, this`filteredImages, this`totalImagesShown, this`totalBytes, this`errorMessage
      modifies modelFilter, sizeFilter
      ensures Valid()
      ensures reply.Listed? ==> Shown(reply.images, old(modelFilter.children), old(modelFilter.Value()),
                                      old(sizeFilter.children), old(sizeFilter.Value()))
      ensures reply.Listed? ==> errorMessage == old(errorMessage)
      ensures reply.Unsuccessful? ==>
        errorMessage == Some("Failed to load gallery: " + Or(reply.message, "Failed to load gallery"))
      ensures reply.FetchFailed? ==> errorMessage == Some("Failed to load gallery: " + reply.reason)
      ensures !reply.Listed? ==>
        && images == old(images) && filteredImages == old(filteredImages)
        && totalImagesShown == old(totalImagesShown) && totalBytes == old(totalBytes)
        && modelFilter.children == old(modelFilter.children) && modelFilter.selected == old(modelFilter.selected)
        && sizeFilter.children == old(sizeFilter.children) && sizeFilter.selected == old(sizeFilter.selected)
    {
      match reply {
        case Listed(received) =>
          ShowImages(received);
        case Unsuccessful(message) =>
          errorMessage := Some("Failed to load gallery: " + Or(message, "Failed to load gallery"));
        case FetchFailed(reason) =>
          errorMessage := Some("Failed to load gallery: " + reason);
      }
    }

    /** The state after a listing of `received` was taken in: the images and a copy of them on
        display, their totals, and the filter options drawn from them. */
    ghost predicate Shown(received: seq<GalleryImage>, modelChildren: seq<string>, modelValue: string,
                          sizeChildren: seq<string>, sizeValue: string)
      reads this, modelFilter, sizeFilter
      requires |modelChildren| >= 1 && |sizeChildren| >= 1
    {
      && images == received && filteredImages == received
      && totalImagesShown == |received| && totalBytes == Gallery.SumSizes(received)
      && ModelOptionsShown(modelChildren, modelValue)
      && SizeOptionsShown(sizeChildren, sizeValue)
    }

    /** The success branch of `loadGallery`. */
    method ShowImages(received: seq<GalleryImage>)
      requires Valid()
      modifies this`images, this`filteredImages, this`totalImagesShown, this`totalBytes
      modifies modelFilter, sizeFilter
      ensures Valid()
      ensures Shown(received, old(modelFilter.children), old(modelFilter.Value()),
                    old(sizeFilter.children), old(sizeFilter.Value()))
    {
      images := received;
      filteredImages := received;
      SubsequenceReflexive(received);
      UpdateStats();
      UpdateFilters();
    }

    /** The model select shows "All" and the sorted model names, and keeps its previous
        choice when that is still offered. */
    ghost predicate ModelOptionsShown(oldChildren: seq<string>, oldValue: string)
      reads this, modelFilter
      requires |oldChildren| >= 1
    {
      OptionsShown(modelFilter, OptionValues(images, Gallery.ModelField), oldChildren, oldValue)
    }

    ghost predicate SizeOptionsShown(oldChildren: seq<string>, oldValue: string)
      reads this, sizeFilter
      requires |oldChildren| >= 1
    {
      OptionsShown(sizeFilter, OptionValues(images, Gallery.SizeField), oldChildren, oldValue)
    }

    /** `updateStats`: the number of images and the sum of their sizes. */
    method UpdateStats()
      modifies this`totalImagesShown, this`totalBytes
      ensures totalImagesShown == |images| && totalBytes == Gallery.SumSizes(images)
    {
      totalImagesShown := |images|;
      totalBytes := Gallery.SumSizes(images);
    }

    /** `updateFilters`: the model and size selects get the distinct non-empty values of the
        images. */
    method UpdateFilters()
      requires Valid()
      modifies modelFilter, sizeFilter
      ensures Valid()
      ensures ModelOptionsShown(old(modelFilter.children), old(modelFilter.Value()))
      ensures SizeOptionsShown(old(sizeFilter.children), old(sizeFilter.Value()))
    {
      var models := OptionValues(images, Gallery.ModelField);
      UpdateSelectOptions(modelFilter, models);
      var sizes := OptionValues(images, Gallery.SizeField);
      UpdateSelectOptions(sizeFilter, sizes);
    }

    /** `updateSelectOptions`: removes every option but the first, appends the sorted options,
        and restores the previous choice when it is among them; otherwise the first option
        ("All") is selected. */
    static method UpdateSelectOptions(sel: Dom.SelectElement, options: seq<string>)
      requires sel.Valid() && |sel.children| >= 1
      modifies sel
      ensures sel.Valid() && |sel.children| >= 1
      ensures OptionsShown(sel, options, old(sel.children), old(sel.Value()))
    {
      var currentValue := sel.Value();
      ghost var first := old(sel.children)[0];
      while |sel.children| > 1
        invariant sel.Valid() && 1 <= |sel.children| <= |old(sel.children)|
        invariant sel.children == old(sel.children)[..|sel.children|]
        invariant sel.selected == if old(sel.selected) < |sel.children| then old(sel.selected) else 0
        decreases |sel.children|
      {
        sel.RemoveLastChild();
      }
      assert sel.children == [first] && sel.selected == 0;
      var sorted := SortLex(options);
      SortedMembers(options, sorted, currentValue);
      AppendAll(sel, sorted);
      if currentValue in sorted {
        sel.SetValue(currentValue);
      }
    }

    /** The `forEach` of `updateSelectOptions`: appends one unflagged option per value. */
    static method AppendAll(sel: Dom.SelectElement, values: seq<string>)
      requires sel.Valid() && |sel.children| >= 1
      modifies sel
      ensures sel.Valid() && sel.children == old(sel.children) + values && sel.selected == old(sel.selected)
    {
      for i := 0 to |values|
        invariant sel.Valid() && sel.selected == old(sel.selected)
        invariant sel.children == old(sel.children) + values[..i]
      {
        sel.AppendOption(values[i], false);
        assert values[..i + 1] == values[..i] + [values[i]];
      }
      assert values[..|values|] == values;
    }

    /** `applyFilters`: reads the three selects and keeps the images that pass. */
    method ApplyFilters()
      requires Valid()
      modifies this`filters, this`filteredImages
      ensures Valid()
      ensures filters == Filters(modelFilter.Value(), typeFilter.Value(), sizeFilter.Value())
      ensures filteredImages == FilterImages(images, filters)
    {
      filters := Filters(modelFilter.Value(), typeFilter.Value(), sizeFilter.Value());
      filteredImages := FilterImages(images, filters);
      FilterKeepsOrder(images, filters);
    }

    /** `toggleView`: grid becomes list and list becomes grid. */
    method ToggleView()
      modifies this`currentView
      ensures currentView == Toggled(old(currentView))
    {
      currentView := if currentView == Grid then List else Grid;
    }

    /** `openModal`: the image becomes the one shown. */
    method OpenModal(image: GalleryImage)
      modifies this`currentModalImage
      ensures currentModalImage == Some(image)
    {
      currentModalImage := Some(image);
    }

    /** `closeModal`: no image is shown any more. */
    method CloseModal()
      modifies this`currentModalImage
      ensures currentModalImage == None
    {
      currentModalImage := None;
    }

    /** `downloadCurrentImage`: nothing without a shown image; otherwise a link to its URL that
        saves it under its file name. */
    method DownloadCurrentImage() returns (link: Option<DownloadLink>)
      ensures link.None? <==> currentModalImage.None?
      ensures link.Some? ==>
        link.value.href == currentModalImage.value.url && link.value.download == currentModalImage.value.filename
    {
      if currentModalImage.None? {
        return None;
      }
      link := Some(DownloadLink(currentModalImage.value.url, currentModalImage.value.filename));
    }

    /** `copyCurrentImageUrl`: nothing without a shown image; otherwise the page origin followed
        by the image's URL. */
    method CopyCurrentImageUrl(origin: string) returns (text: Option<string>)
      ensures text.None? <==> currentModalImage.None?
      ensures text.Some? ==> text.value == origin + currentModalImage.value.url
    {
      if currentModalImage.None? {
        return None;
      }
      text := Some(origin + currentModalImage.value.url);
    }
  }

  lemma SortedMembers(options: seq<string>, sorted: seq<string>, v: string)
    requires multiset(sorted) == multiset(options)
    ensures v in sorted <==> v in options
  {
    assert v in sorted <==> v in multiset(sorted);
    assert v in options <==> v in multiset(options);
  }

  /** What `updateSelectOptions` leaves: the first old option, then the options sorted; the
      previous value when it is among the options, else the first option's. */
  ghost predicate OptionsShown(sel: Dom.SelectElement, options: seq<string>, oldChildren: seq<string>, oldValue: string)
    reads sel
    requires |oldChildren| >= 1
  {
    && sel.children == oldChildren[..1] + SortLex(options)
    && sel.Value() == if oldValue in options then oldValue else oldChildren[0]
  }
}
