/** The direct-generation page of the web client (public/direct.js, class
    `DirectImageGenerator`): the character counters, the submit guard and request, the
    20-item history kept in local storage, the saved default system prompt, the quality and size
    selects that follow the chosen model, and the price shown for the choice. Rendering, the
    fetch, timers and `toLocaleString` are outside the model; the server's answer and the clock
    are inputs. */
module DirectView {
  import opened Wrappers
  import opened Text
  import Pricing
  import Dom

  // ---------------------------------------------------------------------------
  // Character counters

  /** The colour of a counter: grey, then yellow near the limit, then red past it. */
  datatype Colour = Grey | Yellow | Red

  /** The CSS colour the counter is painted with. */
  function ColourCode(c: Colour): string {
    match c
    case Grey => "#666"
    case Yellow => "#ffc107"
    case Red => "#dc3545"
  }

  function Severity(c: Colour): nat {
    match c
    case Grey => 0
    case Yellow => 1
    case Red => 2
  }

  /** The colour of a count: red above `redAbove`, yellow above `yellowAbove`, grey otherwise. */
  function CountColour(count: nat, yellowAbove: nat, redAbove: nat): (c: Colour)
    requires yellowAbove <= redAbove
    ensures c == Red <==> count > redAbove
    ensures c == Yellow <==> yellowAbove < count <= redAbove
    ensures c == Grey <==> count <= yellowAbove
  {
    if count > redAbove then Red else if count > yellowAbove then Yellow else Grey
  }

  /** `updateCharCount`: red past 900 code units, yellow from 801 to 900. */
  function PromptColour(count: nat): (c: Colour)
    ensures c == Red <==> count > 900
    ensures c == Yellow <==> 800 < count <= 900
  {
    CountColour(count, 800, 900)
  }

  /** `updateSystemCharCount`: red past 450 code units, yellow from 401 to 450. */
  function SystemColour(count: nat): (c: Colour)
    ensures c == Red <==> count > 450
    ensures c == Yellow <==> 400 < count <= 450
  {
    CountColour(count, 400, 450)
  }

  /** Typing more never makes a counter less alarming. */
  lemma ColourMonotone(a: nat, b: nat, yellowAbove: nat, redAbove: nat)
    requires a <= b && yellowAbove <= redAbove
    ensures Severity(CountColour(a, yellowAbove, redAbove)) <= Severity(CountColour(b, yellowAbove, redAbove))
  {
  }

  // ---------------------------------------------------------------------------
  // The request

  /** The JSON body sent to `/api/generate-image`; an absent system prompt is left out. */
  datatype RequestBody = RequestBody(prompt: string, model: string, size: string, quality: string,
                                     systemPrompt: Option<string>)

  /** What `handleSubmit` sends for the form's values: nothing when the trimmed prompt is empty,
      otherwise the trimmed prompt and system prompt, the latter left out when it is empty. */
  function SubmitRequest(promptValue: string, systemValue: string, model: string, size: string, quality: string)
    : (r: Option<RequestBody>)
    ensures r.None? <==> Trim(promptValue) == ""
    ensures r.Some? ==> r.value.prompt == Trim(promptValue) && r.value.prompt != ""
    ensures r.Some? ==> r.value.model == model && r.value.size == size && r.value.quality == quality
    ensures r.Some? ==> (r.value.systemPrompt.None? <==> Trim(systemValue) == "")
    ensures r.Some? && r.value.systemPrompt.Some? ==> r.value.systemPrompt.value == Trim(systemValue)
  {
    var prompt := Trim(promptValue);
    var systemPrompt := Trim(systemValue);
    if prompt == "" then None
    else Some(RequestBody(prompt, model, size, quality, if systemPrompt != "" then Some(systemPrompt) else None))
  }

  /** A prompt of nothing but whitespace is never sent. */
  lemma BlankPromptNotSent(promptValue: string, systemValue: string, model: string, size: string, quality: string)
    requires forall k :: 0 <= k < |promptValue| ==> IsJsSpace(promptValue[k])
    ensures SubmitRequest(promptValue, systemValue, model, size, quality).None?
  {
    TrimEmpty(promptValue);
  }

  /** The JSON the server answers a successful request with; the fields after the file name may
      be missing or empty. */
  datatype ServerResult = ServerResult(localImageUrl: string, filename: string, model: Option<string>,
                                       size: Option<string>, quality: Option<string>, finalPrompt: Option<string>)

  /** How the request ended: a result, an HTTP error whose body may carry an `error` field, or
      an error thrown by the fetch. */
  datatype SubmitResponse = Succeeded(result: ServerResult)
                          | HttpError(error: Option<string>, status: int, statusText: string)
                          | FetchFailed(message: string)

  /** The message shown when a request fails. */
  function FailureMessage(response: SubmitResponse): (m: string)
    requires !response.Succeeded?
    ensures response.HttpError? && Truthy(response.error) ==> m == "Failed to generate image: " + response.error.value
    ensures response.HttpError? && !Truthy(response.error) ==>
      m == "Failed to generate image: HTTP " + IntToString(response.status) + ": " + response.statusText
    ensures response.FetchFailed? ==> m == "Failed to generate image: " + response.message
  {
    match response
    case HttpError(error, status, statusText) =>
      "Failed to generate image: " + Or(error, "HTTP " + IntToString(status) + ": " + statusText)
    case FetchFailed(message) => "Failed to generate image: " + message
  }

  // ---------------------------------------------------------------------------
  // The result and the history

  /** The form's values as `handleSubmit` passes them on: the trimmed prompts and the selects. */
  datatype RequestData = RequestData(prompt: string, systemPrompt: string, model: string, size: string, quality: string)

  /** What `showResult` puts on the page. */
  datatype ShownResult = ShownResult(src: string, filename: string, usedPrompt: string, usedModel: string,
                                     usedSize: string, usedQuality: string)

  datatype HistoryItem = HistoryItem(imageUrl: string, filename: string, prompt: string, systemPrompt: string,
                                     model: string, size: string, quality: string, finalPrompt: Option<string>,
                                     timestamp: string)

  const HistoryLimit := 20

  /** `showResult`: the server's values, falling back to the request's where they are missing. */
  function ShownFor(result: ServerResult, request: RequestData): (s: ShownResult)
    ensures s.src == result.localImageUrl && s.filename == result.filename
    ensures s.usedPrompt == (if Truthy(result.finalPrompt) then result.finalPrompt.value else request.prompt)
    ensures s.usedModel == (if Truthy(result.model) then result.model.value else request.model)
    ensures s.usedSize == (if Truthy(result.size) then result.size.value else request.size)
    ensures s.usedQuality == (if Truthy(result.quality) then result.quality.value else request.quality)
  {
    ShownResult(result.localImageUrl, result.filename, Or(result.finalPrompt, request.prompt),
                Or(result.model, request.model), Or(result.size, request.size), Or(result.quality, request.quality))
  }

  /** The history entry of a result: the model, size and quality the server reports, or else
      the ones requested; the prompts as typed; the time `now`. */
  function HistoryItemFor(result: ServerResult, request: RequestData, now: string): (item: HistoryItem)
    ensures item.imageUrl == result.localImageUrl && item.filename == result.filename
    ensures item.prompt == request.prompt && item.systemPrompt == request.systemPrompt
    ensures item.model == (if Truthy(result.model) then result.model.value else request.model)
    ensures item.size == (if Truthy(result.size) then result.size.value else request.size)
    ensures item.quality == (if Truthy(result.quality) then result.quality.value else request.quality)
    ensures item.finalPrompt == result.finalPrompt && item.timestamp == now
  {
    HistoryItem(result.localImageUrl, result.filename, request.prompt, request.systemPrompt,
                Or(result.model, request.model), Or(result.size, request.size), Or(result.quality, request.quality),
                result.finalPrompt, now)
  }

  function Min(a: nat, b: nat): nat {
    if a <= b then a else b
  }

  /** `history.unshift(item)` then `history.slice(0, 20)`: the new item first, followed by the
      old items in order, cut at twenty. */
  function Unshifted(history: seq<HistoryItem>, item: HistoryItem): (r: seq<HistoryItem>)
    ensures |r| == Min(|history| + 1, HistoryLimit)
    ensures r[0] == item
    ensures forall i :: 1 <= i < |r| ==> r[i] == history[i - 1]
  {
    ([item] + history)[..Min(|history| + 1, HistoryLimit)]
  }

  /** The history after adding `items` one after the other. */
  function AddAll(history: seq<HistoryItem>, items: seq<HistoryItem>): seq<HistoryItem>
    decreases |items|
  {
    if |items| == 0 then history else AddAll(Unshifted(history, items[0]), items[1..])
  }

  function Reversed(items: seq<HistoryItem>): (r: seq<HistoryItem>)
    ensures |r| == |items|
    decreases |items|
  {
    if |items| == 0 then [] else Reversed(items[1..]) + [items[0]]
  }

  /** Adding items keeps the newest first: the history is the added items from the last to the
      first, followed by the old history, cut at twenty. */
  lemma {:induction false} AddAllNewestFirst(history: seq<HistoryItem>, items: seq<HistoryItem>)
    requires |history| <= HistoryLimit
    ensures AddAll(history, items) == (Reversed(items) + history)[..Min(|items| + |history|, HistoryLimit)]
    decreases |items|
  {
    if |items| == 0 {
      assert Reversed(items) + history == history;
    } else {
      var x, rest := items[0], items[1..];
      var h1 := Unshifted(history, x);
      AddAllNewestFirst(h1, rest);
      var n := Min(|items| + |history|, HistoryLimit);
      var lhs := (Reversed(rest) + h1)[..Min(|rest| + |h1|, HistoryLimit)];
      var rhs := (Reversed(items) + history)[..n];
      assert Reversed(items) == Reversed(rest) + [x];
      assert |lhs| == n;
      forall i | 0 <= i < n ensures lhs[i] == rhs[i] {
        if i < |rest| {
        } else if i == |rest| {
        } else {
          assert lhs[i] == h1[i - |rest|];
          assert h1[i - |rest|] == history[i - |rest| - 1];
        }
      }
    }
  }

  /** Twenty or more additions in a row leave only the twenty newest, the last added first. */
  lemma HistoryKeepsNewest(history: seq<HistoryItem>, items: seq<HistoryItem>)
    requires |history| <= HistoryLimit && |items| >= HistoryLimit
    ensures |AddAll(history, items)| == HistoryLimit
    ensures forall i :: 0 <= i < HistoryLimit ==> AddAll(history, items)[i] == items[|items| - 1 - i]
  {
    AddAllNewestFirst(history, items);
    forall i | 0 <= i < HistoryLimit ensures AddAll(history, items)[i] == items[|items| - 1 - i] {
      ReversedAt(items, i);
    }
  }

  lemma {:induction false} ReversedAt(items: seq<HistoryItem>, i: nat)
    requires i < |items|
    ensures Reversed(items)[i] == items[|items| - 1 - i]
    decreases |items|
  {
    if i < |items| - 1 {
      ReversedAt(items[1..], i);
    }
  }

  // ---------------------------------------------------------------------------
  // The dropdowns

  /** The option a rebuilt dropdown ends up on: the previous value when it is still offered,
      else the preferred default when offered, else the first option; "" for no options. */
  function DefaultChoice(options: seq<string>, previous: string, preferred: string): (v: string)
    ensures |options| > 0 ==> v in options
    ensures |options| == 0 ==> v == ""
    ensures previous in options ==> v == previous
    ensures previous !in options && preferred in options ==> v == preferred
    ensures previous !in options && preferred !in options && |options| > 0 ==> v == options[0]
  {
    if previous in options then previous
    else if preferred in options then preferred
    else if |options| > 0 then options[0]
    else ""
  }

  /** The quality and size options and values, and the price text, that fit the chosen model. */
  ghost predicate PricingFits(pricing: Pricing.PricingCalculator, model: string, qualities: seq<string>, quality: string,
                              sizes: seq<string>, size: string, priceText: string, oldQuality: string, oldSize: string,
                              toFixed: (real, nat) -> string)
  {
    && qualities == pricing.AvailableQualities(model)
    && quality == DefaultChoice(qualities, oldQuality, QualityDefault)
    && sizes == pricing.AvailableSizes(model, None)
    && size == DefaultChoice(sizes, oldSize, SizeDefault)
    && priceText == Pricing.FormatPrice(pricing.DirectCost(model, quality, size), toFixed)
  }

  const QualityDefault := "auto"
  const SizeDefault := "1024x1024"

  class DirectImageGenerator {
    const pricing: Pricing.PricingCalculator
    const modelSelect: Dom.SelectElement
    const sizeSelect: Dom.SelectElement
    const qualitySelect: Dom.SelectElement
    /** The text in the prompt and system prompt boxes. */
    var promptValue: string
    var systemPromptValue: string
    var charCount: nat
    var charColour: Colour
    var systemCharCount: nat
    var systemCharColour: Colour
    /** The `imageHistory` entry of local storage. */
    var history: seq<HistoryItem>
    /** The `defaultSystemPrompt` entry of local storage. */
    var savedSystemPrompt: Option<string>
    var errorMessage: Option<string>
    var notice: Option<string>
    /** The last result put in the result panel. `showLoading` hides the panel before every
        request, so after a failure this is what the panel would hold, not what is visible. */
    var shown: Option<ShownResult>
    var priceText: string

    ghost predicate Valid()
      reads this, modelSelect, sizeSelect, qualitySelect
    {
      && modelSelect != sizeSelect && modelSelect != qualitySelect && sizeSelect != qualitySelect
      && modelSelect.Valid() && sizeSelect.Valid() && qualitySelect.Valid()
    }

    /** A page over the three selects, with the stored history and default system prompt:
        `loadSystemPrompt` fills the system prompt box with the saved text, if any. */
    constructor(pricing: Pricing.PricingCalculator, modelSelect: Dom.SelectElement, sizeSelect: Dom.SelectElement,
                qualitySelect: Dom.SelectElement, storedHistory: seq<HistoryItem>, storedSystemPrompt: Option<string>)
      requires modelSelect != sizeSelect && modelSelect != qualitySelect && sizeSelect != qualitySelect
      requires modelSelect.Valid() && sizeSelect.Valid() && qualitySelect.Valid()
      ensures fresh(this)
      ensures Valid()
      ensures this.pricing == pricing && this.modelSelect == modelSelect
      ensures this.sizeSelect == sizeSelect && this.qualitySelect == qualitySelect
      ensures history == storedHistory && savedSystemPrompt == storedSystemPrompt
      ensures promptValue == "" && systemPromptValue == (if Truthy(storedSystemPrompt) then storedSystemPrompt.value else "")
      ensures systemCharCount == |Utf16(systemPromptValue)| && systemCharColour == SystemColour(systemCharCount)
    {
      this.pricing := pricing;
      this.modelSelect := modelSelect;
      this.sizeSelect := sizeSelect;
      this.qualitySelect := qualitySelect;
      promptValue := "";
      systemPromptValue := "";
      charCount := 0;
      charColour := Grey;
      systemCharCount := 0;
      systemCharColour := Grey;
      history := storedHistory;
      savedSystemPrompt := storedSystemPrompt;
      errorMessage := None;
      notice := None;
      shown := None;
      priceText := "";
      new;
      LoadSystemPrompt();
    }

    /** The selects and the price after `initializePricing`: the quality and size selects
        offer what the chosen model offers, each keeping its previous value when it can, and the
        price of the resulting choice is shown. */
    ghost predicate PricingShown(oldQuality: string, oldSize: string, toFixed: (real, nat) -> string)
      reads this`priceText, modelSelect, sizeSelect, qualitySelect
    {
      PricingFits(pricing, modelSelect.Value(), qualitySelect.children, qualitySelect.Value(), sizeSelect.children,
                  sizeSelect.Value(), priceText, oldQuality, oldSize, toFixed)
    }

    /** `initializePricing`: the quality and size selects are fitted to the chosen model, then
        the price of the resulting choice is shown. */
    method InitializePricing(toFixed: (real, nat) -> string)
      requires Valid()
      modifies sizeSelect, qualitySelect, this`priceText
      ensures Valid()
      ensures PricingShown(old(qualitySelect.Value()), old(sizeSelect.Value()), toFixed)
    {
      UpdateDropdownsForModel();
      UpdateCurrentPrice(toFixed);
    }

    /** `updateCharCount`: `value.length` counts UTF-16 code units, so a character outside the
        Basic Multilingual Plane counts twice. */
    method UpdateCharCount()
      modifies this`charCount, this`charColour
      ensures charCount == |Utf16(promptValue)| && charColour == PromptColour(charCount)
    {
      charCount := |Utf16(promptValue)|;
      charColour := PromptColour(charCount);
    }

    /** `updateSystemCharCount`, counting code units as `updateCharCount` does. */
    method UpdateSystemCharCount()
      modifies this`systemCharCount, this`systemCharColour
      ensures systemCharCount == |Utf16(systemPromptValue)| && systemCharColour == SystemColour(systemCharCount)
    {
      systemCharCount := |Utf16(systemPromptValue)|;
      systemCharColour := SystemColour(systemCharCount);
    }

    /** The form's values as `handleSubmit` reads them. */
    function FormData(): RequestData
      reads this, modelSelect, sizeSelect, qualitySelect
    {
      RequestData(Trim(promptValue), Trim(systemPromptValue), modelSelect.Value(), sizeSelect.Value(),
                  qualitySelect.Value())
    }

    /** `handleSubmit`: a blank prompt shows an error and sends nothing; otherwise the request
        is sent, and its answer either shows the result and joins the history, or shows why it
        failed. */
    method HandleSubmit(response: SubmitResponse, now: string) returns (sent: Option<RequestBody>)
      modifies this`errorMessage, this`shown, this`history
      ensures sent == SubmitRequest(promptValue, systemPromptValue, modelSelect.Value(), sizeSelect.Value(),
                                    qualitySelect.Value())
      ensures sent.None? ==>
        errorMessage == Some("Please enter a prompt for image generation.")
        && shown == old(shown) && history == old(history)
      ensures sent.Some? ==> Answered(response, old(FormData()), now, old(errorMessage), old(shown), old(history))
    {
      var data := FormData();
      sent := SubmitRequest(promptValue, systemPromptValue, data.model, data.size, data.quality);
      if sent.Some? {
        ShowResponse(response, data, now);
        assert Answered(response, data, now, old(errorMessage), old(shown), old(history));
      } else {
        errorMessage := Some("Please enter a prompt for image generation.");
      }
    }

    /** The page after the answer to a sent request: a result is shown and joins the history;
        a failure shows its message and changes nothing else. */
    ghost predicate Answered(response: SubmitResponse, request: RequestData, now: string,
                             oldError: Option<string>, oldShown: Option<ShownResult>, oldHistory: seq<HistoryItem>)
      reads this
    {
      if response.Succeeded? then
        && shown == Some(ShownFor(response.result, request))
        && history == Unshifted(oldHistory, HistoryItemFor(response.result, request, now))
        && errorMessage == oldError
      else
        errorMessage == Some(FailureMessage(response)) && shown == oldShown && history == oldHistory
    }

    /** The `try` block of `handleSubmit` once the request has been answered. */
    method ShowResponse(response: SubmitResponse, request: RequestData, now: string)
      modifies this`errorMessage, this`shown, this`history
      ensures Answered(response, request, now, old(errorMessage), old(shown), old(history))
    {
      match response {
        case Succeeded(result) =>
          shown := Some(ShownFor(result, request));
          AddToHistory(result, request, now);
        case _ =>
          errorMessage := Some(FailureMessage(response));
      }
    }

    /** `addToHistory`: the entry for the result goes in front and the list is cut at twenty. */
    method AddToHistory(result: ServerResult, request: RequestData, now: string)
      modifies this`history
      ensures history == Unshifted(old(history), HistoryItemFor(result, request, now))
    {
      var item := HistoryItemFor(result, request, now);
      var updated := [item] + history;
      history := updated[..Min(|updated|, HistoryLimit)];
    }

    /** `clearHistory`. */
    method ClearHistory()
      modifies this`history
      ensures history == []
    {
      history := [];
    }

    /** `saveSystemPrompt`: only a system prompt that is not blank is stored, trimmed. */
    method SaveSystemPrompt()
      modifies this`savedSystemPrompt, this`errorMessage, this`notice
      ensures Trim(systemPromptValue) != "" ==>
        savedSystemPrompt == Some(Trim(systemPromptValue)) && notice == Some("System prompt saved as default!")
        && errorMessage == old(errorMessage)
      ensures Trim(systemPromptValue) == "" ==>
        savedSystemPrompt == old(savedSystemPrompt) && notice == old(notice)
        && errorMessage == Some("Please enter a system prompt to save.")
    {
      var systemPrompt := Trim(systemPromptValue);
      if systemPrompt != "" {
        savedSystemPrompt := Some(systemPrompt);
        notice := Some("System prompt saved as default!");
      } else {
        errorMessage := Some("Please enter a system prompt to save.");
      }
    }

    /** `clearSystemPrompt`: empties the box and forgets the stored prompt. */
    method ClearSystemPrompt()
      modifies this`systemPromptValue, this`systemCharCount, this`systemCharColour, this`savedSystemPrompt, this`notice
      ensures systemPromptValue == "" && systemCharCount == 0 && systemCharColour == Grey
      ensures savedSystemPrompt == None && notice == Some("System prompt cleared!")
    {
      systemPromptValue := "";
      UpdateSystemCharCount();
      savedSystemPrompt := None;
      notice := Some("System prompt cleared!");
    }

    /** `loadSystemPrompt`: a stored prompt that is not empty fills the box. */
    method LoadSystemPrompt()
      modifies this`systemPromptValue, this`systemCharCount, this`systemCharColour
      ensures Truthy(savedSystemPrompt) ==>
        systemPromptValue == savedSystemPrompt.value
        && systemCharCount == |Utf16(systemPromptValue)| && systemCharColour == SystemColour(systemCharCount)
      ensures !Truthy(savedSystemPrompt) ==>
        systemPromptValue == old(systemPromptValue) && systemCharCount == old(systemCharCount)
        && systemCharColour == old(systemCharColour)
    {
      if Truthy(savedSystemPrompt) {
        systemPromptValue := savedSystemPrompt.value;
        UpdateSystemCharCount();
      }
    }

    /** `updateDropdownsForModel`: the quality select gets the model's qualities and the size
        select every size the model offers. */
    method UpdateDropdownsForModel()
      requires Valid()
      modifies sizeSelect, qualitySelect
      ensures Valid()
      ensures qualitySelect.children == pricing.AvailableQualities(old(modelSelect.Value()))
      ensures qualitySelect.Value()
              == DefaultChoice(qualitySelect.children, old(qualitySelect.Value()), QualityDefault)
      ensures sizeSelect.children == pricing.AvailableSizes(old(modelSelect.Value()), None)
      ensures sizeSelect.Value() == DefaultChoice(sizeSelect.children, old(sizeSelect.Value()), SizeDefault)
    {
      var selectedModel := modelSelect.Value();
      var availableQualities := pricing.AvailableQualities(selectedModel);
      var availableSizes := pricing.GetAvailableSizes(selectedModel, None);
      UpdateQualityDropdown(availableQualities);
      UpdateSizeDropdown(availableSizes);
    }

    /** `updateQualityDropdown`: rebuilt with "auto" as the preferred default. */
    method UpdateQualityDropdown(availableQualities: seq<string>)
      requires Valid()
      modifies qualitySelect
      ensures Valid()
      ensures qualitySelect.children == availableQualities
      ensures qualitySelect.Value() == DefaultChoice(availableQualities, old(qualitySelect.Value()), QualityDefault)
    {
      RebuildDropdown(qualitySelect, availableQualities, QualityDefault);
    }

    /** `updateSizeDropdown`: rebuilt with "1024x1024" as the preferred default. */
    method UpdateSizeDropdown(availableSizes: seq<string>)
      requires Valid()
      modifies sizeSelect
      ensures Valid()
      ensures sizeSelect.children == availableSizes
      ensures sizeSelect.Value() == DefaultChoice(availableSizes, old(sizeSelect.Value()), SizeDefault)
    {
      RebuildDropdown(sizeSelect, availableSizes, SizeDefault);
    }

    /** The loop both dropdown updaters run: every option equal to the previous value is
        flagged selected, and so is the preferred default while nothing has been flagged;
        the last flagged option ends up selected, and with none flagged, the first. */
    static method RebuildDropdown(sel: Dom.SelectElement, options: seq<string>, preferred: string)
      modifies sel
      ensures sel.Valid() && sel.children == options
      ensures sel.Value() == DefaultChoice(options, old(sel.Value()), preferred)
    {
      var currentValue := sel.Value();
      sel.Clear();
      var defaultSelected := false;
      for i := 0 to |options|
        invariant sel.Valid() && sel.children == options[..i]
        invariant defaultSelected <==> currentValue in options[..i] || preferred in options[..i]
        invariant currentValue in options[..i] ==> sel.Value() == currentValue
        invariant currentValue !in options[..i] && preferred in options[..i] ==> sel.Value() == preferred
        invariant !defaultSelected && i > 0 ==> sel.selected == 0
      {
        var option := options[i];
        var flagged := option == currentValue || (!defaultSelected && option == preferred);
        sel.AppendOption(option, flagged);
        if flagged {
          defaultSelected := true;
        }
        assert options[..i + 1] == options[..i] + [option];
      }
      assert options[..|options|] == options;
      if !defaultSelected && |options| > 0 {
        sel.SelectChild(0);
      }
    }

    /** `updateCurrentPrice`: the price of the chosen model, quality and size, formatted;
        `toFixed` is the client's number rendering. */
    method UpdateCurrentPrice(toFixed: (real, nat) -> string)
      modifies this`priceText
      ensures priceText == Pricing.FormatPrice(pricing.DirectCost(modelSelect.Value(), qualitySelect.Value(),
                                                                  sizeSelect.Value()), toFixed)
      ensures priceText == "N/A" <==>
        pricing.DirectCost(modelSelect.Value(), qualitySelect.Value(), sizeSelect.Value()).None?
    {
      var price := pricing.DirectCost(modelSelect.Value(), qualitySelect.Value(), sizeSelect.Value());
      priceText := Pricing.FormatPrice(price, toFixed);
    }
  }
}
