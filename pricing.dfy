/** The price tables of the web client (public/pricing.js, class `PricingCalculator`).
    Each table is an association list in the order its keys are written, which is the order
    `Object.keys` lists them in. Prices are exact reals; the client's binary floating point is
    not modelled. */
module Pricing {
  import opened Wrappers
  import opened Text

  type Table<V> = seq<(string, V)>

  /** Per-image prices of direct generation, by model, then quality, then size. */
  const DirectPricing: Table<Table<Table<real>>> :=
    [("gpt-image-1", GptImage1Prices), ("dall-e-3", DallE3Prices), ("dall-e-2", DallE2Prices)]

  const GptImage1Prices: Table<Table<real>> := [
    ("low", [("1024x1024", 0.011), ("1024x1536", 0.016), ("1536x1024", 0.016)]),
    ("medium", [("1024x1024", 0.042), ("1024x1536", 0.063), ("1536x1024", 0.063)]),
    ("high", [("1024x1024", 0.167), ("1024x1536", 0.25), ("1536x1024", 0.25)]),
    ("auto", [("1024x1024", 0.167), ("1024x1536", 0.25), ("1536x1024", 0.25)])]

  const DallE3Prices: Table<Table<real>> := [
    ("standard", [("1024x1024", 0.04), ("1024x1792", 0.08), ("1792x1024", 0.08)]),
    ("hd", [("1024x1024", 0.08), ("1024x1792", 0.12), ("1792x1024", 0.12)]),
    ("auto", [("1024x1024", 0.08), ("1024x1792", 0.12), ("1792x1024", 0.12)])]

  const DallE2Prices: Table<Table<real>> := [
    ("standard", [("256x256", 0.016), ("512x512", 0.018), ("1024x1024", 0.02)]),
    ("auto", [("256x256", 0.016), ("512x512", 0.018), ("1024x1024", 0.02)])]

  /** Tokens a chat-generated image costs, by quality, then size (one image model only). */
  const ChatTokenTable: Table<Table<int>> := [
    ("low", [("1024x1024", 272), ("1024x1536", 408), ("1536x1024", 400)]),
    ("medium", [("1024x1024", 1056), ("1024x1536", 1584), ("1536x1024", 1568)]),
    ("high", [("1024x1024", 4160), ("1024x1536", 6240), ("1536x1024", 6208)])]

  /** Ten dollars per million tokens. */
  const TokenPrice: real := 10.0 / 1000000.0

  /** `Object.keys`: the keys in table order. */
  function Keys<V>(t: Table<V>): (ks: seq<string>)
    ensures |ks| == |t|
    ensures forall i :: 0 <= i < |t| ==> ks[i] == t[i].0
  {
    if |t| == 0 then [] else [t[0].0] + Keys(t[1..])
  }

  /** `t[k]`: the value of the first entry with key `k`, or none. */
  function Lookup<V>(t: Table<V>, k: string): (r: Option<V>)
    ensures r.None? <==> k !in Keys(t)
    ensures r.Some? ==> (k, r.value) in t
  {
    if |t| == 0 then None else if t[0].0 == k then Some(t[0].1) else Lookup(t[1..], k)
  }

  /** Every key occurs once, so a key has exactly one entry. */
  lemma {:induction false} LookupUnique<V>(t: Table<V>, k: string, v: V)
    requires NoDup(Keys(t)) && (k, v) in t
    ensures Lookup(t, k) == Some(v)
  {
    if t[0].0 != k {
      assert Keys(t[1..]) == Keys(t)[1..];
      assert (k, v) in t[1..];
      LookupUnique(t[1..], k, v);
    }
  }

  lemma AppendAssoc(a: seq<string>, b: seq<string>, c: seq<string>)
    ensures a + (b + c) == (a + b) + c
  {
  }

  /** One more key met: the distinct list grows by it exactly when it is new. */
  lemma DistinctStep(met: seq<string>, keys: seq<string>, j: nat)
    requires j < |keys|
    ensures Distinct(met + keys[..j + 1])
            == if keys[j] in Distinct(met + keys[..j]) then Distinct(met + keys[..j])
               else Distinct(met + keys[..j]) + [keys[j]]
  {
    assert keys[..j + 1] == keys[..j] + [keys[j]];
    AppendAssoc(met, keys[..j], [keys[j]]);
    DistinctPrefix(met + keys[..j], keys[j]);
  }

  /** A size occurs among the size keys of one of the qualities. */
  ghost predicate OfferedIn(qs: Table<Table<real>>, size: string) {
    exists i :: 0 <= i < |qs| && size in Keys(qs[i].1)
  }

  /** The size keys of every quality of a model, one list after the other. */
  function AllSizeKeys(qs: Table<Table<real>>): (r: seq<string>)
    ensures |qs| > 0 ==> Keys(qs[0].1) <= r
  {
    if |qs| == 0 then [] else Keys(qs[0].1) + AllSizeKeys(qs[1..])
  }

  lemma {:induction false} AllSizeKeysMembers(qs: Table<Table<real>>, size: string)
    ensures size in AllSizeKeys(qs) <==> OfferedIn(qs, size)
  {
    if |qs| > 0 {
      AllSizeKeysMembers(qs[1..], size);
      if size in AllSizeKeys(qs[1..]) {
        var i :| 0 <= i < |qs| - 1 && size in Keys(qs[1..][i].1);
        assert qs[1..][i] == qs[i + 1];
      }
      if OfferedIn(qs, size) && size !in Keys(qs[0].1) {
        var i :| 0 <= i < |qs| && size in Keys(qs[i].1);
        assert qs[1..][i - 1] == qs[i];
      }
    }
  }

  lemma {:induction false} AllSizeKeysAppend(qs: Table<Table<real>>, q: (string, Table<real>))
    ensures AllSizeKeys(qs + [q]) == AllSizeKeys(qs) + Keys(q.1)
  {
    if |qs| == 0 {
      assert qs + [q] == [q];
      assert [q][1..] == [];
    } else {
      assert (qs + [q])[1..] == qs[1..] + [q];
      AllSizeKeysAppend(qs[1..], q);
    }
  }

  lemma AllSizeKeysPrefix(qs: Table<Table<real>>, i: int)
    requires 0 <= i < |qs|
    ensures AllSizeKeys(qs[..i + 1]) == AllSizeKeys(qs[..i]) + Keys(qs[i].1)
  {
    assert qs[..i + 1] == qs[..i] + [qs[i]];
    AllSizeKeysAppend(qs[..i], qs[i]);
  }

  /** The calculator holds the two tables and the token price its constructor sets. */
  class PricingCalculator {
    const directPricing: Table<Table<Table<real>>>
    const chatTokens: Table<Table<int>>
    const tokenPrice: real

    /** The tables are the client's own. */
    predicate Standard() {
      directPricing == DirectPricing && chatTokens == ChatTokenTable && tokenPrice == TokenPrice
    }

    /** What the lookups rely on: distinct keys and no zero price. */
    predicate WellFormed() {
      DistinctKeys3(directPricing) && NonZero3(directPricing)
    }

    constructor()
      ensures Standard() && WellFormed() && ChatWellFormed(chatTokens)
    {
      directPricing := DirectPricing;
      chatTokens := ChatTokenTable;
      tokenPrice := TokenPrice;
      DirectPricingWellFormed();
      ChatTokenTableWellFormed();
    }

    /** `getDirectCost`: the table entry; an unknown model, quality or size, or a zero (falsy)
        price, gives null. */
    function DirectCost(model: string, quality: string, size: string): (r: Option<real>)
      ensures r.Some? ==> r.value != 0.0
      ensures r.Some? ==> exists qs, ps :: (model, qs) in directPricing && (quality, ps) in qs && (size, r.value) in ps
      ensures model !in Keys(directPricing) ==> r.None?
    {
      match Lookup(directPricing, model)
      case None => None
      case Some(qs) =>
        match Lookup(qs, quality)
        case None => None
        case Some(ps) =>
          match Lookup(ps, size)
          case None => None
          case Some(p) => if p != 0.0 then Some(p) else None
    }

    /** `getChatTokens`: the table entry, or null for an unknown quality or size, or a zero count. */
    function ChatTokens(quality: string, size: string): (r: Option<int>)
      ensures r.Some? ==> r.value != 0
      ensures r.Some? ==> exists ps :: (quality, ps) in chatTokens && (size, r.value) in ps
      ensures quality !in Keys(chatTokens) ==> r.None?
    {
      match Lookup(chatTokens, quality)
      case None => None
      case Some(ps) =>
        match Lookup(ps, size)
        case None => None
        case Some(n) => if n != 0 then Some(n) else None
    }

    /** `getChatCost`: the token count times the token price, and null exactly when there is no count. */
    function ChatCost(quality: string, size: string): (r: Option<real>)
      ensures r.None? <==> ChatTokens(quality, size).None?
      ensures r.Some? ==> r.value == ChatTokens(quality, size).value as real * tokenPrice
    {
      match Lookup(chatTokens, quality)
      case None => None
      case Some(ps) =>
        match Lookup(ps, size)
        case None => None
        case Some(n) => if n == 0 then None else Some(n as real * tokenPrice)
    }

    /** What `getAvailableSizes(model, quality)` returns: for a truthy quality, that quality's
        size keys; otherwise every size of the model once, in the order first met. */
    function AvailableSizes(model: string, quality: Option<string>): (sizes: seq<string>)
    {
      match Lookup(directPricing, model)
      case None => []
      case Some(qs) =>
        if Truthy(quality) then
          match Lookup(qs, quality.value)
          case None => []
          case Some(ps) => Keys(ps)
        else Distinct(AllSizeKeys(qs))
    }

    /** `getAvailableSizes`: with no quality, the nested walk over the model's qualities and
        their sizes adds each size to an insertion-ordered set. */
    method GetAvailableSizes(model: string, quality: Option<string>) returns (sizes: seq<string>)
      ensures sizes == AvailableSizes(model, quality)
    {
      var modelPricing := Lookup(directPricing, model);
      if modelPricing.None? {
        return [];
      }
      var qs := modelPricing.value;
      if Truthy(quality) {
        var qualityPricing := Lookup(qs, quality.value);
        return if qualityPricing.Some? then Keys(qualityPricing.value) else [];
      }
      sizes := CollectSizes(qs);
    }

    /** The outer walk: every size of every quality, once each, in the order first met. */
    static method CollectSizes(qs: Table<Table<real>>) returns (sizes: seq<string>)
      ensures sizes == Distinct(AllSizeKeys(qs))
    {
      sizes := [];
      ghost var met: seq<string> := [];
      for i := 0 to |qs|
        invariant met == AllSizeKeys(qs[..i])
        invariant sizes == Distinct(met)
      {
        AllSizeKeysPrefix(qs, i);
        sizes := AddEach(sizes, Keys(qs[i].1), met);
        met := met + Keys(qs[i].1);
      }
      assert qs[..|qs|] == qs;
    }

    /** The inner walk: adds each of `keys` to the set `sizes` of the sizes already met. */
    static method AddEach(sizes: seq<string>, keys: seq<string>, ghost met: seq<string>) returns (r: seq<string>)
      requires sizes == Distinct(met)
      ensures r == Distinct(met + keys)
    {
      r := sizes;
      assert met + keys[..0] == met;
      for j := 0 to |keys|
        invariant r == Distinct(met + keys[..j])
      {
        DistinctStep(met, keys, j);
        if keys[j] !in r {
          r := r + [keys[j]];
        }
      }
      assert keys[..|keys|] == keys;
    }

    /** `getDirectCost` gives a price exactly when the table lists one for the model, the
        quality and the size, and then it gives that price. */
    lemma DirectCostListed(model: string, quality: string, size: string, price: real)
      requires WellFormed()
      ensures DirectCost(model, quality, size) == Some(price) <==> Listed(directPricing, model, quality, size, price)
    {
      if Listed(directPricing, model, quality, size, price) {
        var qs, ps :| (model, qs) in directPricing && (quality, ps) in qs && (size, price) in ps;
        var i :| 0 <= i < |directPricing| && directPricing[i] == (model, qs);
        var j :| 0 <= j < |qs| && qs[j] == (quality, ps);
        var k :| 0 <= k < |ps| && ps[k] == (size, price);
        LookupUnique(directPricing, model, qs);
        LookupUnique(qs, quality, ps);
        LookupUnique(ps, size, price);
      }
    }

    /** `getChatTokens` gives a count exactly when the chat table lists one for the quality
        and the size, and then it gives that count. */
    lemma ChatTokensListed(quality: string, size: string, tokens: int)
      requires ChatWellFormed(chatTokens)
      ensures ChatTokens(quality, size) == Some(tokens) <==> ChatListed(chatTokens, quality, size, tokens)
    {
      if ChatListed(chatTokens, quality, size, tokens) {
        var ps :| (quality, ps) in chatTokens && (size, tokens) in ps;
        var j :| 0 <= j < |chatTokens| && chatTokens[j] == (quality, ps);
        var k :| 0 <= k < |ps| && ps[k] == (size, tokens);
        LookupUnique(chatTokens, quality, ps);
        LookupUnique(ps, size, tokens);
      }
    }

    /** Every size `getAvailableSizes` offers for a model and quality has a price. */
    lemma OfferedSizesPriced(model: string, quality: string, size: string)
      requires WellFormed() && quality != "" && size in AvailableSizes(model, Some(quality))
      ensures DirectCost(model, quality, size).Some?
    {
      var qs: Table<Table<real>> := Lookup(directPricing, model).value;
      var ps: Table<real> := Lookup(qs, quality).value;
      var i :| 0 <= i < |directPricing| && directPricing[i] == (model, qs);
      var j :| 0 <= j < |qs| && qs[j] == (quality, ps);
      var k: int :| 0 <= k < |ps| && ps[k].0 == size;
      LookupUnique(ps, size, ps[k].1);
    }

    /** Without a quality, `getAvailableSizes` offers exactly the sizes some quality of the
        model prices. */
    lemma AllSizesOffered(model: string, size: string)
      requires WellFormed() && model in Keys(directPricing)
      ensures size in AvailableSizes(model, None) <==> OfferedIn(Lookup(directPricing, model).value, size)
    {
      AllSizeKeysMembers(Lookup(directPricing, model).value, size);
    }

    /** Chat images have no "auto" quality: neither tokens nor a cost. */
    lemma NoAutoChatQuality(size: string)
      requires Standard()
      ensures ChatTokens("auto", size).None? && ChatCost("auto", size).None?
    {
      assert Keys(chatTokens) == ["low", "medium", "high"];
    }

    /** A low-quality square chat image costs 272 tokens, that is $0.00272. */
    lemma LowSquareChatCost(quality: string, size: string)
      requires Standard() && quality == "low" && size == "1024x1024"
      ensures ChatTokens(quality, size) == Some(272) && ChatCost(quality, size) == Some(0.00272)
    {
    }

    /** `getAvailableQualities`: the model's quality keys, or none for an unknown model. */
    function AvailableQualities(model: string): (qualities: seq<string>)
      ensures model !in Keys(directPricing) ==> qualities == []
      ensures model in Keys(directPricing) ==>
        exists qs :: (model, qs) in directPricing && qualities == Keys(qs)
    {
      match Lookup(directPricing, model)
      case None => []
      case Some(qs) => Keys(qs)
    }
  }

  /** The keys of a model's table are distinct, and so are the size keys of each quality. */
  predicate DistinctKeys2(qs: Table<Table<real>>) {
    NoDup(Keys(qs)) && forall j :: 0 <= j < |qs| ==> NoDup(Keys(qs[j].1))
  }

  /** No price of a model's table is zero, so no entry reads as falsy. */
  predicate NonZero2(qs: Table<Table<real>>) {
    forall j, k :: 0 <= j < |qs| && 0 <= k < |qs[j].1| ==> qs[j].1[k].1 != 0.0
  }

  predicate DistinctKeys3(t: Table<Table<Table<real>>>) {
    NoDup(Keys(t)) && forall i :: 0 <= i < |t| ==> DistinctKeys2(t[i].1)
  }

  predicate NonZero3(t: Table<Table<Table<real>>>) {
    forall i :: 0 <= i < |t| ==> NonZero2(t[i].1)
  }

  lemma GptImage1WellFormed()
    ensures DistinctKeys2(GptImage1Prices) && NonZero2(GptImage1Prices)
  {
    GptImage1DistinctKeys();
  }

  lemma GptImage1DistinctKeys()
    ensures DistinctKeys2(GptImage1Prices)
  {
    GptImage1QualityKeys();
    var qs := GptImage1Prices;
    forall j | 0 <= j < |qs| ensures NoDup(Keys(qs[j].1)) {
      assert Keys(qs[j].1) == ["1024x1024", "1024x1536", "1536x1024"];
    }
  }

  lemma GptImage1QualityKeys()
    ensures NoDup(Keys(GptImage1Prices))
  {
    assert Keys(GptImage1Prices) == ["low", "medium", "high", "auto"];
  }

  lemma DallE3WellFormed()
    ensures DistinctKeys2(DallE3Prices) && NonZero2(DallE3Prices)
  {
    DallE3DistinctKeys();
  }

  lemma DallE3DistinctKeys()
    ensures DistinctKeys2(DallE3Prices)
  {
  }

  lemma DallE2WellFormed()
    ensures DistinctKeys2(DallE2Prices) && NonZero2(DallE2Prices)
  {
    DallE2DistinctKeys();
  }

  lemma DallE2DistinctKeys()
    ensures DistinctKeys2(DallE2Prices)
  {
  }

  lemma DirectPricingWellFormed()
    ensures DistinctKeys3(DirectPricing) && NonZero3(DirectPricing)
  {
    GptImage1WellFormed();
    DallE3WellFormed();
    DallE2WellFormed();
  }

  /** The chat table has distinct keys at both levels and no zero count. */
  predicate ChatWellFormed(t: Table<Table<int>>) {
    && NoDup(Keys(t))
    && (forall j :: 0 <= j < |t| ==> NoDup(Keys(t[j].1)))
    && (forall j, k :: 0 <= j < |t| && 0 <= k < |t[j].1| ==> t[j].1[k].1 != 0)
  }

  lemma ChatTokenTableWellFormed()
    ensures ChatWellFormed(ChatTokenTable)
  {
    ChatQualityKeys();
    ChatSizeKeys();
  }

  lemma ChatQualityKeys()
    ensures NoDup(Keys(ChatTokenTable))
  {
    assert Keys(ChatTokenTable) == ["low", "medium", "high"];
  }

  lemma ChatSizeKeys()
    ensures forall j :: 0 <= j < |ChatTokenTable| ==> NoDup(Keys(ChatTokenTable[j].1))
  {
    var t := ChatTokenTable;
    forall j | 0 <= j < |t| ensures NoDup(Keys(t[j].1)) {
      assert Keys(t[j].1) == ["1024x1024", "1024x1536", "1536x1024"];
    }
  }

  /** The quality and size have a token count in the chat table. */
  ghost predicate ChatListed(t: Table<Table<int>>, quality: string, size: string, tokens: int) {
    exists ps :: (quality, ps) in t && (size, tokens) in ps
  }

  /** The model, quality and size have a price in the table. */
  ghost predicate Listed(t: Table<Table<Table<real>>>, model: string, quality: string, size: string, price: real) {
    exists qs, ps :: (model, qs) in t && (quality, ps) in qs && (size, price) in ps
  }

  /** `formatPrice`: "N/A" for a missing price; otherwise a dollar amount whose digits come from
      `toFixed` (the rendering of a number with a given count of decimals), in thousandths with
      a trailing "k" below 0.001, with four decimals below 0.01 and with three above. */
  function FormatPrice(price: Option<real>, toFixed: (real, nat) -> string): (r: string)
    ensures r == "N/A" <==> price.None?
    ensures price.Some? ==> |r| > 0 && r[0] == '$'
  {
    if price.None? then "N/A"
    else
      var r := if price.value < 0.001 then "$" + toFixed(price.value * 1000.0, 3) + "k"
               else if price.value < 0.01 then "$" + toFixed(price.value, 4)
               else "$" + toFixed(price.value, 3);
      assert r[0] == '$';
      r
  }

  /** `formatTokens`: "N/A" for a missing count; a count below 1000 in decimal followed by
      " tokens"; a larger one in thousands with one decimal from `toFixed`, followed by "k tokens". */
  function FormatTokens(tokens: Option<int>, toFixed: (real, nat) -> string): (r: string)
    ensures r == "N/A" <==> tokens.None?
    ensures tokens.Some? && tokens.value < 1000 ==> r == IntToString(tokens.value) + " tokens"
  {
    if tokens.None? then "N/A"
    else if tokens.value >= 1000 then
      var r := toFixed(tokens.value as real / 1000.0, 1) + "k tokens";
      assert r[|r| - 1] == 's';
      r
    else
      var r := IntToString(tokens.value) + " tokens";
      assert r[|r| - 1] == 's';
      r
  }

  /** A count below 1000 and not negative is shown as its decimal digits, which read back as
      the count, followed by " tokens". */
  lemma SmallTokensReadBack(n: int, toFixed: (real, nat) -> string)
    requires 0 <= n < 1000
    ensures var r := FormatTokens(Some(n), toFixed);
      && |r| > 7 && r[|r| - 7..] == " tokens"
      && DecimalValue(r[..|r| - 7]) == n
  {
    var r := FormatTokens(Some(n), toFixed);
    assert r == NatToString(n) + " tokens";
    assert r[..|r| - 7] == NatToString(n);
    NatToStringValue(n);
  }
}
