// cmd/phone-trial-bridge/owner_cost.go: what one model response costs, from usage that
// may be reported only in part. Prices are dollars per million tokens.
module OwnerPricing {
  import opened Prelude

  const TEXT_IN := 0.60
  const TEXT_IN_CACHED := 0.06
  const AUDIO_IN := 10.00
  const AUDIO_IN_CACHED := 0.30
  const IMAGE_IN := 0.80
  const IMAGE_IN_CACHED := 0.08
  const TEXT_OUT := 2.40
  const AUDIO_OUT := 20.00
  const MILLION := 1000000.0

  const REPLY_TOKENS: nat := 1024
  const GOODBYE_TOKENS: nat := 160
  const CONTEXT_TOKENS: nat := 6000

  // A detail is None when it is missing, negative or not a whole number.
  datatype Usage = Usage(
    input: nat, output: nat,
    text: Option<nat>, audio: Option<nat>,
    cached: Option<nat>, cachedText: Option<nat>, cachedAudio: Option<nat>,
    textOut: Option<nat>, audioOut: Option<nat>)

  // What the model really processed.
  datatype Split = Split(
    text: nat, audio: nat, image: nat,
    cachedText: nat, cachedAudio: nat, cachedImage: nat,
    textOut: nat, audioOut: nat)

  predicate Possible(t: Split) {
    t.cachedText <= t.text && t.cachedAudio <= t.audio && t.cachedImage <= t.image
  }

  predicate Agrees(reported: Option<nat>, actual: nat) { reported.Some? ==> reported.value == actual }

  // Every detail that is reported is true.
  predicate Consistent(u: Usage, t: Split) {
    && Possible(t)
    && u.input == t.text + t.audio + t.image && u.output == t.textOut + t.audioOut
    && Agrees(u.text, t.text) && Agrees(u.audio, t.audio)
    && Agrees(u.cached, t.cachedText + t.cachedAudio + t.cachedImage)
    && Agrees(u.cachedText, t.cachedText) && Agrees(u.cachedAudio, t.cachedAudio)
    && Agrees(u.textOut, t.textOut) && Agrees(u.audioOut, t.audioOut)
  }

  function TrueCost(t: Split): real
    requires Possible(t)
  {
    (t.cachedText as real * TEXT_IN_CACHED + (t.text - t.cachedText) as real * TEXT_IN
     + t.cachedAudio as real * AUDIO_IN_CACHED + (t.audio - t.cachedAudio) as real * AUDIO_IN
     + t.cachedImage as real * IMAGE_IN_CACHED + (t.image - t.cachedImage) as real * IMAGE_IN
     + t.textOut as real * TEXT_OUT + t.audioOut as real * AUDIO_OUT) / MILLION
  }

  // ----- ownerUsageCostUSD -----

  predicate KindsKnown(u: Usage) { u.text.Some? && u.audio.Some? && u.text.value + u.audio.value <= u.input }

  function Discounted(input: nat, text: nat, audio: nat, cachedText: nat, cachedAudio: nat): real
    requires cachedText <= text && cachedAudio <= audio && text + audio <= input
  {
    cachedText as real * TEXT_IN_CACHED + (text - cachedText) as real * TEXT_IN
    + cachedAudio as real * AUDIO_IN_CACHED + (audio - cachedAudio) as real * AUDIO_IN
    + (input - text - audio) as real * AUDIO_IN
  }

  // Input price in dollars per million, and the cached tokens it discounted.
  function InputCost(u: Usage): (real, nat) {
    if KindsKnown(u) && u.cachedText.Some? && u.cachedAudio.Some?
       && u.cachedText.value <= u.text.value && u.cachedAudio.value <= u.audio.value
    then
      (Discounted(u.input, u.text.value, u.audio.value, u.cachedText.value, u.cachedAudio.value),
       u.cachedText.value + u.cachedAudio.value)
    else if KindsKnown(u) && u.cached.Some? && u.cached.value <= u.text.value + u.audio.value
    then
      var fromText := if u.cached.value <= u.text.value then u.cached.value else u.text.value;
      (Discounted(u.input, u.text.value, u.audio.value, fromText, u.cached.value - fromText), u.cached.value)
    else if KindsKnown(u) then
      (u.text.value as real * TEXT_IN + u.audio.value as real * AUDIO_IN
       + (u.input - u.text.value - u.audio.value) as real * AUDIO_IN, 0)
    else if u.cached.Some? && u.cached.value <= u.input
    then (u.cached.value as real * AUDIO_IN_CACHED + (u.input - u.cached.value) as real * AUDIO_IN, u.cached.value)
    else (u.input as real * AUDIO_IN, 0)
  }

  function OutputCost(u: Usage): real {
    if u.textOut.Some? && u.audioOut.Some? && u.textOut.value + u.audioOut.value <= u.output
    then u.textOut.value as real * TEXT_OUT + u.audioOut.value as real * AUDIO_OUT
         + (u.output - u.textOut.value - u.audioOut.value) as real * AUDIO_OUT
    else u.output as real * AUDIO_OUT
  }

  function UsageCost(u: Usage): real { (InputCost(u).0 + OutputCost(u)) / MILLION }

  function CachedCount(u: Usage): nat { InputCost(u).1 }

  // The text tokens priced as text, and the discounted tokens of each kind.
  function TextKnown(u: Usage): nat { if KindsKnown(u) then u.text.value else 0 }

  predicate SplitKnown(u: Usage) {
    && KindsKnown(u) && u.cachedText.Some? && u.cachedAudio.Some?
    && u.cachedText.value <= u.text.value && u.cachedAudio.value <= u.audio.value
  }

  function FromText(u: Usage): nat {
    if SplitKnown(u) then u.cachedText.value
    else if CachedCount(u) <= TextKnown(u) then CachedCount(u) else TextKnown(u)
  }

  function FromAudio(u: Usage): nat {
    if SplitKnown(u) then u.cachedAudio.value
    else if CachedCount(u) <= TextKnown(u) then 0 else CachedCount(u) - TextKnown(u)
  }

  // The price is at most every token at the audio rate, and the cached count is exactly
  // the tokens that were charged less.
  lemma CachedCountIsTheDiscount(u: Usage)
    ensures FromText(u) + FromAudio(u) == CachedCount(u) <= u.input
    ensures FromText(u) <= TextKnown(u) && FromAudio(u) + TextKnown(u) <= u.input
    ensures InputCost(u).0 == u.input as real * AUDIO_IN - TextKnown(u) as real * (AUDIO_IN - TEXT_IN)
                              - FromText(u) as real * (TEXT_IN - TEXT_IN_CACHED) - FromAudio(u) as real * (AUDIO_IN - AUDIO_IN_CACHED)
    ensures 0.0 <= UsageCost(u) <= (u.input as real * AUDIO_IN + u.output as real * AUDIO_OUT) / MILLION
  {
  }

  // Whatever is left unreported, the price charged is at least the true price.
  lemma NeverUndercounts(u: Usage, t: Split)
    requires Consistent(u, t)
    ensures TrueCost(t) <= UsageCost(u)
  {
    hide InputCost;
    CachedCountIsTheDiscount(u);
    CountCases(u);
  }

  // Details come in pairs, and cached ones only with the ones they are part of.
  predicate InPairs(u: Usage) {
    && (u.text.Some? <==> u.audio.Some?) && (u.cachedText.Some? <==> u.cachedAudio.Some?)
    && (u.cachedText.Some? ==> u.text.Some?) && (u.textOut.Some? <==> u.audioOut.Some?)
  }

  // The split that costs most of those a report u leaves possible, without images.
  function Dearest(u: Usage, t: Split): Split {
    var out := if u.textOut.Some? then t else t.(textOut := 0, audioOut := u.output);
    if u.text.None? then out.(text := 0, audio := u.input, cachedText := 0, cachedAudio := if u.cached.Some? then u.cached.value else 0)
    else if u.cachedText.Some? then out
    else if u.cached.Some? then
      var fromText := if u.cached.value <= t.text then u.cached.value else t.text;
      out.(cachedText := fromText, cachedAudio := if u.cached.value <= t.text then 0 else u.cached.value - t.text)
    else out.(cachedText := 0, cachedAudio := 0)
  }

  // And no lower price would be safe: for a call without images, some split that agrees with
  // what was reported costs exactly what is charged.
  lemma PriceIsReached(u: Usage, t: Split)
    requires Consistent(u, t) && t.image == 0 && InPairs(u)
    ensures Consistent(u, Dearest(u, t)) && TrueCost(Dearest(u, t)) == UsageCost(u)
  {
    hide InputCost, OutputCost, Dearest;
    DearestAgrees(u, t);
    DearestInput(u, t, Dearest(u, t));
    DearestOutput(u, t, Dearest(u, t));
  }

  lemma DearestInput(u: Usage, t: Split, d: Split)
    requires Consistent(u, t) && t.image == 0 && InPairs(u) && d == Dearest(u, t) && Possible(d)
    ensures d.image == d.cachedImage == 0
    ensures InputCost(u).0 == d.cachedText as real * TEXT_IN_CACHED + (d.text - d.cachedText) as real * TEXT_IN
                              + d.cachedAudio as real * AUDIO_IN_CACHED + (d.audio - d.cachedAudio) as real * AUDIO_IN
  {
  }

  lemma DearestOutput(u: Usage, t: Split, d: Split)
    requires Consistent(u, t) && InPairs(u) && d == Dearest(u, t)
    ensures OutputCost(u) == d.textOut as real * TEXT_OUT + d.audioOut as real * AUDIO_OUT
  {
  }

  lemma DearestAgrees(u: Usage, t: Split)
    requires Consistent(u, t) && t.image == 0 && InPairs(u)
    ensures Consistent(u, Dearest(u, t))
  {
  }

  lemma CountCases(u: Usage)
    ensures CachedCount(u) ==
            if SplitKnown(u) then u.cachedText.value + u.cachedAudio.value
            else if u.cached.None? then 0
            else if KindsKnown(u) then if u.cached.value <= u.text.value + u.audio.value then u.cached.value else 0
            else if u.cached.value <= u.input then u.cached.value else 0
  {
  }

  // With every detail reported and no image, it is the true price.
  lemma ExactWhenReported(u: Usage, t: Split)
    requires Consistent(u, t) && t.image == 0
    requires u.text.Some? && u.audio.Some? && u.cachedText.Some? && u.cachedAudio.Some? && u.textOut.Some? && u.audioOut.Some?
    ensures TrueCost(t) == UsageCost(u) && CachedCount(u) == t.cachedText + t.cachedAudio
  {
  }

  predicate Omits(v: Option<nat>, u: Option<nat>) { v.None? || v == u }

  // v reports no more than u does.
  predicate ReportsLess(v: Usage, u: Usage) {
    && v.input == u.input && v.output == u.output
    && Omits(v.text, u.text) && Omits(v.audio, u.audio)
    && Omits(v.cached, u.cached) && Omits(v.cachedText, u.cachedText) && Omits(v.cachedAudio, u.cachedAudio)
    && Omits(v.textOut, u.textOut) && Omits(v.audioOut, u.audioOut)
  }

  // Dollars per million that the price takes off the audio rate for the input.
  function Saving(text: nat, fromText: nat, fromAudio: nat): real {
    text as real * (AUDIO_IN - TEXT_IN) + fromText as real * (TEXT_IN - TEXT_IN_CACHED)
    + fromAudio as real * (AUDIO_IN - AUDIO_IN_CACHED)
  }

  function Charged(u: Usage): real { Saving(TextKnown(u), FromText(u), FromAudio(u)) }

  // What a full report must satisfy, in the counts it reports, for its omissions to be safe:
  // cached tokens of no reported kind, extra, must not outweigh what the kinds already save.
  // Weights are cents per million: 940 for text, 54 and 970 for cached text and audio.
  predicate TotalsAddNothing(u: Usage) {
    KindsKnown(u) && u.cached.Some? ==>
      var text, audio, cached := u.text.value, u.audio.value, u.cached.value;
      if !SplitKnown(u) then cached <= text + audio
      else
        var cachedText, cachedAudio := u.cachedText.value, u.cachedAudio.value;
        var extra := cached - cachedText - cachedAudio;
        if cached <= text then 54 * extra <= 916 * cachedAudio && 916 * cachedText + 970 * extra <= 940 * text
        else if cached <= text + audio then 916 * cachedText + 970 * extra <= 916 * text
        else 916 * cachedText + 970 * extra <= 940 * text
  }

  // It says that the cached total, alone or taken from text first, saves no more than was charged.
  lemma TotalsCompared(u: Usage, t: Split)
    requires Consistent(u, t)
    ensures TotalsAddNothing(u) <==> (
      KindsKnown(u) && u.cached.Some? ==>
        && Saving(0, 0, u.cached.value) <= Charged(u)
        && (u.cached.value <= u.text.value + u.audio.value ==>
              var fromText := if u.cached.value <= u.text.value then u.cached.value else u.text.value;
              Saving(u.text.value, fromText, u.cached.value - fromText) <= Charged(u)))
  {
    CountCases(u);
  }

  // Leaving out true details never lowers the price if and only if that holds.
  lemma OmittingIsSafeExactly(u: Usage, t: Split)
    requires Consistent(u, t)
    ensures (forall v :: ReportsLess(v, u) ==> UsageCost(u) <= UsageCost(v)) <==> TotalsAddNothing(u)
  {
    if TotalsAddNothing(u) {
      forall v | ReportsLess(v, u)
        ensures UsageCost(u) <= UsageCost(v)
      {
        LessSaves(u, v, t);
      }
    } else {
      var v := TotalOnly(u, t);
      assert ReportsLess(v, u);
    }
  }

  // Without the text count, or without the cached split, the price is lower.
  lemma TotalOnly(u: Usage, t: Split) returns (v: Usage)
    requires Consistent(u, t) && !TotalsAddNothing(u)
    ensures ReportsLess(v, u) && UsageCost(v) < UsageCost(u)
  {
    hide InputCost, CachedCount, TotalsAddNothing;
    TotalsCompared(u, t);
    v := if Saving(0, 0, u.cached.value) > Charged(u) then u.(text := None) else u.(cachedText := None);
    CachedCountIsTheDiscount(u);
    CachedCountIsTheDiscount(v);
    CountCases(v);
  }

  lemma LessSaves(u: Usage, v: Usage, t: Split)
    requires Consistent(u, t) && ReportsLess(v, u) && TotalsAddNothing(u)
    ensures UsageCost(u) <= UsageCost(v)
  {
    hide InputCost, OutputCost, TotalsAddNothing;
    TotalsCompared(u, t);
    OmittingKeepsOutput(u, v, t);
    CachedCountIsTheDiscount(u);
    CachedCountIsTheDiscount(v);
    CountCases(u);
    CountCases(v);
  }

  // Leaving out details never makes a call without images cheaper.
  lemma OmittingNeverLowers(u: Usage, v: Usage, t: Split)
    requires Consistent(u, t) && t.image == 0 && ReportsLess(v, u)
    ensures UsageCost(u) <= UsageCost(v)
  {
    hide UsageCost;
    CountCases(u);
    assert TotalsAddNothing(u);
    OmittingIsSafeExactly(u, t);
  }

  lemma OmittingKeepsOutput(u: Usage, v: Usage, t: Split)
    requires Consistent(u, t) && ReportsLess(v, u)
    ensures OutputCost(u) <= OutputCost(v)
  {
  }

  // With cached images it can: the cached total is then taken from text and audio that were not cached.
  lemma ImagesBreakMonotonicity()
    ensures
      var t := Split(100, 100, 100, 0, 100, 100, 0, 0);
      var u := Usage(300, 0, Some(100), Some(100), Some(200), Some(0), Some(100), None, None);
      var v := u.(cachedText := None);
      Consistent(u, t) && ReportsLess(v, u) && UsageCost(v) < UsageCost(u) && TrueCost(t) < UsageCost(v)
  {
  }

  // ----- ownerReserveUSD -----

  // Input tokens one response may be given: the context cap, and the instructions and
  // tool manifest at three characters a token.
  function ContextTokens(chars: nat): nat { CONTEXT_TOKENS + (chars + 2) / 3 }

  function Reserve(chars: nat, tokens: nat): real {
    (ContextTokens(chars) as real * AUDIO_IN + tokens as real * AUDIO_OUT) / MILLION
  }

  // A response within its token allowance is priced within its reserve, however it is reported.
  lemma ReserveCovers(u: Usage, chars: nat, tokens: nat)
    requires u.input <= ContextTokens(chars) && u.output <= tokens
    ensures 0.0 <= UsageCost(u) <= Reserve(chars, tokens)
  {
    CachedCountIsTheDiscount(u);
  }
}
