/**
 * The format and sample-rate selector: the rate list shown for a format, the effect
 * that replaces a rate the format does not allow by the format's default, and the
 * guards that ignore clicks while the form is disabled.
 */
module FormatSelector {
  import opened Wrappers
  import Config

  /**
   * The parent's sample rate once the effect has run: kept if allowed, else the default.
   * A supported format always ends with one of its allowed rates; any other format
   * with `undefined`.
   */
  function CoercedRate(format: string, rate: Option<int>): (r: Option<int>)
    ensures rate.Some? && rate.value in Config.RatesFor(format) ==> r == rate
    ensures !(rate.Some? && rate.value in Config.RatesFor(format)) ==> r == Config.DefaultRateFor(format)
    ensures r.Some? <==> format in Config.SupportedFormats
    ensures r.Some? ==> r.value in Config.RatesFor(format)
  {
    if rate.Some? && rate.value in Config.RatesFor(format) then rate else Config.DefaultRateFor(format)
  }

  /** Running the effect on its own result changes nothing, for any format. */
  lemma CoercedRateIdempotent(format: string, rate: Option<int>)
    ensures CoercedRate(format, CoercedRate(format, rate)) == CoercedRate(format, rate)
  {
  }

  /** An unknown format has no rates, so any rate is replaced by `undefined`. */
  lemma UnknownFormatClearsRate(format: string, rate: Option<int>)
    requires format !in Config.SupportedFormats
    ensures Config.RatesFor(format) == [] && CoercedRate(format, rate) == None
  {
  }

  /** Line 83: a rate is marked recommended when it is the format's default. */
  function IsRecommended(format: string, rate: int): (recommended: bool)
    ensures recommended <==> format in Config.SupportedFormats && rate == Config.DefaultSampleRates[format]
  {
    Config.DefaultRateFor(format) == Some(rate)
  }

  /** Exactly one offered rate is recommended for a supported format, none for another. */
  lemma OneRecommendedRate(format: string)
    ensures format in Config.SupportedFormats ==>
              (set r | r in Config.RatesFor(format) && IsRecommended(format, r)) == {Config.DefaultSampleRates[format]}
    ensures format !in Config.SupportedFormats ==>
              (set r | r in Config.RatesFor(format) && IsRecommended(format, r)) == {}
  {
  }

  /** Line 62: a click on a format reaches `onFormatChange` unless the selector is disabled. */
  function FormatClick(disabled: bool, format: string): (change: Option<string>)
    ensures change.Some? <==> !disabled
    ensures change.Some? ==> change.value == format
  {
    if disabled then None else Some(format)
  }

  /** Line 78: the rate list is disabled with the form, or when there is no choice to make. */
  function RateSelectDisabled(disabled: bool, rates: seq<int>): (locked: bool)
    ensures !disabled && |rates| >= 2 ==> !locked
    ensures disabled || |rates| <= 1 ==> locked
  {
    disabled || |rates| <= 1
  }

  /** The opus list never offers a choice; every other supported format does. */
  lemma OnlyOpusRateLocked(format: string)
    requires format in Config.SupportedFormats
    ensures RateSelectDisabled(false, Config.RatesFor(format)) <==> format == "opus"
  {
  }

  /** The component's `sampleRates` state. */
  class Selector {
    var sampleRates: seq<int>

    /** Line 17-19: the initial list for the initial format. */
    constructor (formatValue: string)
      ensures sampleRates == Config.RatesFor(formatValue)
    {
      sampleRates := Config.RatesFor(formatValue);
    }

    /**
     * Lines 22-32: the effect run when the format or rate changes. `rateChange` is the
     * call to `onSampleRateChange`, if the effect makes one, with its argument.
     */
    method Effect(formatValue: string, sampleRateValue: Option<int>) returns (rateChange: Option<Option<int>>)
      modifies this
      ensures sampleRates == Config.RatesFor(formatValue)
      ensures rateChange.None? <==> sampleRateValue.Some? && sampleRateValue.value in sampleRates
      ensures rateChange.Some? ==> rateChange.value == Config.DefaultRateFor(formatValue)
      ensures (if rateChange.Some? then rateChange.value else sampleRateValue)
              == CoercedRate(formatValue, sampleRateValue)
    {
      var available := Config.RatesFor(formatValue);
      sampleRates := available;
      var defaultRate := Config.DefaultRateFor(formatValue);
      if !(sampleRateValue.Some? && sampleRateValue.value in available) {
        rateChange := Some(defaultRate);
      } else {
        rateChange := None;
      }
    }
  }
}
