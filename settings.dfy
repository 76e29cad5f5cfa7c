/** The configuration container (`SettingsManager` in
    voicekeyboard/settings.py). Its attributes are modelled as the instance
    dictionary: a map from attribute name to a value tagged with its Python
    type. `load` receives the already-parsed `[Configuration]` section as a
    list of (key, string) pairs; `save` produces the strings it would write. */
module Settings {

  import opened Options

  /** A setting's value, tagged with its Python type. */
  datatype Value = BoolV(b: bool) | IntV(i: int) | FloatV(r: real) | StrV(s: string) | NoneV

  /** Outcome of reading the settings file: unreadable (missing or
      malformed), or parsed with or without a `[Configuration]` section. */
  datatype ConfigFile = Unreadable | Parsed(configuration: Option<seq<(string, string)>>)

  /** What applying the file's items produced; `failed` when a conversion
      raised part-way. */
  datatype Applied = Applied(attrs: map<string, Value>, failed: bool)

  // ---------------------------------------------------------------------
  // Strings and integers as Python treats them

  predicate IsDigit(c: char) { '0' <= c <= '9' }

  predicate IsWhitespace(c: char)
  {
    || c == ' ' || c == '\t' || c == '\n' || c == '\r' || c as int == 11 || c as int == 12
    || 28 <= c as int <= 31  // the ASCII file, group, record and unit separators
  }

  function LowerChar(c: char): char
  {
    if 'A' <= c <= 'Z' then (c as int - 'A' as int + 'a' as int) as char else c
  }

  /** `str.lower()` on ASCII letters. */
  function Lower(s: string): (r: string)
    ensures |r| == |s|
  {
    if s == [] then [] else [LowerChar(s[0])] + Lower(s[1..])
  }

  function TrimStart(s: string): string
  {
    if s != [] && IsWhitespace(s[0]) then TrimStart(s[1..]) else s
  }

  function TrimEnd(s: string): string
  {
    if s != [] && IsWhitespace(s[|s| - 1]) then TrimEnd(s[..|s| - 1]) else s
  }

  /** Digits with single underscores between them, as `int()` accepts. */
  predicate WellFormedDigits(s: string)
  {
    && |s| > 0 && IsDigit(s[0]) && IsDigit(s[|s| - 1])
    && (forall i :: 0 <= i < |s| ==> IsDigit(s[i]) || s[i] == '_')
    && (forall i :: 0 <= i < |s| - 1 ==> s[i] == '_' ==> s[i + 1] != '_')
  }

  /** The decimal value of the digits of `s`, underscores skipped. */
  function DigitsValue(s: string): nat
  {
    if s == [] then 0
    else if IsDigit(s[|s| - 1]) then 10 * DigitsValue(s[..|s| - 1]) + (s[|s| - 1] as int - '0' as int)
    else DigitsValue(s[..|s| - 1])
  }

  /** `int(s)` for a string: surrounding whitespace, an optional sign and
      well-formed decimal digits; anything else raises (`None`). A string
      that is empty or all whitespace raises, and only a leading '-' gives a
      negative number. */
  function ParseInt(s: string): (r: Option<int>)
    ensures r.Some? ==> TrimEnd(TrimStart(s)) != []
    ensures r.Some? && r.value < 0 ==> TrimEnd(TrimStart(s))[0] == '-'
  {
    var t := TrimEnd(TrimStart(s));
    if t != [] && (t[0] == '-' || t[0] == '+') then
      if WellFormedDigits(t[1..]) then
        var n: int := DigitsValue(t[1..]);
        Some(if t[0] == '-' then -n else n)
      else None
    else if WellFormedDigits(t) then Some(DigitsValue(t))
    else None
  }

  function DigitChar(d: nat): char
    requires d < 10
  {
    ('0' as int + d) as char
  }

  function NatToDigits(n: nat): string
  {
    if n < 10 then [DigitChar(n)] else NatToDigits(n / 10) + [DigitChar(n % 10)]
  }

  /** `str(i)` for an integer: a '-' exactly for negative numbers, then
      one or more decimal digits. */
  function IntToString(i: int): (r: string)
    ensures |r| > 0 && IsDigit(r[|r| - 1])
    ensures r[0] == '-' <==> i < 0
    ensures forall j :: 0 < j < |r| ==> IsDigit(r[j])
  {
    var n: nat := if i < 0 then -i else i;
    NatToDigitsDigits(n);
    if i < 0 then "-" + NatToDigits(n) else NatToDigits(n)
  }

  lemma {:induction false} NatToDigitsDigits(n: nat)
    ensures |NatToDigits(n)| > 0
    ensures forall i :: 0 <= i < |NatToDigits(n)| ==> IsDigit(NatToDigits(n)[i])
    ensures DigitsValue(NatToDigits(n)) == n
  {
    if n >= 10 {
      NatToDigitsDigits(n / 10);
      var d := NatToDigits(n / 10);
      var s := d + [DigitChar(n % 10)];
      assert s[..|s| - 1] == d;
      assert forall i :: 0 <= i < |s| ==> IsDigit(s[i]) by {
        forall i | 0 <= i < |s| ensures IsDigit(s[i]) {
          if i < |d| { assert s[i] == d[i]; }
        }
      }
    }
  }

  /** Saving an integer and parsing it back gives the integer. */
  lemma ParseIntRoundTrip(i: int)
    ensures ParseInt(IntToString(i)) == Some(i)
  {
    var n: nat := if i < 0 then -i else i;
    NatToDigitsDigits(n);
    var d := NatToDigits(n);
    var s := IntToString(i);
    assert s[|s| - 1] == d[|d| - 1];
    assert !IsWhitespace(s[0]) && !IsWhitespace(s[|s| - 1]);
    assert TrimEnd(TrimStart(s)) == s;
    if i < 0 {
      assert s[1..] == d;
    } else {
      assert s == d;
    }
  }

  // ---------------------------------------------------------------------
  // Python truthiness, `int()` on values, and the value-to-string mapping

  /** `bool(v)`: false exactly for `False`, 0, 0.0, "" and `None`. */
  predicate Truthy(v: Value)
    ensures !Truthy(v) <==> v in {BoolV(false), IntV(0), FloatV(0.0), StrV(""), NoneV}
  {
    match v
    case BoolV(b) => b
    case IntV(i) => i != 0
    case FloatV(r) => r != 0.0
    case StrV(s) => s != ""
    case NoneV => false
  }

  /** `int(r)` for a float: truncation toward zero. */
  function Truncate(r: real): (t: int)
    ensures r >= 0.0 ==> 0 <= t && t as real <= r < t as real + 1.0
    ensures r < 0.0 ==> t <= 0 && t as real - 1.0 < r <= t as real
  {
    if r >= 0.0 then r.Floor else -((-r).Floor)
  }

  /** `int(v)`; `None` where it raises, which only `None` and a string
      that is not an integer literal do. A bool converts to 0 or 1, an int
      to itself and a float toward zero. */
  function PyInt(v: Value): (r: Option<int>)
    ensures r.None? <==> v.NoneV? || (v.StrV? && ParseInt(v.s).None?)
    ensures v.BoolV? ==> r == Some(if v.b then 1 else 0)
    ensures v.IntV? ==> r == Some(v.i)
    ensures v.FloatV? ==> r == Some(Truncate(v.r))
  {
    match v
    case BoolV(b) => Some(if b then 1 else 0)
    case IntV(i) => Some(i)
    case FloatV(r) => Some(Truncate(r))
    case StrV(s) => ParseInt(s)
    case NoneV => None
  }

  /** `str(v)` as `save` writes it; `None` is written as "None". Each
      string reads back: a bool's lowercases to "true" or "false", an int's
      parses to the int, and a string is written as it is. */
  function ToIni(v: Value, formatFloat: real -> string): (r: string)
    ensures v.NoneV? ==> r == "None"
    ensures v.BoolV? ==> Lower(r) == if v.b then "true" else "false"
    ensures v.IntV? ==> ParseInt(r) == Some(v.i)
    ensures v.StrV? ==> r == v.s
    ensures v.FloatV? ==> r == formatFloat(v.r)
  {
    match v
    case BoolV(b) =>
      assert Lower("True") == "true" && Lower("False") == "false";
      if b then "True" else "False"
    case IntV(i) =>
      ParseIntRoundTrip(i);
      IntToString(i)
    case FloatV(r) => formatFloat(r)
    case StrV(s) => s
    case NoneV => "None"
  }

  /** The strings `save` puts in the `[Configuration]` section: one per
      attribute. */
  function Saved(attrs: map<string, Value>, formatFloat: real -> string): (r: map<string, string>)
    ensures r.Keys == attrs.Keys
    ensures forall k :: k in r ==> r[k] == ToIni(attrs[k], formatFloat)
  {
    map k | k in attrs :: ToIni(attrs[k], formatFloat)
  }

  const TruthyWords: set<string> := {"true", "1", "yes"}

  /** The constructor a value belongs to. */
  predicate SameKind(a: Value, b: Value)
  {
    match a
    case BoolV(_) => b.BoolV?
    case IntV(_) => b.IntV?
    case FloatV(_) => b.FloatV?
    case StrV(_) => b.StrV?
    case NoneV => b.NoneV?
  }

  /** The conversion `load` applies to the string `raw` for an attribute
      whose current value is `current`, tried in the source's order: bool,
      int, float, None, anything else. `None` where the conversion raises:
      an int attribute takes `int(raw)` and a float attribute `float(raw)`,
      and only these two conversions can raise; a bool is never parsed as an
      int, and the attribute keeps its type except that a `None` attribute
      may become a string. */
  function Coerce(current: Value, raw: string, parseFloat: string -> Option<real>): (r: Option<Value>)
    ensures r.Some? ==> SameKind(current, r.value) || (current.NoneV? && r.value.StrV?)
    ensures r.None? ==> current.IntV? || current.FloatV?
    ensures current.BoolV? ==> r == Some(BoolV(Lower(raw) in TruthyWords))
    ensures current.NoneV? ==> r == Some(if Lower(raw) == "none" then NoneV else StrV(raw))
    ensures current.StrV? ==> r == Some(StrV(raw))
    ensures current.IntV? ==> r == if ParseInt(raw).Some? then Some(IntV(ParseInt(raw).value)) else None
    ensures current.FloatV? ==> r == if parseFloat(raw).Some? then Some(FloatV(parseFloat(raw).value)) else None
  {
    match current
    case BoolV(_) => Some(BoolV(Lower(raw) in TruthyWords))
    case IntV(_) => (match ParseInt(raw) case Some(i) => Some(IntV(i)) case None => None)
    case FloatV(_) => (match parseFloat(raw) case Some(x) => Some(FloatV(x)) case None => None)
    case NoneV => Some(if Lower(raw) == "none" then NoneV else StrV(raw))
    case StrV(_) => Some(StrV(raw))
  }

  /** The second loop of `load`: items are applied in order to existing
      attributes, unknown keys are skipped, and the first conversion that
      raises stops the loop with the earlier items already applied. An
      attribute that no item names keeps its value. */
  function ApplyItems(attrs: map<string, Value>, items: seq<(string, string)>,
                      parseFloat: string -> Option<real>): (r: Applied)
    ensures r.attrs.Keys == attrs.Keys
    ensures forall k :: k in attrs && (forall i :: 0 <= i < |items| ==> items[i].0 != k) ==>
              r.attrs[k] == attrs[k]
    decreases |items|
  {
    if items == [] then Applied(attrs, false)
    else
      var key := items[0].0;
      if key !in attrs then ApplyItems(attrs, items[1..], parseFloat)
      else match Coerce(attrs[key], items[0].1, parseFloat)
        case None => Applied(attrs, true)
        case Some(v) => ApplyItems(attrs[key := v], items[1..], parseFloat)
  }

  /** Applying `a + b` is applying `a`, then `b` to its result unless a
      conversion in `a` already raised. */
  lemma {:induction false} ApplyItemsConcat(attrs: map<string, Value>, a: seq<(string, string)>,
                                            b: seq<(string, string)>, parseFloat: string -> Option<real>)
    ensures var first := ApplyItems(attrs, a, parseFloat);
            ApplyItems(attrs, a + b, parseFloat) ==
              if first.failed then first else ApplyItems(first.attrs, b, parseFloat)
    decreases |a|
  {
    if a == [] {
      assert a + b == b;
    } else {
      assert (a + b)[0] == a[0] && (a + b)[1..] == a[1..] + b;
      var key := a[0].0;
      if key !in attrs {
        ApplyItemsConcat(attrs, a[1..], b, parseFloat);
      } else {
        match Coerce(attrs[key], a[0].1, parseFloat)
        case None =>
        case Some(v) => ApplyItemsConcat(attrs[key := v], a[1..], b, parseFloat);
      }
    }
  }

  /** A conversion that raises part-way through the items stops `load` with
      the items before it applied and none of the items after it: the result
      is what the earlier items alone produce, marked failed. */
  lemma ApplyItemsFailsPartWay(attrs: map<string, Value>, before: seq<(string, string)>,
                               bad: (string, string), after: seq<(string, string)>,
                               parseFloat: string -> Option<real>)
    requires !ApplyItems(attrs, before, parseFloat).failed
    requires bad.0 in attrs
    requires Coerce(ApplyItems(attrs, before, parseFloat).attrs[bad.0], bad.1, parseFloat).None?
    ensures ApplyItems(attrs, before + [bad] + after, parseFloat) ==
            Applied(ApplyItems(attrs, before, parseFloat).attrs, true)
  {
    ApplyItemsConcat(attrs, before, [bad] + after, parseFloat);
    assert before + [bad] + after == before + ([bad] + after);
    assert ([bad] + after)[0] == bad;
  }

  /** The item that makes the first loop of `load` return early: the file
      asks for defaults ("1", or "true"/"yes" in any case) and the instance
      currently opts in too. */
  function IsDefaultsRequest(attrs: map<string, Value>, item: (string, string)): (r: bool)
    ensures r ==> item.0 == "settingsJustUseDefaults"
    ensures r ==> "settingsJustUseDefaults" in attrs && attrs["settingsJustUseDefaults"] == BoolV(true)
    ensures r ==> Lower(item.1) in TruthyWords
  {
    && item.0 in attrs
    && item.0 == "settingsJustUseDefaults"
    && Lower(item.1) in TruthyWords
    && attrs[item.0] == BoolV(true)
  }

  predicate RequestsDefaults(attrs: map<string, Value>, items: seq<(string, string)>)
  {
    exists i :: 0 <= i < |items| && IsDefaultsRequest(attrs, items[i])
  }

  // ---------------------------------------------------------------------
  // validate

  function Max(a: int, b: int): int { if a >= b then a else b }

  const ValidatedKeys: set<string> :=
    {"windowWidth", "windowHeight", "audioSampleRate", "audioChannels", "whisperLanguage"}

  /** `int(attrs[k])`, `None` when missing or when it raises. */
  function IntAttr(attrs: map<string, Value>, k: string): Option<int>
  {
    if k in attrs then PyInt(attrs[k]) else None
  }

  /** The attributes after `validate`: the window is `int()` of the old
      size raised to at least 50 by 20 (both 200 by 50 when either does not
      convert), the sample rate `int()` of the old one raised to at least
      8000 (16000 when it does not convert), one or two channels, and a
      non-empty language; every other attribute is unchanged. */
  function Validated(attrs: map<string, Value>): (r: map<string, Value>)
    ensures forall k :: k in r <==> k in attrs || k in ValidatedKeys
    ensures r["windowWidth"].IntV? && r["windowWidth"].i >= 50
    ensures r["windowHeight"].IntV? && r["windowHeight"].i >= 20
    ensures IntAttr(attrs, "windowWidth").Some? && IntAttr(attrs, "windowHeight").Some? ==>
              r["windowWidth"] == IntV(Max(50, IntAttr(attrs, "windowWidth").value)) &&
              r["windowHeight"] == IntV(Max(20, IntAttr(attrs, "windowHeight").value))
    ensures r["audioSampleRate"].IntV? && r["audioSampleRate"].i >= 8000
    ensures IntAttr(attrs, "audioSampleRate").Some? ==>
              r["audioSampleRate"] == IntV(Max(8000, IntAttr(attrs, "audioSampleRate").value))
    ensures r["audioChannels"] == IntV(1) || r["audioChannels"] == IntV(2)
    ensures Truthy(r["whisperLanguage"])
    ensures forall k :: k in attrs && k !in ValidatedKeys ==> r[k] == attrs[k]
  {
    var sized := WindowValidated(attrs);
    var rated := RateValidated(sized);
    var counted := ChannelsValidated(rated);
    WindowFacts(attrs);
    RateFacts(sized);
    ChannelsFacts(rated);
    LanguageFacts(counted);
    assert IntAttr(sized, "audioSampleRate") == IntAttr(attrs, "audioSampleRate");
    LanguageValidated(counted)
  }

  /** The window-size stage of `validate`. */
  function WindowValidated(attrs: map<string, Value>): map<string, Value>
  {
    var w := IntAttr(attrs, "windowWidth");
    var h := IntAttr(attrs, "windowHeight");
    if w.Some? && h.Some? then
      attrs["windowWidth" := IntV(Max(50, w.value))]["windowHeight" := IntV(Max(20, h.value))]
    else attrs["windowWidth" := IntV(200)]["windowHeight" := IntV(50)]
  }

  /** The sample-rate stage of `validate`. */
  function RateValidated(attrs: map<string, Value>): map<string, Value>
  {
    var rate := IntAttr(attrs, "audioSampleRate");
    attrs["audioSampleRate" := IntV(if rate.Some? then Max(8000, rate.value) else 16000)]
  }

  /** The channel-count stage of `validate`. */
  function ChannelsValidated(attrs: map<string, Value>): map<string, Value>
  {
    attrs["audioChannels" := IntV(if IntAttr(attrs, "audioChannels") == Some(2) then 2 else 1)]
  }

  /** The language-default stage of `validate`. */
  function LanguageValidated(attrs: map<string, Value>): map<string, Value>
  {
    if "whisperLanguage" in attrs && Truthy(attrs["whisperLanguage"]) then attrs
    else attrs["whisperLanguage" := StrV("en")]
  }

  lemma WindowFacts(attrs: map<string, Value>)
    ensures forall k :: k in WindowValidated(attrs) <==> k in attrs || k == "windowWidth" || k == "windowHeight"
    ensures WindowValidated(attrs)["windowWidth"].IntV? && WindowValidated(attrs)["windowWidth"].i >= 50
    ensures WindowValidated(attrs)["windowHeight"].IntV? && WindowValidated(attrs)["windowHeight"].i >= 20
    ensures forall k :: k in attrs && k != "windowWidth" && k != "windowHeight" ==>
              WindowValidated(attrs)[k] == attrs[k]
  {
  }

  lemma RateFacts(attrs: map<string, Value>)
    ensures forall k :: k in RateValidated(attrs) <==> k in attrs || k == "audioSampleRate"
    ensures RateValidated(attrs)["audioSampleRate"].IntV? && RateValidated(attrs)["audioSampleRate"].i >= 8000
    ensures forall k :: k in attrs && k != "audioSampleRate" ==> RateValidated(attrs)[k] == attrs[k]
  {
  }

  lemma ChannelsFacts(attrs: map<string, Value>)
    ensures forall k :: k in ChannelsValidated(attrs) <==> k in attrs || k == "audioChannels"
    ensures ChannelsValidated(attrs)["audioChannels"] == IntV(1) ||
            ChannelsValidated(attrs)["audioChannels"] == IntV(2)
    ensures forall k :: k in attrs && k != "audioChannels" ==> ChannelsValidated(attrs)[k] == attrs[k]
  {
  }

  lemma LanguageFacts(attrs: map<string, Value>)
    ensures forall k :: k in LanguageValidated(attrs) <==> k in attrs || k == "whisperLanguage"
    ensures Truthy(LanguageValidated(attrs)["whisperLanguage"])
    ensures forall k :: k in attrs && k != "whisperLanguage" ==> LanguageValidated(attrs)[k] == attrs[k]
  {
  }

  lemma WindowStable(v: map<string, Value>)
    requires "windowWidth" in v && v["windowWidth"].IntV? && v["windowWidth"].i >= 50
    requires "windowHeight" in v && v["windowHeight"].IntV? && v["windowHeight"].i >= 20
    ensures WindowValidated(v) == v
  {
    assert IntAttr(v, "windowWidth") == Some(v["windowWidth"].i);
    assert IntAttr(v, "windowHeight") == Some(v["windowHeight"].i);
  }

  lemma RateStable(v: map<string, Value>)
    requires "audioSampleRate" in v && v["audioSampleRate"].IntV? && v["audioSampleRate"].i >= 8000
    ensures RateValidated(v) == v
  {
    assert IntAttr(v, "audioSampleRate") == Some(v["audioSampleRate"].i);
  }

  lemma ChannelsStable(v: map<string, Value>)
    requires "audioChannels" in v && (v["audioChannels"] == IntV(1) || v["audioChannels"] == IntV(2))
    ensures ChannelsValidated(v) == v
  {
  }

  /** Validating twice is validating once: every stage leaves an already
      validated map as it is. */
  lemma ValidatedIdempotent(attrs: map<string, Value>)
    ensures Validated(Validated(attrs)) == Validated(attrs)
  {
    var v := Validated(attrs);
    WindowStable(v);
    RateStable(v);
    ChannelsStable(v);
    assert LanguageValidated(v) == v;
  }

  /** Integer values already in range pass through `validate` unchanged. */
  lemma ValidatedKeepsInRange(attrs: map<string, Value>)
    ensures "windowWidth" in attrs && "windowHeight" in attrs &&
            attrs["windowWidth"].IntV? && attrs["windowWidth"].i >= 50 &&
            attrs["windowHeight"].IntV? && attrs["windowHeight"].i >= 20 ==>
              Validated(attrs)["windowWidth"] == attrs["windowWidth"] &&
              Validated(attrs)["windowHeight"] == attrs["windowHeight"]
    ensures "audioSampleRate" in attrs && attrs["audioSampleRate"].IntV? &&
            attrs["audioSampleRate"].i >= 8000 ==>
              Validated(attrs)["audioSampleRate"] == attrs["audioSampleRate"]
    ensures "whisperLanguage" in attrs && Truthy(attrs["whisperLanguage"]) ==>
              Validated(attrs)["whisperLanguage"] == attrs["whisperLanguage"]
  {
  }

  /** Window sizes that are not integers fall back to 200 by 50 together;
      a sample rate that is not an integer falls back to 16000; the channel
      count is 2 exactly when it was (convertible to) 2; a missing or falsy
      language becomes "en". */
  lemma ValidatedFallbacks(attrs: map<string, Value>)
    ensures IntAttr(attrs, "windowWidth").None? || IntAttr(attrs, "windowHeight").None? ==>
              Validated(attrs)["windowWidth"] == IntV(200) &&
              Validated(attrs)["windowHeight"] == IntV(50)
    ensures IntAttr(attrs, "audioSampleRate").None? ==>
              Validated(attrs)["audioSampleRate"] == IntV(16000)
    ensures Validated(attrs)["audioChannels"] == IntV(2) <==>
              IntAttr(attrs, "audioChannels") == Some(2)
    ensures !("whisperLanguage" in attrs && Truthy(attrs["whisperLanguage"])) ==>
              Validated(attrs)["whisperLanguage"] == StrV("en")
  {
    var sized := WindowValidated(attrs);
    var rated := RateValidated(sized);
    var counted := ChannelsValidated(rated);
    var v := Validated(attrs);
    WindowFacts(attrs);
    RateFacts(sized);
    ChannelsFacts(rated);
    LanguageFacts(counted);
    assert v == LanguageValidated(counted);
    assert v["windowWidth"] == sized["windowWidth"] && v["windowHeight"] == sized["windowHeight"];
    assert v["audioSampleRate"] == rated["audioSampleRate"];
    assert v["audioChannels"] == counted["audioChannels"];
    assert IntAttr(rated, "audioChannels") == IntAttr(attrs, "audioChannels");
  }

  // ---------------------------------------------------------------------
  // The save/load round trip

  /** Loading `v`'s saved string into an attribute whose current value is
      `current` gives `v` back: same type (a float only when the float
      parser reads back what the formatter wrote), or `None` into `None`,
      or a string other than "none" into a `None` attribute. */
  predicate RoundTrips(current: Value, v: Value, formatFloat: real -> string,
                       parseFloat: string -> Option<real>)
  {
    match v
    case BoolV(_) => current.BoolV?
    case IntV(_) => current.IntV?
    case FloatV(r) => current.FloatV? && parseFloat(formatFloat(r)) == Some(r)
    case StrV(s) => current.StrV? || (current.NoneV? && Lower(s) != "none")
    case NoneV => current.NoneV?
  }

  lemma CoerceRoundTrip(current: Value, v: Value, formatFloat: real -> string,
                        parseFloat: string -> Option<real>)
    requires RoundTrips(current, v, formatFloat, parseFloat)
    ensures Coerce(current, ToIni(v, formatFloat), parseFloat) == Some(v)
  {
    match v
    case BoolV(b) =>
      assert Lower("True") == "true";
      assert Lower("False") == "false";
    case IntV(i) =>
      ParseIntRoundTrip(i);
    case FloatV(_) =>
    case StrV(_) =>
    case NoneV =>
      assert Lower("None") == "none";
  }

  /** Items that list each key of `saved` once, with its saved string. */
  predicate ListsSection(items: seq<(string, string)>, saved: map<string, string>)
  {
    && (forall i :: 0 <= i < |items| ==> items[i].0 in saved && items[i].1 == saved[items[i].0])
    && (forall i, j :: 0 <= i < j < |items| ==> items[i].0 != items[j].0)
  }

  function ItemKeys(items: seq<(string, string)>): set<string>
  {
    set i | 0 <= i < |items| :: items[i].0
  }

  /** The tail of a section listing is a listing of the remaining keys. */
  lemma ListsSectionTail(items: seq<(string, string)>, saved: map<string, string>)
    requires items != [] && ListsSection(items, saved)
    ensures ListsSection(items[1..], saved)
    ensures ItemKeys(items) == {items[0].0} + ItemKeys(items[1..])
    ensures items[0].0 !in ItemKeys(items[1..])
  {
    var key, rest := items[0].0, items[1..];
    forall k | k in ItemKeys(items) ensures k in {key} + ItemKeys(rest) {
      var i :| 0 <= i < |items| && items[i].0 == k;
      if i > 0 { assert rest[i - 1].0 == k; }
    }
    forall k | k in ItemKeys(rest) ensures k in ItemKeys(items) {
      var i :| 0 <= i < |rest| && rest[i].0 == k;
      assert items[i + 1].0 == k;
    }
    forall i | 0 <= i < |rest| ensures rest[i].0 != key {
      assert items[i + 1] == rest[i];
    }
  }

  /** Taking `key` from `source` first, then the keys `ks`, gives the same
      attributes as taking `{key} + ks` from `source` at once. */
  lemma OverrideStep(attrs: map<string, Value>, source: map<string, Value>, key: string, ks: set<string>)
    requires key in attrs && key in source && ks <= source.Keys
    ensures (map k | k in attrs[key := source[key]] :: if k in ks then source[k] else attrs[key := source[key]][k]) ==
            (map k | k in attrs :: if k in {key} + ks then source[k] else attrs[k])
  {
  }

  lemma {:induction false} ApplySavedItems(attrs: map<string, Value>, source: map<string, Value>,
                                           items: seq<(string, string)>,
                                           formatFloat: real -> string,
                                           parseFloat: string -> Option<real>)
    requires ListsSection(items, Saved(source, formatFloat))
    requires ItemKeys(items) <= attrs.Keys
    requires forall k :: k in ItemKeys(items) ==> RoundTrips(attrs[k], source[k], formatFloat, parseFloat)
    ensures ApplyItems(attrs, items, parseFloat) ==
            Applied(map k | k in attrs :: if k in ItemKeys(items) then source[k] else attrs[k], false)
    decreases |items|
  {
    if items == [] {
      assert ItemKeys(items) == {};
    } else {
      var key, rest := items[0].0, items[1..];
      ListsSectionTail(items, Saved(source, formatFloat));
      assert key in ItemKeys(items) && key in source;
      CoerceRoundTrip(attrs[key], source[key], formatFloat, parseFloat);
      var next := attrs[key := source[key]];
      assert ApplyItems(attrs, items, parseFloat) == ApplyItems(next, rest, parseFloat);
      forall k | k in ItemKeys(rest) ensures RoundTrips(next[k], source[k], formatFloat, parseFloat) {
        assert k != key;
      }
      ApplySavedItems(next, source, rest, formatFloat, parseFloat);
      assert ItemKeys(rest) <= source.Keys;
      OverrideStep(attrs, source, key, ItemKeys(rest));
    }
  }

  /** Save-then-load, the apply loop of `load`: when the file lists every
      attribute of `source`, and the loading instance has the same
      attributes, each of a type that reads the saved string back, the
      conversions all succeed and the attributes become `source`'s values. */
  lemma SaveLoadRoundTrip(attrs: map<string, Value>, source: map<string, Value>,
                          items: seq<(string, string)>,
                          formatFloat: real -> string, parseFloat: string -> Option<real>)
    requires ListsSection(items, Saved(source, formatFloat))
    requires ItemKeys(items) == source.Keys == attrs.Keys
    requires forall k :: k in attrs ==> RoundTrips(attrs[k], source[k], formatFloat, parseFloat)
    ensures ApplyItems(attrs, items, parseFloat) == Applied(source, false)
  {
    ApplySavedItems(attrs, source, items, formatFloat, parseFloat);
  }

  /** The instance does not opt in to defaults, so no file stops the load. */
  lemma NoDefaultsWithoutOptIn(attrs: map<string, Value>, items: seq<(string, string)>)
    requires "settingsJustUseDefaults" !in attrs || attrs["settingsJustUseDefaults"] != BoolV(true)
    ensures !RequestsDefaults(attrs, items)
  {
  }

  // ---------------------------------------------------------------------
  // The settings object

  /** The values `SettingsManager.__init__` assigns. */
  function Defaults(): map<string, Value>
  {
    map[
      "windowShow" := BoolV(true), "windowDaemon" := BoolV(true),
      "windowHeight" := IntV(50), "windowWidth" := IntV(200),
      "windowPosRestoreOnStartup" := BoolV(true), "windowPosX" := IntV(0), "windowPosY" := IntV(0),
      "windowDraggable" := BoolV(true), "windowBackgroundColor" := StrV("black"),
      "windowBorderEnabled" := BoolV(true), "windowBorderColor" := StrV("grey"),
      "windowBorderWidthPx" := IntV(1), "windowBorderType" := StrV("solid"),
      "windowTextColor" := StrV("white"), "windowTextSizePx" := IntV(13),
      "windowTextFontType" := StrV("'Inconsolata', monospace"), "windowTextFontWeight" := IntV(800),
      "windowOpacityEnabled" := BoolV(true), "windowOpacity" := FloatV(0.78),
      "windowBlurBackgroundEnabled" := BoolV(false), "windowBlurBackgroundPeriod" := IntV(100),
      "windowBlurBackgroundStrength" := FloatV(2.0), "windowClipToScreenBorder" := BoolV(true),
      "windowKeepOnTop" := BoolV(true), "windowFrameless" := BoolV(true),
      "trayIconShow" := BoolV(true), "trayIconDaemon" := BoolV(true), "pushToTalk" := BoolV(false),
      "hotkeyStartRecording" := StrV("ctrl+shift+a"), "hotkeyStopRecording" := StrV("ctrl+shift+b"),
      "hotkeyPushToTalk" := StrV("alt+p"), "launchAtStartup" := BoolV(false),
      "log" := BoolV(true), "logOverwrite" := BoolV(false), "logFilemode" := StrV(""),
      "logEncoding" := StrV("utf-8"), "logLevel" := IntV(10), "logFilename" := StrV("application.log"),
      "logFilepath" := NoneV, "logFullpath" := StrV(""), "logDeleteOnExit" := BoolV(false),
      "windowTitle" := StrV("VoiceKeyboard"), "labelWindowWelcome" := StrV("Welcome to Voice Keyboard"),
      "labelTrayIconTitle" := StrV("VoiceKeyboard"), "labelTrayIconName" := StrV("VoiceKeyboard"),
      "labelTrayMenuTitle" := StrV("VoiceKeyboard"), "labelTrayMenuToggleWindow" := StrV("Toggle window"),
      "labelTrayMenuOpenSettings" := StrV("Open settings"), "labelTrayMenuEditHotkeys" := StrV("Edit hotkeys"),
      "labelTrayMenuExit" := StrV("Quit"), "labelTrayMenuSettings" := StrV("Settings"),
      "labelTrayMenuDivider1" := StrV("---"), "labelTrayMenuRestart" := StrV("Restart"),
      "settingsJustUseDefaults" := BoolV(true), "whisperModel" := StrV("medium"),
      "whisperDevice" := StrV("cuda"), "whisperComputeType" := StrV("float16"),
      "whisperCpuThreads" := IntV(0), "whisperNumWorkers" := IntV(1), "whisperLanguage" := StrV("pt"),
      "audioChannels" := IntV(1), "audioSampleRate" := IntV(16000), "audioChunkDuration" := FloatV(1.0),
      "audioChunkSize" := IntV(16000), "audioChunkOverlapDuration" := FloatV(0.2),
      "audioChunkOverlapSize" := IntV(3200), "audioInputDevice" := NoneV,
      "vadForceRedownload" := BoolV(false)
    ]
  }

  class SettingsManager {
    /** The instance attributes (`vars(self)`). */
    var attrs: map<string, Value>

    constructor ()
      ensures attrs == Defaults()
    {
      attrs := Defaults();
    }

    /** `validate`: clamps and normalises the attributes one by one. */
    method Validate()
      modifies this
      ensures attrs == Validated(old(attrs))
    {
      ghost var original := attrs;
      var w := IntAttr(attrs, "windowWidth");
      var h := IntAttr(attrs, "windowHeight");
      if w.Some? && h.Some? {
        attrs := attrs["windowWidth" := IntV(Max(50, w.value))];
        attrs := attrs["windowHeight" := IntV(Max(20, h.value))];
      } else {
        attrs := attrs["windowWidth" := IntV(200)]["windowHeight" := IntV(50)];
      }
      assert attrs == WindowValidated(original);
      ghost var sized := attrs;
      var rate := IntAttr(attrs, "audioSampleRate");
      attrs := attrs["audioSampleRate" := IntV(if rate.Some? then Max(8000, rate.value) else 16000)];
      assert attrs == RateValidated(sized);
      ghost var rated := attrs;
      var channels := IntAttr(attrs, "audioChannels");
      attrs := attrs["audioChannels" := IntV(if channels == Some(2) then 2 else 1)];
      assert attrs == ChannelsValidated(rated);
      ghost var counted := attrs;
      if !("whisperLanguage" in attrs && Truthy(attrs["whisperLanguage"])) {
        attrs := attrs["whisperLanguage" := StrV("en")];
      }
      assert attrs == LanguageValidated(counted);
    }

    /** `load`: nothing is applied when the file is unreadable (an error is
        reported), has no `[Configuration]` section, or asks for defaults
        while the instance opts in; otherwise the items are applied in order
        until a conversion raises (reported). `validate` runs in every case. */
    method Load(file: ConfigFile, parseFloat: string -> Option<real>) returns (failed: bool)
      modifies this
      ensures file.Unreadable? ==> failed && attrs == Validated(old(attrs))
      ensures file.Parsed? && file.configuration.None? ==> !failed && attrs == Validated(old(attrs))
      ensures file.Parsed? && file.configuration.Some? &&
              RequestsDefaults(old(attrs), file.configuration.value) ==>
                !failed && attrs == Validated(old(attrs))
      ensures file.Parsed? && file.configuration.Some? &&
              !RequestsDefaults(old(attrs), file.configuration.value) ==>
                var applied := ApplyItems(old(attrs), file.configuration.value, parseFloat);
                failed == applied.failed && attrs == Validated(applied.attrs)
    {
      failed := file.Unreadable?;
      if file.Parsed? && file.configuration.Some? {
        var items := file.configuration.value;
        var useDefaults := false;
        var i := 0;
        while i < |items| && !useDefaults
          invariant 0 <= i <= |items|
          invariant useDefaults ==> RequestsDefaults(attrs, items)
          invariant !useDefaults ==> forall j :: 0 <= j < i ==> !IsDefaultsRequest(attrs, items[j])
        {
          if IsDefaultsRequest(attrs, items[i]) {
            useDefaults := true;
          }
          i := i + 1;
        }
        if !useDefaults {
          var j := 0;
          while j < |items|
            invariant 0 <= j <= |items|
            invariant !failed ==> ApplyItems(attrs, items[j..], parseFloat) == ApplyItems(old(attrs), items, parseFloat)
            invariant failed ==> ApplyItems(old(attrs), items, parseFloat) == Applied(attrs, true)
          {
            assert items[j..][1..] == items[j + 1..];
            var key := items[j].0;
            if key in attrs {
              var converted := Coerce(attrs[key], items[j].1, parseFloat);
              if converted.None? {
                failed := true;
                break;
              }
              attrs := attrs[key := converted.value];
            }
            j := j + 1;
          }
        }
      }
      Validate();
    }
  }

  /** Save-then-load through the whole of `load`: an instance that does
      not opt in to defaults (`settingsJustUseDefaults = False` on the
      loading side), reading a file that lists every saved attribute, takes
      no early return, reports no failure, and ends with `validate` of the
      saved attributes. */
  method LoadSaved(m: SettingsManager, source: map<string, Value>, items: seq<(string, string)>,
                   formatFloat: real -> string, parseFloat: string -> Option<real>)
    returns (failed: bool)
    requires "settingsJustUseDefaults" !in m.attrs || m.attrs["settingsJustUseDefaults"] != BoolV(true)
    requires ListsSection(items, Saved(source, formatFloat))
    requires ItemKeys(items) == source.Keys == m.attrs.Keys
    requires forall k :: k in m.attrs ==> RoundTrips(m.attrs[k], source[k], formatFloat, parseFloat)
    modifies m
    ensures !failed && m.attrs == Validated(source)
  {
    NoDefaultsWithoutOptIn(m.attrs, items);
    SaveLoadRoundTrip(m.attrs, source, items, formatFloat, parseFloat);
    failed := m.Load(Parsed(Some(items)), parseFloat);
  }
}
