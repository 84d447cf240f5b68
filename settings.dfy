/** The input validators of `huh/settings.py`: the configuration check run
    when the configuration is loaded, and the pattern test on the
    `--price currency,price,weight` argument. */
module Settings {
  import opened Wrappers
  import Huquq

  const Location: string := "LOCATION"
  const Fiscal: string := "FISCAL"

  /** A parsed configuration: its sections, and each section's keys, in file order. */
  datatype Entry = Entry(key: string, value: string)
  datatype Section = Section(name: string, entries: seq<Entry>)
  type Config = seq<Section>

  datatype ConfigError =
    | MissingConfigValue(section: string, key: string)  // an empty value outside LOCATION
    | MissingAddress                                    // LOCATION has neither address nor coordinates
    | IncorrectConfigValue(section: string, key: string, value: string)
    | InvalidValueExit(key: string, value: string)      // message printed, then exit status 1
    | NoSection(section: string)                        // KeyError from `cfg[section]`
    | NoOption(section: string, key: string)            // KeyError from `cfg[section][key]`

  // ---------------------------------------------------------------- empty values

  /** Every value of every section other than LOCATION is non-empty. */
  predicate AllFilled(cfg: Config) {
    forall i, j :: 0 <= i < |cfg| && 0 <= j < |cfg[i].entries| && cfg[i].name != Location ==>
      cfg[i].entries[j].value != ""
  }

  predicate SectionFilled(s: Section) {
    s.name == Location || forall j :: 0 <= j < |s.entries| ==> s.entries[j].value != ""
  }

  /** The first empty value among `entries`. */
  function FirstEmptyEntry(entries: seq<Entry>): (r: Option<nat>)
    ensures r.None? <==> forall j :: 0 <= j < |entries| ==> entries[j].value != ""
    ensures r.Some? ==> r.value < |entries| && entries[r.value].value == ""
    ensures r.Some? ==> forall j :: 0 <= j < r.value ==> entries[j].value != ""
  {
    if |entries| == 0 then None
    else if entries[0].value == "" then Some(0)
    else match FirstEmptyEntry(entries[1..])
      case None => None
      case Some(j) => Some(j + 1)
  }

  /** The nested loop over sections and keys: the first (section, key)
      position, in reading order, with an empty value outside LOCATION. */
  function FirstBlank(cfg: Config): (r: Option<(nat, nat)>)
    ensures r.None? <==> AllFilled(cfg)
    ensures r.Some? ==> r.value.0 < |cfg| && r.value.1 < |cfg[r.value.0].entries|
    ensures r.Some? ==> cfg[r.value.0].name != Location && cfg[r.value.0].entries[r.value.1].value == ""
    ensures r.Some? ==> forall i :: 0 <= i < r.value.0 ==> SectionFilled(cfg[i])
    ensures r.Some? ==> forall j :: 0 <= j < r.value.1 ==> cfg[r.value.0].entries[j].value != ""
  {
    if |cfg| == 0 then None
    else
      var head := if cfg[0].name == Location then None else FirstEmptyEntry(cfg[0].entries);
      if head.Some? then Some((0, head.value))
      else match FirstBlank(cfg[1..])
        case None => None
        case Some((i, j)) => Some((i + 1, j))
  }

  // ---------------------------------------------------------------- lookups

  function FindSection(cfg: Config, name: string): (r: Option<Section>)
    ensures r.Some? ==> r.value in cfg && r.value.name == name
    ensures r.None? <==> forall i :: 0 <= i < |cfg| ==> cfg[i].name != name
  {
    if |cfg| == 0 then None
    else if cfg[0].name == name then Some(cfg[0])
    else FindSection(cfg[1..], name)
  }

  function FindValue(entries: seq<Entry>, key: string): (r: Option<string>)
    ensures r.Some? ==> exists j :: 0 <= j < |entries| && entries[j] == Entry(key, r.value)
    ensures r.None? <==> forall j :: 0 <= j < |entries| ==> entries[j].key != key
  {
    if |entries| == 0 then None
    else if entries[0].key == key then Some(entries[0].value)
    else FindValue(entries[1..], key)
  }

  /** `cfg[section][key]`, with configparser's KeyError for a missing section or key. */
  function Get(cfg: Config, section: string, key: string): Result<string, ConfigError> {
    match FindSection(cfg, section)
    case None => Failure(NoSection(section))
    case Some(s) =>
      match FindValue(s.entries, key)
      case None => Failure(NoOption(section, key))
      case Some(v) => Success(v)
  }

  predicate HasKey(cfg: Config, section: string, key: string) {
    Get(cfg, section, key).Success?
  }

  // ---------------------------------------------------------------- LOCATION

  /** `a == "" or b == ""` on two values of one section; the second key is
      looked up only when the first value is non-empty. */
  function EitherEmpty(cfg: Config, section: string, k1: string, k2: string): Result<bool, ConfigError> {
    var v1 :- Get(cfg, section, k1);
    if v1 == "" then Success(true)
    else
      var v2 :- Get(cfg, section, k2);
      Success(v2 == "")
  }

  /** The LOCATION check: an address (city and country) or coordinates
      (latitude and longitude) must be given. */
  function CheckLocation(cfg: Config): (r: Outcome<ConfigError>)
    ensures r.Fail? ==>
      r.error == MissingAddress || r.error == NoSection(Location) || (r.error.NoOption? && r.error.section == Location)
  {
    match EitherEmpty(cfg, Location, "city", "country")
    case Failure(e) => Fail(e)
    case Success(noAddress) =>
      if !noAddress then Pass
      else match EitherEmpty(cfg, Location, "latitude", "longitude")
        case Failure(e) => Fail(e)
        case Success(noCoordinates) => if noCoordinates then Fail(MissingAddress) else Pass
  }

  /** With all four keys present, LOCATION passes exactly when the address or
      the coordinates are complete. */
  lemma LocationRule(cfg: Config)
    requires HasKey(cfg, Location, "city") && HasKey(cfg, Location, "country")
    requires HasKey(cfg, Location, "latitude") && HasKey(cfg, Location, "longitude")
    ensures CheckLocation(cfg).Pass? <==>
      (Get(cfg, Location, "city").value != "" && Get(cfg, Location, "country").value != "")
      || (Get(cfg, Location, "latitude").value != "" && Get(cfg, Location, "longitude").value != "")
    ensures CheckLocation(cfg).Fail? ==> CheckLocation(cfg).error == MissingAddress
  {
  }

  // ---------------------------------------------------------------- digits

  predicate IsDigit(c: char) {
    '0' <= c <= '9'
  }

  function DigitValue(c: char): nat
    requires IsDigit(c)
  {
    c as int - '0' as int
  }

  function DigitChar(n: nat): (c: char)
    requires n < 10
    ensures IsDigit(c) && DigitValue(c) == n
  {
    ('0' as int + n) as char
  }

  /** The value of two decimal digits. */
  function TwoDigits(a: char, b: char): nat
    requires IsDigit(a) && IsDigit(b)
  {
    10 * DigitValue(a) + DigitValue(b)
  }

  /** `n` written with two digits, as `%02d` would. */
  function Pad2(n: nat): (s: string)
    requires n < 100
    ensures |s| == 2 && IsDigit(s[0]) && IsDigit(s[1]) && TwoDigits(s[0], s[1]) == n
  {
    [DigitChar(n / 10), DigitChar(n % 10)]
  }

  lemma Pad2OfDigits(a: char, b: char)
    requires IsDigit(a) && IsDigit(b)
    ensures Pad2(TwoDigits(a, b)) == [a, b]
  {
    var n := TwoDigits(a, b);
    assert n / 10 == DigitValue(a) && n % 10 == DigitValue(b);
  }

  // ---------------------------------------------------------------- FISCAL time

  /** The named times of day the configuration accepts, matched exactly. */
  const SolarPeriods: set<string> := {"dawn", "sunrise", "noon", "sunset", "dusk", "now"}

  /** `[0-9][0-9]:[0-9][0-9]` */
  predicate ClockPattern(s: string) {
    |s| == 5 && IsDigit(s[0]) && IsDigit(s[1]) && s[2] == ':' && IsDigit(s[3]) && IsDigit(s[4])
  }

  /** The FISCAL time check: a named period, or `HH:MM` that `strptime("%H:%M")`
      accepts (hour 00-23, minute 00-59). A value off the pattern raises; one
      on the pattern but out of range exits. */
  function CheckTime(val: string): (r: Outcome<ConfigError>)
    ensures val in SolarPeriods ==> r.Pass?
    ensures r.Fail? ==> r.error == IncorrectConfigValue(Fiscal, "time", val) || r.error == InvalidValueExit("time", val)
  {
    if val in SolarPeriods then Pass
    else if !ClockPattern(val) then Fail(IncorrectConfigValue(Fiscal, "time", val))
    else if TwoDigits(val[0], val[1]) <= 23 && TwoDigits(val[3], val[4]) <= 59 then Pass
    else Fail(InvalidValueExit("time", val))
  }

  /** The clock text of a time of day. */
  function ClockText(h: nat, m: nat): string
    requires h < 100 && m < 100
  {
    Pad2(h) + ":" + Pad2(m)
  }

  /** A FISCAL time is accepted exactly when it names a period or is the
      two-digit text of a real time of day. */
  lemma TimeAccepted(val: string)
    ensures CheckTime(val).Pass? <==>
      val in SolarPeriods || exists h: nat, m: nat :: h < 24 && m < 60 && val == ClockText(h, m)
    ensures CheckTime(val).Fail? ==>
      (CheckTime(val).error == IncorrectConfigValue(Fiscal, "time", val) <==> !ClockPattern(val))
  {
    if val !in SolarPeriods {
      if CheckTime(val).Pass? {
        var h, m := TwoDigits(val[0], val[1]), TwoDigits(val[3], val[4]);
        Pad2OfDigits(val[0], val[1]);
        Pad2OfDigits(val[3], val[4]);
        assert val == ClockText(h, m);
      }
      if exists h: nat, m: nat :: h < 24 && m < 60 && val == ClockText(h, m) {
        var h: nat, m: nat :| h < 24 && m < 60 && val == ClockText(h, m);
        assert val[0..2] == Pad2(h) && val[3..5] == Pad2(m);
        assert TwoDigits(val[0], val[1]) == h;
        assert TwoDigits(val[3], val[4]) == m;
      }
    }
  }

  // ---------------------------------------------------------------- FISCAL date

  /** `[0-1][0-9]-[0-3][0-9]` */
  predicate DatePattern(s: string) {
    |s| == 5 && '0' <= s[0] <= '1' && IsDigit(s[1]) && s[2] == '-' && '0' <= s[3] <= '3' && IsDigit(s[4])
  }

  /** Days in a month of 1900, the year `strptime` assumes when none is given
      (not a leap year). */
  function DaysInMonth1900(month: int): int {
    if month == 2 then 28
    else if month == 4 || month == 6 || month == 9 || month == 11 then 30
    else 31
  }

  /** The FISCAL date check: `MM-DD` on the pattern, then a real day of 1900
      for `strptime("%m-%d")`. A value off the pattern raises; one on the
      pattern but not a real day exits. */
  function CheckDate(val: string): (r: Outcome<ConfigError>)
    ensures r.Pass? ==> DatePattern(val)
    ensures r.Fail? ==> r.error == IncorrectConfigValue(Fiscal, "date", val) || r.error == InvalidValueExit("date", val)
  {
    if !DatePattern(val) then Fail(IncorrectConfigValue(Fiscal, "date", val))
    else
      var month, day := TwoDigits(val[0], val[1]), TwoDigits(val[3], val[4]);
      if 1 <= month <= 12 && 1 <= day <= DaysInMonth1900(month) then Pass
      else Fail(InvalidValueExit("date", val))
  }

  /** A FISCAL date is accepted exactly when it is the two-digit text of a
      month and day of 1900. */
  lemma DateAccepted(val: string)
    ensures CheckDate(val).Pass? <==>
      exists month: nat, day: nat :: 1 <= month <= 12 && 1 <= day <= DaysInMonth1900(month)
        && val == Pad2(month) + "-" + Pad2(day)
    ensures CheckDate(val).Fail? ==>
      (CheckDate(val).error == IncorrectConfigValue(Fiscal, "date", val) <==> !DatePattern(val))
  {
    if CheckDate(val).Pass? {
      var month, day := TwoDigits(val[0], val[1]), TwoDigits(val[3], val[4]);
      Pad2OfDigits(val[0], val[1]);
      Pad2OfDigits(val[3], val[4]);
      assert val == Pad2(month) + "-" + Pad2(day);
    }
    if exists month: nat, day: nat :: 1 <= month <= 12 && 1 <= day <= DaysInMonth1900(month)
        && val == Pad2(month) + "-" + Pad2(day) {
      var month: nat, day: nat :| 1 <= month <= 12 && 1 <= day <= DaysInMonth1900(month)
        && val == Pad2(month) + "-" + Pad2(day);
      assert val[0..2] == Pad2(month) && val[3..5] == Pad2(day);
      assert TwoDigits(val[0], val[1]) == month;
      assert TwoDigits(val[3], val[4]) == day;
    }
  }

  /** The leap day is refused because the assumed year 1900 has none; the
      pattern admits months up to 19, which then exit. */
  lemma DateExamples()
    ensures CheckDate("02-29") == Fail(InvalidValueExit("date", "02-29"))
    ensures CheckDate("02-28") == Pass
    ensures CheckDate("13-01") == Fail(InvalidValueExit("date", "13-01"))
    ensures CheckDate("2-28") == Fail(IncorrectConfigValue(Fiscal, "date", "2-28"))
  {
  }

  // ---------------------------------------------------------------- the whole check

  /** `validateConfig`: empty values, then LOCATION, then FISCAL time, then
      FISCAL date; the first failure is the result. */
  function ValidateConfig(cfg: Config): (r: Outcome<ConfigError>)
    ensures !AllFilled(cfg) ==> r.Fail? && r.error.MissingConfigValue? && r.error.section != Location
    ensures r.Pass? ==> AllFilled(cfg) && CheckLocation(cfg).Pass?
    ensures r.Pass? ==> HasKey(cfg, Fiscal, "time") && CheckTime(Get(cfg, Fiscal, "time").value).Pass?
    ensures r.Pass? ==> HasKey(cfg, Fiscal, "date") && CheckDate(Get(cfg, Fiscal, "date").value).Pass?
    ensures AllFilled(cfg) && CheckLocation(cfg).Fail? ==> r == CheckLocation(cfg)
    ensures (AllFilled(cfg) && CheckLocation(cfg).Pass? && HasKey(cfg, Fiscal, "time")
             && CheckTime(Get(cfg, Fiscal, "time").value).Fail?) ==>
      r == CheckTime(Get(cfg, Fiscal, "time").value)
    ensures (AllFilled(cfg) && CheckLocation(cfg).Pass? && HasKey(cfg, Fiscal, "time")
             && CheckTime(Get(cfg, Fiscal, "time").value).Pass? && HasKey(cfg, Fiscal, "date")) ==>
      r == CheckDate(Get(cfg, Fiscal, "date").value)
  {
    match FirstBlank(cfg)
    case Some((i, j)) => Fail(MissingConfigValue(cfg[i].name, cfg[i].entries[j].key))
    case None =>
      match CheckLocation(cfg)
      case Fail(e) => Fail(e)
      case Pass =>
        match Get(cfg, Fiscal, "time")
        case Failure(e) => Fail(e)
        case Success(time) =>
          match CheckTime(time)
          case Fail(e) => Fail(e)
          case Pass =>
            match Get(cfg, Fiscal, "date")
            case Failure(e) => Fail(e)
            case Success(date) => CheckDate(date)
  }

  /** The keys `validateConfig` looks up are all present. */
  predicate KeysPresent(cfg: Config) {
    && HasKey(cfg, Location, "city") && HasKey(cfg, Location, "country")
    && HasKey(cfg, Location, "latitude") && HasKey(cfg, Location, "longitude")
    && HasKey(cfg, Fiscal, "time") && HasKey(cfg, Fiscal, "date")
  }

  /** With its keys present, a configuration is accepted exactly when no value
      outside LOCATION is empty, an address or coordinates are given, and the
      FISCAL time and date are real. */
  lemma ValidateConfigAccepts(cfg: Config)
    requires KeysPresent(cfg)
    ensures ValidateConfig(cfg).Pass? <==>
      && AllFilled(cfg)
      && CheckLocation(cfg).Pass?
      && (var time := Get(cfg, Fiscal, "time").value;
          time in SolarPeriods || exists h: nat, m: nat :: h < 24 && m < 60 && time == ClockText(h, m))
      && (var date := Get(cfg, Fiscal, "date").value;
          exists month: nat, day: nat :: 1 <= month <= 12 && 1 <= day <= DaysInMonth1900(month)
            && date == Pad2(month) + "-" + Pad2(day))
  {
    TimeAccepted(Get(cfg, Fiscal, "time").value);
    DateAccepted(Get(cfg, Fiscal, "date").value);
  }

  /** An empty value is reported before anything else is checked, and it is
      the first one in reading order. */
  lemma EmptyValueReportedFirst(cfg: Config, i: nat, j: nat)
    requires i < |cfg| && j < |cfg[i].entries|
    requires cfg[i].name != Location && cfg[i].entries[j].value == ""
    requires forall i' :: 0 <= i' < i ==> SectionFilled(cfg[i'])
    requires forall j' :: 0 <= j' < j ==> cfg[i].entries[j'].value != ""
    ensures ValidateConfig(cfg) == Fail(MissingConfigValue(cfg[i].name, cfg[i].entries[j].key))
  {
    var r := FirstBlank(cfg);
    assert r.Some?;
  }

  // ---------------------------------------------------------------- --price

  predicate IsAsciiLetter(c: char) {
    'a' <= c <= 'z' || 'A' <= c <= 'Z'
  }

  /** The characters Python's `\s` matches in a text pattern. */
  predicate IsSpace(c: char) {
    || c == ' ' || c == '\t' || c == '\n' || c == '\r' || c == '\U{000B}' || c == '\U{000C}'
    || '\U{001C}' <= c <= '\U{001F}' || c == '\U{0085}' || c == '\U{00A0}' || c == '\U{1680}'
    || '\U{2000}' <= c <= '\U{200A}' || c == '\U{2028}' || c == '\U{2029}' || c == '\U{202F}'
    || c == '\U{205F}' || c == '\U{3000}'
  }

  predicate AllDigits(s: string) {
    forall i :: 0 <= i < |s| ==> IsDigit(s[i])
  }

  /** `troy\soz|t\soz|toz|oz|grams|gram|g` */
  predicate OverrideWeight(w: string) {
    || w in {"toz", "oz", "grams", "gram", "g"}
    || (|w| == 7 && w[..4] == "troy" && IsSpace(w[4]) && w[5..] == "oz")
    || (|w| == 4 && w[0] == 't' && IsSpace(w[1]) && w[2..] == "oz")
  }

  /** `[0-9]+.?[0-9]{0,2}` read as the regular expression: digits, then
      optionally one character other than a newline, then up to two digits. */
  ghost predicate PriceTextSpec(s: string) {
    || (|s| >= 1 && AllDigits(s))
    || exists k :: 1 <= k < |s| && AllDigits(s[..k]) && s[k] != '\n' && |s| - k - 1 <= 2 && AllDigits(s[k + 1..])
  }

  /** The whole pattern, as `re.fullmatch` reads it: some comma splits the
      text after `ccc,` into a price and a weight. */
  ghost predicate OverrideSpec(s: string) {
    && |s| >= 4 && IsAsciiLetter(s[0]) && IsAsciiLetter(s[1]) && IsAsciiLetter(s[2]) && s[3] == ','
    && exists k :: 4 <= k < |s| && s[k] == ',' && PriceTextSpec(s[4..k]) && OverrideWeight(s[k + 1..])
  }

  /** The length of the run of digits that starts `s`. */
  function DigitRun(s: string): (n: nat)
    ensures n <= |s| && AllDigits(s[..n])
    ensures n < |s| ==> !IsDigit(s[n])
  {
    if |s| == 0 || !IsDigit(s[0]) then 0
    else
      var n := 1 + DigitRun(s[1..]);
      assert s[..n] == [s[0]] + s[1..][..n - 1];
      n
  }

  /** The price part scanned greedily: the longest run of digits, then, if
      anything is left, one non-newline character and at most two digits. */
  predicate PriceText(s: string) {
    var n := DigitRun(s);
    n >= 1 && (n == |s| || (s[n] != '\n' && |s| - n - 1 <= 2 && AllDigits(s[n + 1..])))
  }

  /** Every greedy scan is a match of the regular expression. */
  lemma PriceTextSound(s: string)
    requires PriceText(s)
    ensures PriceTextSpec(s)
  {
    var n := DigitRun(s);
    if n == |s| {
      assert s[..n] == s;
    } else {
      assert 1 <= n < |s| && AllDigits(s[..n]) && s[n] != '\n' && |s| - n - 1 <= 2 && AllDigits(s[n + 1..]);
    }
  }

  /** In a match with a separator, the separator is the only non-digit, so
      the greedy digit run stops exactly there. */
  lemma DigitRunStopsAtSeparator(s: string, k: nat)
    requires k < |s| && AllDigits(s[..k]) && AllDigits(s[k + 1..]) && !AllDigits(s)
    ensures DigitRun(s) == k
  {
    forall i | 0 <= i < |s| && i != k
      ensures IsDigit(s[i])
    {
      if i < k {
        assert s[i] == s[..k][i];
      } else {
        assert s[i] == s[k + 1..][i - k - 1];
      }
    }
    assert !IsDigit(s[k]);
  }

  /** Every match of the regular expression is found by the greedy scan. */
  lemma PriceTextComplete(s: string)
    requires PriceTextSpec(s)
    ensures PriceText(s)
  {
    var n := DigitRun(s);
    if |s| >= 1 && AllDigits(s) {
      assert n == |s|;
    } else {
      var k :| 1 <= k < |s| && AllDigits(s[..k]) && s[k] != '\n' && |s| - k - 1 <= 2 && AllDigits(s[k + 1..]);
      DigitRunStopsAtSeparator(s, k);
      assert IsDigit(s[..k][0]);
    }
  }

  /** Scanning greedily loses no match of the regular expression. */
  lemma PriceTextCorrect(s: string)
    ensures PriceText(s) <==> PriceTextSpec(s)
  {
    if PriceText(s) {
      PriceTextSound(s);
    }
    if PriceTextSpec(s) {
      PriceTextComplete(s);
    }
  }

  /** The position of the last comma in `s`. */
  function LastComma(s: string): (r: Option<nat>)
    ensures r.Some? ==> r.value < |s| && s[r.value] == ','
    ensures r.Some? ==> forall j :: r.value < j < |s| ==> s[j] != ','
    ensures r.None? ==> forall j :: 0 <= j < |s| ==> s[j] != ','
  {
    if |s| == 0 then None
    else if s[|s| - 1] == ',' then Some(|s| - 1)
    else LastComma(s[..|s| - 1])
  }

  /** The recogniser: three letters and a comma, then the text up to the last
      comma must be a price and the text after it a weight. */
  predicate MatchesOverride(s: string)
    ensures MatchesOverride(s) ==> |s| >= 6 && s[3] == ',' && IsDigit(s[4]) && s[|s| - 1] != ','
  {
    && |s| >= 4 && IsAsciiLetter(s[0]) && IsAsciiLetter(s[1]) && IsAsciiLetter(s[2]) && s[3] == ','
    && match LastComma(s)
      case None => false
      case Some(k) => k >= 4 && PriceText(s[4..k]) && OverrideWeight(s[k + 1..])
  }

  lemma WeightHasNoComma(w: string, i: nat)
    requires OverrideWeight(w) && i < |w|
    ensures w[i] != ','
  {
    if |w| == 7 && w[..4] == "troy" && IsSpace(w[4]) && w[5..] == "oz" {
      if i < 4 { assert w[i] == w[..4][i]; } else if i > 4 { assert w[i] == w[5..][i - 5]; }
    } else if |w| == 4 && w[0] == 't' && IsSpace(w[1]) && w[2..] == "oz" {
      if i > 1 { assert w[i] == w[2..][i - 2]; }
    }
  }

  /** Everything the recogniser accepts matches the pattern. */
  lemma MatchesOverrideSound(s: string)
    requires MatchesOverride(s)
    ensures OverrideSpec(s)
  {
    var k := LastComma(s).value;
    PriceTextSound(s[4..k]);
    assert 4 <= k < |s| && s[k] == ',' && PriceTextSpec(s[4..k]) && OverrideWeight(s[k + 1..]);
  }

  /** Everything the pattern matches, the recogniser accepts: a weight never
      contains a comma, so the dividing comma is the last one. */
  lemma MatchesOverrideComplete(s: string, k: nat)
    requires |s| >= 4 && IsAsciiLetter(s[0]) && IsAsciiLetter(s[1]) && IsAsciiLetter(s[2]) && s[3] == ','
    requires 4 <= k < |s| && s[k] == ',' && PriceTextSpec(s[4..k]) && OverrideWeight(s[k + 1..])
    ensures MatchesOverride(s)
  {
    NoCommaAfter(s, k);
    LastCommaIs(s, k);
    PriceTextComplete(s[4..k]);
  }

  /** A comma followed by a weight is the last comma of the text. */
  lemma NoCommaAfter(s: string, k: nat)
    requires k < |s| && OverrideWeight(s[k + 1..])
    ensures forall j :: k < j < |s| ==> s[j] != ','
  {
    forall j | k < j < |s|
      ensures s[j] != ','
    {
      WeightHasNoComma(s[k + 1..], j - k - 1);
    }
  }

  /** A comma with none after it is the one `LastComma` finds. */
  lemma LastCommaIs(s: string, k: nat)
    requires k < |s| && s[k] == ','
    requires forall j :: k < j < |s| ==> s[j] != ','
    ensures LastComma(s) == Some(k)
  {
    if k < |s| - 1 {
      LastCommaIs(s[..|s| - 1], k);
    }
  }

  /** The recogniser accepts exactly the strings the pattern fully matches. */
  lemma MatchesOverrideCorrect(s: string)
    ensures MatchesOverride(s) <==> OverrideSpec(s)
  {
    if MatchesOverride(s) {
      MatchesOverrideSound(s);
    }
    if OverrideSpec(s) {
      var k :| 4 <= k < |s| && s[k] == ',' && PriceTextSpec(s[4..k]) && OverrideWeight(s[k + 1..]);
      MatchesOverrideComplete(s, k);
    }
  }

  /** The ValueError of `MetalPriceAction`. */
  datatype ArgumentError = IncorrectPriceFormat(values: string)

  /** `MetalPriceAction`: an absent or empty argument passes unchanged; any
      other must fully match the pattern. */
  function PriceOverride(values: Option<string>): (r: Result<Option<string>, ArgumentError>)
    ensures r.Success? ==> r.value == values
    ensures r.Success? <==> values.None? || values.value == "" || OverrideSpec(values.value)
    ensures r.Failure? ==> r.error == IncorrectPriceFormat(values.value)
  {
    if values.None? || values.value == "" then Success(values)
    else
      MatchesOverrideCorrect(values.value);
      if MatchesOverride(values.value) then Success(values)
      else Failure(IncorrectPriceFormat(values.value))
  }

  /** The override accepts weights the calculator refuses and refuses one it
      accepts: a tab in "troy oz" passes `\s`, and mithqal is not in the pattern. */
  lemma OverrideWeightsVersusCalculator()
    ensures OverrideWeight("troy\toz") && Huquq.WeightFactor("troy\toz").None?
    ensures !OverrideWeight("mithqal") && Huquq.WeightFactor("mithqal").Some?
  {
  }
}
