/**
 * The records the detector hands to the backend and the object_info record
 * built for every frame: ScanRequestDTO, SystemLogMessageDTO,
 * SystemStatusDTO and object_info, with their JSON text. The JSON is built
 * by plain concatenation: string values are written between quotes as they
 * are, without the escaping of section 7 of RFC 8259.
 *
 * std::to_string(double) (printf "%f") and gmtime are library calls the
 * model does not define; they reach the serializers as parameters.
 */
module Dto {
  import opened Wrappers
  import opened Text

  /** "\"key\":\"value\"" with the value copied verbatim. */
  function QuotedField(key: string, value: string): string
  {
    "\"" + key + "\":\"" + value + "\""
  }

  /** "\"key\":number" with the number's text unquoted. */
  function NumberField(key: string, number: string): string
  {
    "\"" + key + "\":" + number
  }

  // ---------------------------------------------------------------- scans

  /** ScanRequestDTO: the label, the confidence in percent and a position. */
  datatype ScanRequest = ScanRequest(productResult: string, confidence: real, x: real, y: real)

  /** ScanRequestDTO::toJson, numbers formatted by numberText. */
  function ScanToJson(s: ScanRequest, numberText: real -> string): string
  {
    "{" + QuotedField("productResult", s.productResult)
        + "," + NumberField("confidence", numberText(s.confidence))
        + "," + NumberField("x", numberText(s.x))
        + "," + NumberField("y", numberText(s.y)) + "}"
  }

  /**
   * The body of a JSON string as a reader per section 7 of RFC 8259 sees it:
   * the characters up to the first '"' that is not escaped by a backslash.
   */
  function StringTokenBody(s: string): (body: string)
    ensures |body| <= |s|
  {
    if s == [] then []
    else if s[0] == '"' then []
    else if s[0] == '\\' && |s| >= 2 then s[..2] + StringTokenBody(s[2..])
    else [s[0]] + StringTokenBody(s[1..])
  }

  /** A text free of '"' and '\\' is read back intact from the JSON text. */
  lemma {:induction false} PlainLabelReadsBack(text: string, rest: string)
    requires Plain(text)
    ensures StringTokenBody(text + "\"" + rest) == text
  {
    if text != [] {
      assert (text + "\"" + rest)[1..] == text[1..] + "\"" + rest;
      PlainLabelReadsBack(text[1..], rest);
    } else {
      assert text + "\"" + rest == "\"" + rest;
    }
  }

  /**
   * Since nothing is escaped, a text holding a '"' (and no backslash) is cut
   * at that quote: a reader of the JSON sees a different, shorter text.
   */
  lemma {:induction false} QuotedLabelIsCut(text: string, rest: string)
    requires exists i :: 0 <= i < |text| && text[i] == '"'
    requires forall i :: 0 <= i < |text| ==> text[i] != '\\'
    ensures |StringTokenBody(text + "\"" + rest)| < |text|
  {
    var s := text + "\"" + rest;
    if text[0] == '"' {
      assert s[0] == '"';
    } else {
      assert s[1..] == text[1..] + "\"" + rest;
      var i :| 0 <= i < |text| && text[i] == '"';
      assert text[1..][i - 1] == '"';
      QuotedLabelIsCut(text[1..], rest);
    }
  }

  /** A text that needs no escaping in a JSON string. */
  predicate Plain(text: string)
  {
    forall i :: 0 <= i < |text| ==> text[i] != '"' && text[i] != '\\'
  }

  /**
   * A reader that skips "{\"key\":\"" at the start of the JSON text j reads
   * value back as that field's string.
   */
  predicate LeadsWithField(j: string, key: string, value: string)
  {
    |j| >= |key| + 5 && j[..|key| + 5] == "{\"" + key + "\":\"" && StringTokenBody(j[|key| + 5..]) == value
  }

  /**
   * The first field of an object built by concatenation: a reader that skips
   * "{\"key\":\"" reads the value back, provided it needs no escaping.
   */
  lemma LeadingFieldReadsBack(key: string, value: string, tail: string)
    requires Plain(value)
    ensures LeadsWithField("{" + QuotedField(key, value) + tail, key, value)
  {
    var j := "{" + QuotedField(key, value) + tail;
    var head := "{\"" + key + "\":\"";
    assert j == head + (value + "\"" + tail);
    PlainLabelReadsBack(value, tail);
  }

  /** LeadingFieldReadsBack for an object of four fields. */
  lemma FourFieldsLeadReadsBack(key: string, value: string, b: string, c: string, d: string)
    requires Plain(value)
    ensures LeadsWithField("{" + QuotedField(key, value) + "," + b + "," + c + "," + d + "}", key, value)
  {
    var tail := "," + b + "," + c + "," + d + "}";
    assert "{" + QuotedField(key, value) + "," + b + "," + c + "," + d + "}" == "{" + QuotedField(key, value) + tail;
    LeadingFieldReadsBack(key, value, tail);
  }

  /** LeadingFieldReadsBack for an object of three fields. */
  lemma ThreeFieldsLeadReadsBack(key: string, value: string, b: string, c: string)
    requires Plain(value)
    ensures LeadsWithField("{" + QuotedField(key, value) + "," + b + "," + c + "}", key, value)
  {
    var tail := "," + b + "," + c + "}";
    assert "{" + QuotedField(key, value) + "," + b + "," + c + "}" == "{" + QuotedField(key, value) + tail;
    LeadingFieldReadsBack(key, value, tail);
  }

  /** The label of a scan is read back from its JSON when it needs no escaping. */
  lemma ScanLabelReadsBack(s: ScanRequest, numberText: real -> string)
    requires Plain(s.productResult)
    ensures LeadsWithField(ScanToJson(s, numberText), "productResult", s.productResult)
  {
    FourFieldsLeadReadsBack("productResult", s.productResult, NumberField("confidence", numberText(s.confidence)),
                            NumberField("x", numberText(s.x)), NumberField("y", numberText(s.y)));
  }

  // ----------------------------------------------------------- timestamps

  /** The broken-down UTC time gmtime produces (tm_year already offset by 1900). */
  datatype UtcTime = UtcTime(year: int, month: int, day: int, hour: int, minute: int, second: int)

  /** The ranges gmtime guarantees; second 60 is a leap second. */
  predicate ValidFields(t: UtcTime)
  {
    1 <= t.month <= 12 && 1 <= t.day <= 31 && 0 <= t.hour <= 23
    && 0 <= t.minute <= 59 && 0 <= t.second <= 60
  }

  function TwoDigits(n: int): (s: string)
    requires 0 <= n < 100
    ensures |s| == 2 && AllDigits(s)
  {
    [DigitChar(n / 10), DigitChar(n % 10)]
  }

  /** put_time with "%Y-%m-%dT%H:%M:%SZ" (ISO 8601, section 5.6 of RFC 3339). */
  function FormatUtc(t: UtcTime): string
    requires ValidFields(t)
  {
    IntToString(t.year) + "-" + TwoDigits(t.month) + "-" + TwoDigits(t.day)
      + "T" + TwoDigits(t.hour) + ":" + TwoDigits(t.minute) + ":" + TwoDigits(t.second) + "Z"
  }

  /** Reads a "YYYY-MM-DDTHH:MM:SSZ" text back into its fields. */
  function ParseUtc(s: string): UtcTime
    requires |s| == 20
    requires AllDigits(s[0..4]) && AllDigits(s[5..7]) && AllDigits(s[8..10])
    requires AllDigits(s[11..13]) && AllDigits(s[14..16]) && AllDigits(s[17..19])
  {
    UtcTime(DigitsValue(s[0..4]), DigitsValue(s[5..7]), DigitsValue(s[8..10]),
            DigitsValue(s[11..13]), DigitsValue(s[14..16]), DigitsValue(s[17..19]))
  }

  lemma TwoDigitsValue(n: int)
    requires 0 <= n < 100
    ensures DigitsValue(TwoDigits(n)) == n
  {
    var s := TwoDigits(n);
    assert s[..1] == [DigitChar(n / 10)];
    assert s[..1][..0] == [];
    assert DigitsValue(s[..1]) == n / 10;
  }

  /**
   * For four-digit years the timestamp text is exactly 20 characters with
   * '-', 'T', ':' and 'Z' at fixed places, and it reads back to the same time.
   */
  lemma FormatUtcRoundTrip(t: UtcTime)
    requires ValidFields(t) && 1000 <= t.year <= 9999
    ensures var s := FormatUtc(t);
      |s| == 20 && s[4] == '-' && s[7] == '-' && s[10] == 'T' && s[13] == ':' && s[16] == ':' && s[19] == 'Z'
    ensures var s := FormatUtc(t);
      |s| == 20 && AllDigits(s[0..4]) && AllDigits(s[5..7]) && AllDigits(s[8..10])
      && AllDigits(s[11..13]) && AllDigits(s[14..16]) && AllDigits(s[17..19])
      && ParseUtc(s) == t
  {
    var y := IntToString(t.year);
    assert y == NatToString(t.year);
    NatToStringLength4(t.year);
    var mo, d, h, mi, se := TwoDigits(t.month), TwoDigits(t.day), TwoDigits(t.hour), TwoDigits(t.minute), TwoDigits(t.second);
    TimestampLayout(y, mo, d, h, mi, se);
    DigitsValueOfNatToString(t.year);
    TwoDigitsValue(t.month);
    TwoDigitsValue(t.day);
    TwoDigitsValue(t.hour);
    TwoDigitsValue(t.minute);
    TwoDigitsValue(t.second);
  }

  /** Where each field and separator sits in a timestamp text with a four-digit year. */
  lemma TimestampLayout(y: string, mo: string, d: string, h: string, mi: string, se: string)
    requires |y| == 4 && |mo| == 2 && |d| == 2 && |h| == 2 && |mi| == 2 && |se| == 2
    ensures var s := y + "-" + mo + "-" + d + "T" + h + ":" + mi + ":" + se + "Z";
      |s| == 20 && s[4] == '-' && s[7] == '-' && s[10] == 'T' && s[13] == ':' && s[16] == ':' && s[19] == 'Z'
      && s[0..4] == y && s[5..7] == mo && s[8..10] == d && s[11..13] == h && s[14..16] == mi && s[17..19] == se
  {
    var s := y + "-" + mo + "-" + d + "T" + h + ":" + mi + ":" + se + "Z";
    assert s[0..4] == y;
    assert s[5..7] == mo;
    assert s[8..10] == d;
    assert s[11..13] == h;
    assert s[14..16] == mi;
    assert s[17..19] == se;
  }

  /** A timestamp text never needs escaping in a JSON string. */
  lemma FormatUtcIsPlain(t: UtcTime)
    requires ValidFields(t)
    ensures Plain(FormatUtc(t))
  {
    var y := IntToString(t.year);
    assert forall i :: 0 <= i < |y| ==> IsDigit(y[i]) || y[i] == '-';
  }

  lemma NatToStringLength4(n: nat)
    requires 1000 <= n <= 9999
    ensures |NatToString(n)| == 4
  {
    assert NatToString(n) == NatToString(n / 10) + [DigitChar(n % 10)];
    assert NatToString(n / 10) == NatToString(n / 100) + [DigitChar(n / 10 % 10)];
    assert NatToString(n / 100) == NatToString(n / 1000) + [DigitChar(n / 100 % 10)];
  }

  // ----------------------------------------------------------- log messages

  datatype LogLevel = Info | Warning | Error | Debug

  /** SystemLogMessageDTO::logLevelToString. */
  function LevelName(level: LogLevel): (name: string)
    ensures |name| >= 4 && AllUpper(name)
    ensures ParseLevel(name) == Some(level)
  {
    match level
    case Info => "INFO"
    case Warning => "WARNING"
    case Error => "ERROR"
    case Debug => "DEBUG"
  }

  predicate AllUpper(s: string) { forall i :: 0 <= i < |s| ==> 'A' <= s[i] <= 'Z' }

  /** Reads a level name back; the inverse of LevelName. */
  function ParseLevel(name: string): Option<LogLevel>
  {
    if name == "INFO" then Some(Info)
    else if name == "WARNING" then Some(Warning)
    else if name == "ERROR" then Some(Error)
    else if name == "DEBUG" then Some(Debug)
    else None
  }

  /**
   * SystemLogMessageDTO. The timestamp is the system clock reading in whole
   * seconds since the epoch, as to_time_t gives it; the constructors that
   * default it to "now" take the clock reading as an argument.
   */
  datatype LogMessage = LogMessage(level: LogLevel, message: string, timestamp: int)

  /** formattedMessage: "LEVEL: message". */
  function FormattedMessage(m: LogMessage): (r: string)
    ensures StartsWith(r, LevelName(m.level) + ": ")
    ensures r[|LevelName(m.level)| + 2..] == m.message
  {
    LevelName(m.level) + ": " + m.message
  }

  /** SystemLogMessageDTO::toJson, with gmtime given as a parameter. */
  function LogMessageToJson(m: LogMessage, gmtime: int -> UtcTime): string
    requires ValidFields(gmtime(m.timestamp))
  {
    "{" + QuotedField("timestamp", FormatUtc(gmtime(m.timestamp)))
        + "," + QuotedField("level", LevelName(m.level))
        + "," + QuotedField("message", m.message) + "}"
  }

  /** The log message's JSON leads with its timestamp text, which a reader gets back verbatim. */
  lemma LogTimestampReadsBack(m: LogMessage, gmtime: int -> UtcTime)
    requires ValidFields(gmtime(m.timestamp))
    ensures LeadsWithField(LogMessageToJson(m, gmtime), "timestamp", FormatUtc(gmtime(m.timestamp)))
  {
    FormatUtcIsPlain(gmtime(m.timestamp));
    ThreeFieldsLeadReadsBack("timestamp", FormatUtc(gmtime(m.timestamp)),
                             QuotedField("level", LevelName(m.level)), QuotedField("message", m.message));
  }

  // ---------------------------------------------------------- system status

  /** SystemStatusDTO: time (seconds), CPU temperature, CPU use, memory text. */
  datatype SystemStatus = SystemStatus(timestamp: int, degree: real, cpuUtilization: real, memoryUsage: string)

  /**
   * The constructor that takes an ISO text for the time ignores that text and
   * stores the clock reading instead.
   */
  function StatusFromIsoText(timestampText: string, degree: real, cpu: real, memory: string, now: int): (s: SystemStatus)
    ensures s.timestamp == now && s.degree == degree && s.cpuUtilization == cpu && s.memoryUsage == memory
  {
    SystemStatus(now, degree, cpu, memory)
  }

  /** The time text has no influence: any two texts give the same record. */
  lemma StatusIgnoresIsoText(a: string, b: string, degree: real, cpu: real, memory: string, now: int)
    ensures StatusFromIsoText(a, degree, cpu, memory, now) == StatusFromIsoText(b, degree, cpu, memory, now)
  {
  }

  /** SystemStatusDTO::toJson: two quoted strings and two unquoted numbers. */
  function StatusToJson(s: SystemStatus, gmtime: int -> UtcTime, numberText: real -> string): string
    requires ValidFields(gmtime(s.timestamp))
  {
    "{" + QuotedField("timestamp", FormatUtc(gmtime(s.timestamp)))
        + "," + NumberField("cpuDegree", numberText(s.degree))
        + "," + NumberField("cpuUsage", numberText(s.cpuUtilization))
        + "," + QuotedField("memoryUsage", s.memoryUsage) + "}"
  }

  /** The status JSON leads with its timestamp text, which a reader gets back verbatim. */
  lemma StatusTimestampReadsBack(s: SystemStatus, gmtime: int -> UtcTime, numberText: real -> string)
    requires ValidFields(gmtime(s.timestamp))
    ensures LeadsWithField(StatusToJson(s, gmtime, numberText), "timestamp", FormatUtc(gmtime(s.timestamp)))
  {
    FormatUtcIsPlain(gmtime(s.timestamp));
    FourFieldsLeadReadsBack("timestamp", FormatUtc(gmtime(s.timestamp)), NumberField("cpuDegree", numberText(s.degree)),
                            NumberField("cpuUsage", numberText(s.cpuUtilization)), QuotedField("memoryUsage", s.memoryUsage));
  }

  // ------------------------------------------------------------ object_info

  /** object_info: a detection's class, confidence, position and health, updated by setters. */
  class ObjectInfo {
    var className: string
    var confidence: real
    var x: real
    var y: real
    var isHealthy: bool

    /** The default constructor: ("", 0.0, 0.0, 0.0, false). */
    constructor Default()
      ensures className == "" && confidence == 0.0 && x == 0.0 && y == 0.0 && !isHealthy
    {
      className, confidence, x, y, isHealthy := "", 0.0, 0.0, 0.0, false;
    }

    /** The parameter constructor stores each argument in its own field. */
    constructor (className: string, confidence: real, x: real, y: real, isHealthy: bool)
      ensures this.className == className && this.confidence == confidence
      ensures this.x == x && this.y == y && this.isHealthy == isHealthy
    {
      this.className, this.confidence, this.x, this.y, this.isHealthy := className, confidence, x, y, isHealthy;
    }

    function GetClass(): string reads this { className }
    function GetConfidence(): real reads this { confidence }
    function GetX(): real reads this { x }
    function GetY(): real reads this { y }
    function GetIsHealthy(): bool reads this { isHealthy }

    method SetClass(c: string)
      modifies this
      ensures GetClass() == c
      ensures confidence == old(confidence) && x == old(x) && y == old(y) && isHealthy == old(isHealthy)
    {
      className := c;
    }

    method SetConfidence(c: real)
      modifies this
      ensures GetConfidence() == c
      ensures className == old(className) && x == old(x) && y == old(y) && isHealthy == old(isHealthy)
    {
      confidence := c;
    }

    method SetX(v: real)
      modifies this
      ensures GetX() == v
      ensures className == old(className) && confidence == old(confidence) && y == old(y) && isHealthy == old(isHealthy)
    {
      x := v;
    }

    method SetY(v: real)
      modifies this
      ensures GetY() == v
      ensures className == old(className) && confidence == old(confidence) && x == old(x) && isHealthy == old(isHealthy)
    {
      y := v;
    }

    method SetIsHealthy(h: bool)
      modifies this
      ensures GetIsHealthy() == h
      ensures className == old(className) && confidence == old(confidence) && x == old(x) && y == old(y)
    {
      isHealthy := h;
    }
  }
}
