/**
 * The Qt desktop dashboard without widgets or network: the scan-log view
 * (Logs::onLogsReceived), the bounded system-log list
 * (SystemLogRetriever), and the main window's servo-angle field, speed
 * throttle, menu highlighting and emergency stop. A reply is the JSON
 * document QJsonDocument::fromJson produced from it; the date and number
 * formatting the view calls are given as functions.
 */
module Desktop {
  import opened Wrappers
  import opened Text
  import opened QtJson

  // ================================================================ scan log

  const SuccessMark := "\U{2705}"
  const FailureMark := "\U{274C}"

  /** A finished reply as a slot sees it; a document of None failed to parse. */
  datatype Reply = NoReply | NetworkError | Received(document: Option<Json>)

  /** The Qt formatting calls of the scan-log view. */
  datatype Formats = Formats(
    // QDateTime::fromString(text, Qt::ISODate) in milliseconds since the epoch; None when invalid
    msecs: string -> Option<int>,
    // the same date-time shown as "yyyy-MM-dd hh:mm:ss", empty when invalid
    shown: string -> string,
    // QString::number(health, 'f', 1)
    oneDecimal: real -> string)

  /** One list row: its text and whether its background is dark green (else dark red). */
  datatype Row = Row(text: string, success: bool)

  /** The "result" array of a reply, or None when the view must leave everything as it is. */
  function ScanArray(reply: Reply): Option<seq<Json>>
  {
    match reply
    case Received(Some(JObject(root))) =>
      if "result" in root && root["result"].JArray? then Some(root["result"].items) else None
    case _ => None
  }

  /** The message column: the error text, or "No error" when it is missing or null. */
  function ErrorText(o: JsonObject): (r: string)
    ensures ("errorMessage" !in o || o["errorMessage"].JNull?) ==> r == "No error"
    ensures "errorMessage" in o && o["errorMessage"].JString? ==> r == o["errorMessage"].s
  {
    if "errorMessage" in o && !o["errorMessage"].JNull? then ToText(o["errorMessage"]) else "No error"
  }

  /** The row "[time] productId (health%) status: message" of one scan object. */
  function RowOf(o: JsonObject, f: Formats): (r: Row)
    ensures r.success == BoolField(o, "isSuccess")
  {
    var status := if BoolField(o, "isSuccess") then SuccessMark else FailureMark;
    Row("[" + f.shown(FieldText(o, "timestamp")) + "] " + FieldText(o, "productId")
        + " (" + f.oneDecimal(NumberField(o, "healthRatio")) + "%) " + status + ": " + ErrorText(o),
        BoolField(o, "isSuccess"))
  }

  /** The rows of a scan array: one per object entry, in array order. */
  function Rows(logs: seq<Json>, f: Formats): (r: seq<Row>)
    ensures |r| <= |logs|
  {
    if logs == [] then []
    else
      var last := logs[|logs| - 1];
      Rows(logs[..|logs| - 1], f) + (if last.JObject? then [RowOf(last.fields, f)] else [])
  }

  /** The valid timestamps of the object entries, in array order. */
  function Stamps(logs: seq<Json>, f: Formats): seq<int>
  {
    if logs == [] then []
    else
      var last := logs[|logs| - 1];
      var t := if last.JObject? then f.msecs(FieldText(last.fields, "timestamp")) else None;
      Stamps(logs[..|logs| - 1], f) + (if t.Some? then [t.value] else [])
  }

  function MinOf(s: seq<int>): (m: int)
    requires s != []
    ensures m in s && forall i :: 0 <= i < |s| ==> m <= s[i]
  {
    if |s| == 1 then s[0]
    else
      var init := s[..|s| - 1];
      var m := MinOf(init);
      assert forall i :: 0 <= i < |init| ==> s[i] == init[i];
      if s[|s| - 1] < m then s[|s| - 1] else m
  }

  function MaxOf(s: seq<int>): (m: int)
    requires s != []
    ensures m in s && forall i :: 0 <= i < |s| ==> s[i] <= m
  {
    if |s| == 1 then s[0]
    else
      var init := s[..|s| - 1];
      var m := MaxOf(init);
      assert forall i :: 0 <= i < |init| ==> s[i] == init[i];
      if s[|s| - 1] > m then s[|s| - 1] else m
  }

  /**
   * Whole minutes between the earliest and the latest valid timestamp, and
   * 1 when that is 0 (an invalid QDateTime has a span of 0 seconds).
   * secsTo truncates the millisecond span to whole seconds; the span is
   * never negative, so Dafny's division agrees with C++'s here.
   */
  function ElapsedMinutes(stamps: seq<int>): (r: int)
    ensures r >= 1
    ensures stamps != [] && MaxOf(stamps) - MinOf(stamps) >= 60000 ==>
      r * 60000 <= MaxOf(stamps) - MinOf(stamps) < (r + 1) * 60000
  {
    var span := if stamps == [] then 0 else MaxOf(stamps) - MinOf(stamps);
    var seconds := span / 1000;
    if seconds / 60 == 0 then 1 else seconds / 60
  }

  function ItemsPerMinute(total: nat, stamps: seq<int>): nat
  {
    total / ElapsedMinutes(stamps)
  }

  /** One more entry adds its row and its valid timestamp, if any. */
  lemma ScanStep(logs: seq<Json>, i: int, f: Formats)
    requires 0 <= i < |logs|
    ensures var o := logs[i];
      Rows(logs[..i + 1], f) == Rows(logs[..i], f) + (if o.JObject? then [RowOf(o.fields, f)] else [])
    ensures var o := logs[i];
      var t := if o.JObject? then f.msecs(FieldText(o.fields, "timestamp")) else None;
      && (t.None? ==> Stamps(logs[..i + 1], f) == Stamps(logs[..i], f))
      && (t.Some? ==> Stamps(logs[..i + 1], f) == Stamps(logs[..i], f) + [t.value])
  {
    assert logs[..i + 1][..i] == logs[..i];
    assert Stamps(logs[..i], f) + [] == Stamps(logs[..i], f);
  }

  lemma ExtremesSnoc(s: seq<int>, x: int)
    ensures MinOf(s + [x]) == (if s == [] || x < MinOf(s) then x else MinOf(s))
    ensures MaxOf(s + [x]) == (if s == [] || x > MaxOf(s) then x else MaxOf(s))
  {
    assert (s + [x])[..|s|] == s;
  }

  /** The rate is the whole number of scans per elapsed minute, never more than the total. */
  lemma ItemsPerMinuteBounds(total: nat, stamps: seq<int>)
    ensures var r, m := ItemsPerMinute(total, stamps), ElapsedMinutes(stamps);
      r <= total && r * m <= total < (r + 1) * m
    ensures stamps == [] || MaxOf(stamps) - MinOf(stamps) < 120000 ==> ItemsPerMinute(total, stamps) == total
  {
    var r, m := ItemsPerMinute(total, stamps), ElapsedMinutes(stamps);
    assert total == r * m + total % m;
    MulGrows(r, m);
    if stamps != [] && MaxOf(stamps) - MinOf(stamps) < 120000 {
      assert (MaxOf(stamps) - MinOf(stamps)) / 1000 < 120;
    }
  }

  /**
   * A span of 119.2 seconds is one minute: ten entries stamped 0.9 s and
   * 120.1 s past the same minute show a rate of ten.
   */
  lemma FractionalSpanTruncates()
    ensures ElapsedMinutes([900, 120100]) == 1
    ensures ItemsPerMinute(10, [900, 120100]) == 10
  {
    assert MinOf([900, 120100]) == 900;
    assert MaxOf([900, 120100]) == 120100;
  }

  lemma MulGrows(r: nat, m: int)
    requires m >= 1
    ensures r <= r * m
  {
  }

  /** Rows of a concatenation are the rows of each part, in order. */
  lemma {:induction false} RowsAppend(a: seq<Json>, b: seq<Json>, f: Formats)
    ensures Rows(a + b, f) == Rows(a, f) + Rows(b, f)
  {
    if b == [] {
      assert a + b == a;
    } else {
      var init := b[..|b| - 1];
      assert (a + b)[..|a + b| - 1] == a + init;
      RowsAppend(a, init, f);
    }
  }

  /** An array of objects gives exactly one row per entry, at the entry's own position. */
  lemma {:induction false} RowsOfObjects(logs: seq<Json>, f: Formats)
    requires forall i :: 0 <= i < |logs| ==> logs[i].JObject?
    ensures |Rows(logs, f)| == |logs|
    ensures forall i :: 0 <= i < |logs| ==> Rows(logs, f)[i] == RowOf(logs[i].fields, f)
  {
    if logs != [] {
      var n := |logs|;
      var init := logs[..n - 1];
      RowsOfObjects(init, f);
      var row := RowOf(logs[n - 1].fields, f);
      assert Rows(logs, f) == Rows(init, f) + [row];
      forall i | 0 <= i < n
        ensures Rows(logs, f)[i] == RowOf(logs[i].fields, f)
      {
        if i < n - 1 {
          assert logs[i] == init[i];
        }
      }
    }
  }

  /** The loop of onLogsReceived: the rows, and the earliest and latest valid timestamps. */
  method ScanLogs(logs: seq<Json>, f: Formats) returns (shown: seq<Row>, first: bool, minTime: int, maxTime: int)
    ensures shown == Rows(logs, f)
    ensures first <==> Stamps(logs, f) == []
    ensures !first ==> minTime == MinOf(Stamps(logs, f)) && maxTime == MaxOf(Stamps(logs, f))
  {
    shown, first, minTime, maxTime := [], true, 0, 0;
    var i := 0;
    while i < |logs|
      invariant 0 <= i <= |logs|
      invariant shown == Rows(logs[..i], f)
      invariant first <==> Stamps(logs[..i], f) == []
      invariant !first ==> minTime == MinOf(Stamps(logs[..i], f)) && maxTime == MaxOf(Stamps(logs[..i], f))
    {
      ScanStep(logs, i, f);
      var entry := logs[i];
      if entry.JObject? {
        var o := entry.fields;
        var t := f.msecs(FieldText(o, "timestamp"));
        if t.Some? {
          ExtremesSnoc(Stamps(logs[..i], f), t.value);
          if first {
            minTime, maxTime, first := t.value, t.value, false;
          } else {
            if t.value < minTime { minTime := t.value; }
            if t.value > maxTime { maxTime := t.value; }
          }
        }
        shown := shown + [RowOf(o, f)];
      }
      i := i + 1;
    }
    assert logs[..|logs|] == logs;
  }

  /**
   * The rate onLogsReceived shows: the entries per whole minute between the
   * earliest and latest timestamps that the scan loop found, at least one minute.
   */
  method PerMinute(count: nat, first: bool, minTime: int, maxTime: int, ghost stamps: seq<int>) returns (rate: int)
    requires first <==> stamps == []
    requires !first ==> minTime == MinOf(stamps) && maxTime == MaxOf(stamps)
    ensures rate == ItemsPerMinute(count, stamps)
  {
    var elapsed := if first then 0 else (maxTime - minTime) / 1000 / 60;
    if elapsed == 0 {
      elapsed := 1;
    }
    rate := count / elapsed;
  }

  /** The scan-log view: the list rows and the two labels onLogsReceived sets. */
  class LogsView {
    var rows: seq<Row>
    var countText: string
    var rateText: string

    constructor ()
      ensures rows == [] && countText == "" && rateText == ""
    {
      rows := [];
      countText := "";
      rateText := "";
    }

    /**
     * A reply without a "result" array changes nothing; otherwise the list
     * is refilled, the count label shows the array size (non-objects
     * included) and the rate label the scans per elapsed minute.
     */
    method OnLogsReceived(reply: Reply, f: Formats)
      modifies this
      ensures ScanArray(reply).None? ==>
        rows == old(rows) && countText == old(countText) && rateText == old(rateText)
      ensures ScanArray(reply).Some? ==>
        var logs := ScanArray(reply).value;
        rows == Rows(logs, f) && countText == IntToString(|logs|)
        && rateText == IntToString(ItemsPerMinute(|logs|, Stamps(logs, f)))
    {
      if ScanArray(reply).None? {
        return;
      }
      var logs := ScanArray(reply).value;
      countText := IntToString(|logs|);
      var shown, first, minTime, maxTime := ScanLogs(logs, f);
      rows := shown;
      var rate := PerMinute(|logs|, first, minTime, maxTime, Stamps(logs, f));
      rateText := IntToString(rate);
    }
  }

  // ========================================================= system log list

  const MaxLogItems := 1000

  /** Append one line, first dropping the oldest when the list is full. */
  function Push(items: seq<string>, text: string): seq<string>
  {
    (if |items| >= MaxLogItems then items[1..] else items) + [text]
  }

  /** Push each text in turn. */
  function PushAll(items: seq<string>, texts: seq<string>): seq<string>
  {
    if texts == [] then items
    else Push(PushAll(items, texts[..|texts| - 1]), texts[|texts| - 1])
  }

  /** The last n elements of s (all of s when it is shorter). */
  function Newest(s: seq<string>, n: nat): seq<string>
  {
    if |s| <= n then s else s[|s| - n..]
  }

  /** The "logs" array of a reply document, or None when the list must stay as it is. */
  function LogEntries(document: Option<Json>): Option<seq<Json>>
  {
    match document
    case Some(JObject(root)) =>
      if "logs" in root && root["logs"].JArray? then Some(root["logs"].items) else None
    case _ => None
  }

  function Texts(entries: seq<Json>): (r: seq<string>)
    ensures |r| == |entries| && forall i :: 0 <= i < |entries| ==> r[i] == ToText(entries[i])
  {
    seq(|entries|, i requires 0 <= i < |entries| => ToText(entries[i]))
  }

  lemma PushNewest(s: seq<string>, text: string)
    ensures Push(Newest(s, MaxLogItems), text) == Newest(s + [text], MaxLogItems)
  {
    if |s| >= MaxLogItems {
      assert Newest(s, MaxLogItems)[1..] == s[|s| - MaxLogItems + 1..];
      assert (s + [text])[|s| + 1 - MaxLogItems..] == s[|s| + 1 - MaxLogItems..] + [text];
    }
  }

  /**
   * Starting from a list that respects the cap, pushing lines one by one
   * with eviction of index 0 keeps exactly the newest MaxLogItems lines of
   * old list followed by the new ones, oldest first.
   */
  lemma {:induction false} KeepsNewest(items: seq<string>, texts: seq<string>)
    requires |items| <= MaxLogItems
    ensures PushAll(items, texts) == Newest(items + texts, MaxLogItems)
    ensures |PushAll(items, texts)| <= MaxLogItems
  {
    if texts == [] {
      assert items + texts == items;
    } else {
      var init, last := texts[..|texts| - 1], texts[|texts| - 1];
      KeepsNewest(items, init);
      PushNewest(items + init, last);
      assert items + texts == (items + init) + [last];
    }
  }

  /** SystemLogRetriever: the list widget's lines, the token and whether a reply is outstanding. */
  class LogRetriever {
    var items: seq<string>
    var currentToken: string
    var replyPending: bool

    ghost predicate Valid()
      reads this
    {
      |items| <= MaxLogItems
    }

    constructor ()
      ensures Valid() && items == [] && currentToken == "" && !replyPending
    {
      items := [];
      currentToken := "";
      replyPending := false;
    }

    /** fetch: remember the token and send a GET whose reply is now outstanding. */
    method Fetch(token: string)
      modifies this`currentToken, this`replyPending
      ensures currentToken == token && replyPending
    {
      currentToken := token;
      replyPending := true;
    }

    /**
     * The reply is taken and cleared; a missing reply or a document without
     * a "logs" array changes nothing, otherwise each entry's text is pushed.
     */
    method OnSystemLogReceived(document: Option<Json>)
      modifies this`items, this`replyPending
      ensures !replyPending
      ensures items == (if old(replyPending) && LogEntries(document).Some?
        then PushAll(old(items), Texts(LogEntries(document).value)) else old(items))
      ensures old(Valid()) ==> Valid()
    {
      var finished := replyPending;
      replyPending := false;
      if !finished || LogEntries(document).None? {
        return;
      }
      var entries := LogEntries(document).value;
      ghost var texts := Texts(entries);
      for i := 0 to |entries|
        invariant items == PushAll(old(items), texts[..i]) && !replyPending
      {
        assert texts[..i + 1][..i] == texts[..i];
        var text := ToText(entries[i]);
        if |items| >= MaxLogItems {
          items := items[1..];
        }
        items := items + [text];
      }
      assert texts[..|entries|] == texts;
      if |old(items)| <= MaxLogItems {
        KeepsNewest(old(items), texts);
      }
    }
  }

  // ============================================================= main window

  const BackendAddress := "http://192.168.18.249:6060/api/v1"
  const StopPath := "/system/stop"
  const SpeedPath := "/system/speed"
  const ReversePath := "/system/reverse"
  const InitialDialValue := 180

  /** A POST the window sends: its URL and its text/plain body. */
  datatype Post = Post(url: string, body: string)

  datatype Key = ReturnKey | EnterKey | OtherKey
  datatype Event = KeyPress(key: Key) | OtherEvent

  function SpeedPost(value: int): Post
  {
    Post(BackendAddress + SpeedPath, IntToString(value))
  }

  function SpeedLabel(value: int): string
  {
    "% " + IntToString(value)
  }

  /** The input without its trailing whitespace. */
  function TrimEnd(s: string): (r: string)
    ensures |r| <= |s| && r == s[..|r|]
    ensures r == [] || !IsCSpace(r[|r| - 1])
    ensures forall i :: |r| <= i < |s| ==> IsCSpace(s[i])
  {
    if s != [] && IsCSpace(s[|s| - 1]) then TrimEnd(s[..|s| - 1]) else s
  }

  /** QString::trimmed: whitespace removed from both ends. */
  function Trimmed(s: string): string
  {
    TrimEnd(SkipSpaces(s))
  }

  /** QString::toInt(&ok) in base 10: an optional sign, decimal digits, and a 32-bit value. */
  function QtToInt(s: string): Option<int>
  {
    var negative := s != [] && s[0] == '-';
    var digits := if s != [] && (s[0] == '-' || s[0] == '+') then s[1..] else s;
    if digits == [] || !AllDigits(digits) then None
    else
      var v: int := if negative then -(DigitsValue(digits) as int) else DigitsValue(digits);
      if -0x8000_0000 <= v < 0x8000_0000 then Some(v) else None
  }

  /** The angle the servo field accepts on Enter: a trimmed integer in [0, 360]. */
  function AngleOf(text: string): (r: Option<int>)
    ensures r.Some? ==> 0 <= r.value <= 360
  {
    var v := QtToInt(Trimmed(text));
    if v.Some? && 0 <= v.value <= 360 then v else None
  }

  predicate AllSpaces(s: string)
  {
    forall i :: 0 <= i < |s| ==> IsCSpace(s[i])
  }

  lemma {:induction false} SkipSpacesOver(pre: string, rest: string)
    requires AllSpaces(pre) && (rest == [] || !IsCSpace(rest[0]))
    ensures SkipSpaces(pre + rest) == rest
  {
    if pre != [] {
      assert (pre + rest)[1..] == pre[1..] + rest;
      SkipSpacesOver(pre[1..], rest);
    }
  }

  lemma {:induction false} TrimEndOver(body: string, post: string)
    requires AllSpaces(post) && (body == [] || !IsCSpace(body[|body| - 1]))
    ensures TrimEnd(body + post) == body
  {
    if post == [] {
      assert body + post == body;
    } else {
      assert (body + post)[..|body + post| - 1] == body + post[..|post| - 1];
      TrimEndOver(body, post[..|post| - 1]);
    }
  }

  /** QString::toInt reads a decimal rendering back as its value, when it fits in 32 bits. */
  lemma DecimalParses(n: nat)
    ensures QtToInt(NatToString(n)) == (if n < 0x8000_0000 then Some(n) else None)
  {
    var d := NatToString(n);
    assert IsDigit(d[0]);
    DigitsValueOfNatToString(n);
  }

  /** Any angle from 0 to 360 typed in decimal, with whitespace around it, is accepted as itself. */
  lemma AngleAccepted(n: nat, pre: string, post: string)
    requires n <= 360 && AllSpaces(pre) && AllSpaces(post)
    ensures AngleOf(pre + NatToString(n) + post) == Some(n)
  {
    var d := NatToString(n);
    assert !IsCSpace(d[0]) && !IsCSpace(d[|d| - 1]);
    assert pre + d + post == pre + (d + post);
    SkipSpacesOver(pre, d + post);
    TrimEndOver(d, post);
    assert Trimmed(pre + d + post) == d;
    DecimalParses(n);
  }

  /** A whole number above 360 is refused. */
  lemma AngleAboveRangeRefused(n: nat)
    requires n > 360
    ensures AngleOf(NatToString(n)) == None
  {
    DecimalIsTrimmed(n);
    DecimalParses(n);
  }

  /** A decimal rendering has no whitespace to trim. */
  lemma DecimalIsTrimmed(n: nat)
    ensures Trimmed(NatToString(n)) == NatToString(n)
  {
    DigitsAreTrimmed(NatToString(n));
  }

  /** A run of digits has no whitespace to trim. */
  lemma DigitsAreTrimmed(d: string)
    requires |d| >= 1 && AllDigits(d)
    ensures Trimmed(d) == d
  {
    assert IsDigit(d[0]) && IsDigit(d[|d| - 1]);
    assert !IsCSpace(d[0]) && !IsCSpace(d[|d| - 1]);
    assert [] + d == d;
    SkipSpacesOver([], d);
    assert d + [] == d;
    TrimEndOver(d, []);
  }

  /** Text that is not a signed integer after trimming is refused. */
  lemma AngleNeedsDigits(text: string, i: int)
    requires var t := Trimmed(text); 0 < i < |t| && !IsDigit(t[i])
    ensures AngleOf(text) == None
  {
  }

  /**
   * The speed posts caused by a run of slider value changes with no timer
   * timeout in between: each change posts unless the throttle is locked,
   * and the first one locks it.
   */
  function Throttled(locked: bool, values: seq<int>): seq<Post>
    decreases |values|
  {
    if values == [] then []
    else (if locked then [] else [SpeedPost(values[0])]) + Throttled(true, values[1..])
  }

  /** Within one timer period at most the first value change is posted. */
  lemma {:induction false} ThrottlePostsOnce(locked: bool, values: seq<int>)
    ensures Throttled(locked, values) == (if locked || values == [] then [] else [SpeedPost(values[0])])
    decreases |values|
  {
    if values != [] {
      ThrottlePostsOnce(true, values[1..]);
    }
  }

  /** The main window's state: the servo angle, the speed slider and throttle, the menu styles. */
  class MainWindow {
    var lastDialValue: int
    var speedLocked: bool
    var timerRunning: bool
    var sliderValue: int
    var speedText: string
    var posts: seq<Post>
    var buttonStyles: seq<string>
    var menuStyle: string
    var selectedStyle: string

    ghost predicate Valid()
      reads this
    {
      |buttonStyles| == 4
    }

    /**
     * The window as built: the menu style loaded on all four buttons, then
     * the Dashboard button clicked, so it alone carries the selected style;
     * the throttle unlocked.
     */
    constructor (slider: int, speedLabel: string, menu: string, selected: string)
      ensures Valid()
      ensures lastDialValue == InitialDialValue && !speedLocked && !timerRunning && posts == []
      ensures sliderValue == slider && speedText == speedLabel
      ensures menuStyle == menu && selectedStyle == selected && buttonStyles == [selected, menu, menu, menu]
    {
      lastDialValue := InitialDialValue;
      speedLocked := false;
      timerRunning := false;
      sliderValue := slider;
      speedText := speedLabel;
      posts := [];
      menuStyle := menu;
      selectedStyle := selected;
      buttonStyles := [menu, menu, menu, menu];
      new;
      SetActiveButton(0);
    }

    /**
     * eventFilter: Return or Enter in the servo-angle field stores a valid
     * angle and is consumed either way; every other event goes to the base
     * class, whose answer is returned.
     */
    method EventFilter(onAngleText: bool, event: Event, text: string, baseResult: bool) returns (consumed: bool)
      modifies this`lastDialValue
      ensures var enter := onAngleText && event.KeyPress? && event.key != OtherKey;
        consumed == (enter || baseResult)
        && lastDialValue == (if enter && AngleOf(text).Some? then AngleOf(text).value else old(lastDialValue))
    {
      if onAngleText && event.KeyPress? && (event.key == ReturnKey || event.key == EnterKey) {
        var value := QtToInt(Trimmed(text));
        if value.Some? && value.value >= 0 && value.value <= 360 {
          lastDialValue := value.value;
        }
        return true;
      }
      return baseResult;
    }

    /** setActiveButton: the selected style on the active button, the plain one on the others. */
    method SetActiveButton(active: int)
      requires Valid()
      modifies this`buttonStyles
      ensures Valid()
      ensures forall i :: 0 <= i < 4 ==> buttonStyles[i] == (if i == active then selectedStyle else menuStyle)
    {
      for i := 0 to 4
        invariant |buttonStyles| == 4
        invariant forall j :: 0 <= j < i ==> buttonStyles[j] == (if j == active then selectedStyle else menuStyle)
      {
        buttonStyles := buttonStyles[i := if i == active then selectedStyle else menuStyle];
      }
    }

    /** OnSpeedAdjusted (also the slider-release slot): post the slider's value. */
    method OnSpeedAdjusted()
      modifies this`posts, this`speedText
      ensures posts == old(posts) + [SpeedPost(sliderValue)] && speedText == SpeedLabel(sliderValue)
    {
      posts := posts + [SpeedPost(sliderValue)];
      speedText := SpeedLabel(sliderValue);
    }

    /** OnSpeedChanged: show the value; post only when unlocked, then lock and start the timer. */
    method OnSpeedChanged(value: int)
      modifies this`posts, this`speedText, this`speedLocked, this`timerRunning
      ensures speedLocked
      ensures timerRunning == (old(timerRunning) || !old(speedLocked))
      ensures posts == old(posts) + (if old(speedLocked) then [] else [SpeedPost(sliderValue)])
      ensures speedText == (if old(speedLocked) then SpeedLabel(value) else SpeedLabel(sliderValue))
    {
      speedText := SpeedLabel(value);
      if speedLocked {
        return;
      }
      speedLocked := true;
      timerRunning := true;
      OnSpeedAdjusted();
    }

    /** The slider moves to a value; valueChanged fires only when the value differs. */
    method MoveSlider(value: int)
      modifies this`sliderValue, this`posts, this`speedText, this`speedLocked, this`timerRunning
      ensures sliderValue == value
      ensures posts == old(posts) + (if value != old(sliderValue) then Throttled(old(speedLocked), [value]) else [])
      ensures speedLocked == (old(speedLocked) || value != old(sliderValue))
      ensures timerRunning == (old(timerRunning) || (value != old(sliderValue) && !old(speedLocked)))
      ensures speedText == (if value != old(sliderValue) then SpeedLabel(value) else old(speedText))
    {
      if value != sliderValue {
        sliderValue := value;
        OnSpeedChanged(value);
      }
    }

    /** The single-shot timer's timeout unlocks the throttle. */
    method OnTimeout()
      modifies this`speedLocked, this`timerRunning
      ensures !speedLocked && !timerRunning
    {
      timerRunning := false;
      speedLocked := false;
    }

    /**
     * Emergency stop: post "STOP\n", show 0 and move the slider to 0, which
     * itself posts a speed of 0 when the slider moved and the throttle was open.
     */
    method OnEmergencyStopClicked()
      modifies this`sliderValue, this`posts, this`speedText, this`speedLocked, this`timerRunning
      ensures sliderValue == 0 && speedText == SpeedLabel(0)
      ensures posts == old(posts) + [Post(BackendAddress + StopPath, "STOP\n")]
        + (if old(sliderValue) != 0 && !old(speedLocked) then [SpeedPost(0)] else [])
    {
      posts := posts + [Post(BackendAddress + StopPath, "STOP\n")];
      speedText := SpeedLabel(0);
      MoveSlider(0);
    }

    method OnReverseTheFlowClicked()
      modifies this`posts
      ensures posts == old(posts) + [Post(BackendAddress + ReversePath, "REV\n")]
    {
      posts := posts + [Post(BackendAddress + ReversePath, "REV\n")];
    }
  }
}
