/**
 * The serial link to the belt's Arduino: the text commands with their range
 * checks, the request/response exchange of sendCommand and the background
 * reader that keeps the latest "DISTANCE:" report.
 *
 * The port itself is not modelled: open/tcsetattr outcomes, write errors
 * (with their strerror text) and the characters the device sends within the
 * 500 ms window reach the operations as parameters.
 */
module Arduino {
  import opened Wrappers
  import opened Text

  /** The commands the class can send, one constructor per public command method. */
  datatype Command =
    | Status                 // getStatus
    | Percent(percent: int)  // setSpeed
    | StopNow                // stopImmediate
    | StopRamp(rate: int)    // stopGradual
    | Start(rate: int)       // start
    | Direction(dir: int)    // setDirection
    | Reverse                // reverseDirection
    | Servo(angle: int)      // setServoAngle, setServoInitialAngle with 45

  /** The ramp rate start() uses when the caller gives none. */
  const DefaultStartRamp: int := 5
  /** The angle setServoInitialAngle sends. */
  const InitialServoAngle: int := 45

  /** The range-check messages all read "Error: " followed by the rule broken. */
  function RangeError(rule: string): (msg: string)
    ensures StartsWith(msg, "Error: ")
  {
    "Error: " + rule
  }

  /**
   * The range check each command method makes before sending: the error text
   * it returns instead, or None when the argument is accepted.
   */
  function Validate(c: Command): (err: Option<string>)
    ensures err.None? <==> ValidCommand(c)
  {
    match c
    case Percent(p) =>
      if p < 0 || p > 100 then Some(RangeError("Speed percentage must be between 0 and 100")) else None
    case StopRamp(r) =>
      if r < 1 || r > 50 then Some(RangeError("Ramp rate must be between 1 and 50")) else None
    case Start(r) =>
      if r < 1 || r > 20 then Some(RangeError("Ramp rate must be between 1 and 20")) else None
    case Direction(d) =>
      if d != 1 && d != -1 then Some(RangeError("Direction must be 1 (forward) or -1 (reverse)")) else None
    case Servo(a) =>
      if a < 0 || a > 180 then Some(RangeError("Servo angle must be between 0 and 180")) else None
    case _ => None
  }

  /** The argument ranges the protocol accepts, stated on their own. */
  predicate ValidCommand(c: Command)
  {
    match c
    case Percent(p) => 0 <= p <= 100
    case StopRamp(r) => 1 <= r <= 50
    case Start(r) => 1 <= r <= 20
    case Direction(d) => d == 1 || d == -1
    case Servo(a) => 0 <= a <= 180
    case _ => true
  }

  /** The text line of a command, without its terminating newline. */
  function Wire(c: Command): string
  {
    match c
    case Status => "STATUS"
    case Percent(p) => "PCT:" + IntToString(p)
    case StopNow => "STOP:0"
    case StopRamp(r) => "STOP:" + IntToString(r)
    case Start(r) => "START:" + IntToString(r)
    case Direction(d) => "DIR:" + IntToString(d)
    case Reverse => "REV"
    case Servo(a) => "SERVO:" + IntToString(a)
  }

  /** The integer after a prefix, as a receiver of the line would read it. */
  function ArgumentAfter(line: string, prefix: string): Option<int>
  {
    if StartsWith(line, prefix) then
      match Stoi(line[|prefix|..])
      case Ok(v) => Some(v)
      case Err(_) => None
    else None
  }

  /**
   * Reading a command line back into a command: the reading the protocol's
   * text format allows, used to show that no two accepted commands share a
   * line.
   */
  function ParseWire(line: string): Option<Command>
  {
    if line == "STATUS" then Some(Status)
    else if line == "REV" then Some(Reverse)
    else if line == "STOP:0" then Some(StopNow)
    else if StartsWith(line, "PCT:") then
      (match ArgumentAfter(line, "PCT:") case Some(v) => Some(Percent(v)) case None => None)
    else if StartsWith(line, "STOP:") then
      (match ArgumentAfter(line, "STOP:") case Some(v) => Some(StopRamp(v)) case None => None)
    else if StartsWith(line, "START:") then
      (match ArgumentAfter(line, "START:") case Some(v) => Some(Start(v)) case None => None)
    else if StartsWith(line, "DIR:") then
      (match ArgumentAfter(line, "DIR:") case Some(v) => Some(Direction(v)) case None => None)
    else if StartsWith(line, "SERVO:") then
      (match ArgumentAfter(line, "SERVO:") case Some(v) => Some(Servo(v)) case None => None)
    else None
  }

  /** A prefix followed by a formatted int reads back as that int. */
  lemma ArgumentAfterFormatted(prefix: string, v: int)
    requires Int32Min <= v <= Int32Max
    ensures ArgumentAfter(prefix + IntToString(v), prefix) == Some(v)
  {
    var line := prefix + IntToString(v);
    assert line[..|prefix|] == prefix;
    assert line[|prefix|..] == IntToString(v);
    StoiOfIntToString(v);
  }

  /** A positive int is never written as "0". */
  lemma PositiveIsNotZeroText(v: int)
    requires v >= 1
    ensures IntToString(v) != "0"
  {
    DigitsValueOfNatToString(v);
    assert DigitsValue("0") == 0 by {
      assert "0"[..0] == [];
    }
  }

  /** Every accepted command's line reads back as that same command. */
  lemma WireRoundTrip(c: Command)
    requires ValidCommand(c)
    ensures ParseWire(Wire(c)) == Some(c)
  {
    match c
    case Status =>
    case Reverse =>
    case StopNow =>
    case Percent(p) => PercentRoundTrip(p);
    case StopRamp(r) => StopRampRoundTrip(r);
    case Start(r) => StartRoundTrip(r);
    case Direction(d) => DirectionRoundTrip(d);
    case Servo(a) => ServoRoundTrip(a);
  }

  lemma PercentRoundTrip(p: int)
    requires 0 <= p <= 100
    ensures ParseWire(Wire(Percent(p))) == Some(Percent(p))
  {
    ArgumentAfterFormatted("PCT:", p);
    var line := Wire(Percent(p));
    assert line[..4] == "PCT:";
    assert StartsWith(line, "PCT:");
    DiffersAt(line, "STATUS", 0);
    DiffersAt(line, "REV", 0);
    DiffersAt(line, "STOP:0", 0);
  }

  /** A line that differs from a literal at some position neither equals it nor starts with it. */
  lemma DiffersAt(line: string, lit: string, k: nat)
    requires k < |line| && k < |lit| && line[k] != lit[k]
    ensures line != lit && !StartsWith(line, lit)
  {
  }

  lemma StopRampRoundTrip(r: int)
    requires 1 <= r <= 50
    ensures ParseWire(Wire(StopRamp(r))) == Some(StopRamp(r))
  {
    ArgumentAfterFormatted("STOP:", r);
    PositiveIsNotZeroText(r);
    var line := Wire(StopRamp(r));
    assert line[..5] == "STOP:";
    assert StartsWith(line, "STOP:");
    assert line != "STOP:0" by {
      assert line[5..] == IntToString(r);
      assert "STOP:0"[5..] == "0";
    }
    DiffersAt(line, "STATUS", 2);
    DiffersAt(line, "REV", 0);
    DiffersAt(line, "PCT:", 0);
  }

  lemma StartRoundTrip(r: int)
    requires 1 <= r <= 20
    ensures ParseWire(Wire(Start(r))) == Some(Start(r))
  {
    ArgumentAfterFormatted("START:", r);
    var line := Wire(Start(r));
    assert line[..6] == "START:";
    assert StartsWith(line, "START:");
    DiffersAt(line, "STATUS", 4);
    DiffersAt(line, "REV", 0);
    DiffersAt(line, "STOP:0", 2);
    DiffersAt(line, "PCT:", 0);
    DiffersAt(line, "STOP:", 2);
  }

  lemma DirectionRoundTrip(d: int)
    requires d == 1 || d == -1
    ensures ParseWire(Wire(Direction(d))) == Some(Direction(d))
  {
    ArgumentAfterFormatted("DIR:", d);
    var line := Wire(Direction(d));
    assert line[..4] == "DIR:";
    assert StartsWith(line, "DIR:");
    DiffersAt(line, "STATUS", 0);
    DiffersAt(line, "REV", 0);
    DiffersAt(line, "STOP:0", 0);
    DiffersAt(line, "PCT:", 0);
    DiffersAt(line, "STOP:", 0);
    DiffersAt(line, "START:", 0);
  }

  lemma ServoRoundTrip(a: int)
    requires 0 <= a <= 180
    ensures ParseWire(Wire(Servo(a))) == Some(Servo(a))
  {
    ArgumentAfterFormatted("SERVO:", a);
    var line := Wire(Servo(a));
    assert line[..6] == "SERVO:";
    assert StartsWith(line, "SERVO:");
    DiffersAt(line, "STATUS", 1);
    DiffersAt(line, "REV", 0);
    DiffersAt(line, "STOP:0", 1);
    DiffersAt(line, "PCT:", 0);
    DiffersAt(line, "STOP:", 1);
    DiffersAt(line, "START:", 1);
    DiffersAt(line, "DIR:", 0);
  }

  /** Distinct accepted commands never share a line. */
  lemma WireInjective(c: Command, d: Command)
    requires ValidCommand(c) && ValidCommand(d)
    requires Wire(c) == Wire(d)
    ensures c == d
  {
    WireRoundTrip(c);
    WireRoundTrip(d);
  }

  /** The angles the decision logic and the start-up send all pass the servo check. */
  lemma ServoAnglesAccepted()
    ensures ValidCommand(Servo(30)) && ValidCommand(Servo(150)) && ValidCommand(Servo(InitialServoAngle))
    ensures ValidCommand(Start(DefaultStartRamp))
  {
  }

  /** A line written with its newline is read back by the device as exactly the command. */
  lemma {:induction false} TerminatedLineReadsBack(command: string, rest: string)
    requires '\n' !in command
    ensures LineOf(command + "\n" + rest) == command
  {
    if command != [] {
      assert (command + "\n" + rest)[1..] == command[1..] + "\n" + rest;
      assert '\n' !in command[1..] by {
        assert forall i :: 0 <= i < |command[1..]| ==> command[1..][i] == command[i + 1];
      }
      TerminatedLineReadsBack(command[1..], rest);
    } else {
      assert command + "\n" + rest == "\n" + rest;
    }
  }

  /** No command line holds a newline, so each one is received whole. */
  lemma WireHasNoNewline(c: Command)
    ensures '\n' !in Wire(c)
  {
    match c
    case Percent(p) => NoNewlineInNumber(p, "PCT:");
    case StopRamp(r) => NoNewlineInNumber(r, "STOP:");
    case Start(r) => NoNewlineInNumber(r, "START:");
    case Direction(d) => NoNewlineInNumber(d, "DIR:");
    case Servo(a) => NoNewlineInNumber(a, "SERVO:");
    case _ =>
  }

  lemma NoNewlineInNumber(v: int, prefix: string)
    requires '\n' !in prefix
    ensures '\n' !in prefix + IntToString(v)
  {
    var s := IntToString(v);
    assert forall i :: 0 <= i < |s| ==> IsDigit(s[i]) || s[i] == '-';
  }

  /** The erase-remove idiom: every c dropped, everything else kept in order. */
  function RemoveChar(s: string, c: char): (r: string)
    ensures c !in r
    ensures forall x :: x in r ==> x in s
    ensures forall x :: x != c ==> multiset(r)[x] == multiset(s)[x]
  {
    if s == [] then ""
    else
      assert s == [s[0]] + s[1..];
      if s[0] == c then RemoveChar(s[1..], c) else [s[0]] + RemoveChar(s[1..], c)
  }

  /** The line readLoop makes of one read: up to the NUL, without '\n' and '\r'. */
  function ReadLine(chunk: string): (line: string)
    ensures '\n' !in line && '\r' !in line
  {
    RemoveChar(RemoveChar(UpToNul(chunk), '\n'), '\r')
  }

  /** The reply sendCommand gives once the line is written: the first line that arrived, or a timeout error. */
  function ReplyOf(arrived: string): (r: string)
    ensures r != ""
    ensures LineOf(arrived) != "" ==> r == LineOf(arrived)
    ensures LineOf(arrived) == "" ==> StartsWith(r, "Error: ")
  {
    if LineOf(arrived) == "" then "Error: No response or timeout" else LineOf(arrived)
  }

  /**
   * The text a command method returns, given whether the port is open, the
   * write error if any and what arrived: the range error, the closed-port
   * error, the write error, or the device's reply.
   */
  function Response(connected: bool, c: Command, writeError: Option<string>, arrived: string): (r: string)
    ensures r != ""
    ensures !ValidCommand(c) ==> StartsWith(r, "Error: ")
    ensures ValidCommand(c) && !connected ==> r == "Error: Serial port not open"
  {
    match Validate(c)
    case Some(err) => err
    case None =>
      if !connected then "Error: Serial port not open"
      else if writeError.Some? then "Error writing to serial port: " + writeError.value
      else ReplyOf(arrived)
  }

  /** Whether a command method writes its line: an accepted command on an open port whose write succeeds. */
  predicate Writes(connected: bool, c: Command, writeError: Option<string>)
  {
    ValidCommand(c) && connected && writeError.None?
  }

  /** The read loop of sendCommand: the characters that arrived before the first newline. */
  method FirstLine(arrived: string) returns (line: string)
    ensures line == LineOf(arrived)
  {
    line := "";
    var i := 0;
    while i < |arrived| && arrived[i] != '\n'
      invariant 0 <= i <= |arrived|
      invariant LineOf(arrived) == line + LineOf(arrived[i..])
    {
      LineGrows(arrived, i, line);
      line := line + [arrived[i]];
      i := i + 1;
    }
    LineEnds(arrived, i, line);
  }

  /** One more character before the newline extends the line read so far. */
  lemma LineGrows(s: string, i: nat, line: string)
    requires i < |s| && s[i] != '\n' && LineOf(s) == line + LineOf(s[i..])
    ensures LineOf(s) == (line + [s[i]]) + LineOf(s[i + 1..])
  {
    var t := s[i..];
    assert t[0] == s[i] && t[1..] == s[i + 1..];
    var rest := LineOf(t[1..]);
    assert LineOf(t) == [s[i]] + rest;
    AppendRegroup(line, s[i], rest);
  }

  lemma AppendRegroup(a: string, c: char, b: string)
    ensures a + ([c] + b) == (a + [c]) + b
  {
  }

  /** At the end of the text or at a newline the line read so far is the whole line. */
  lemma LineEnds(s: string, i: nat, line: string)
    requires i <= |s| && (i == |s| || s[i] == '\n') && LineOf(s) == line + LineOf(s[i..])
    ensures LineOf(s) == line
  {
    if i < |s| {
      assert s[i..][0] == '\n';
    }
    assert LineOf(s[i..]) == "";
  }

  /**
   * ArduinoSerial: the port descriptor (negative when not open), the latest
   * distance report, and the lines written to the device, in order.
   */
  class ArduinoSerial {
    var serialPort: int
    var latestDistance: string
    var written: seq<string>

    /** The reader only ever stores a clean line that carries a distance report. */
    predicate Valid()
      reads this
    {
      '\n' !in latestDistance && '\r' !in latestDistance
      && (latestDistance == "" || Contains(latestDistance, "DISTANCE:"))
    }

    /**
     * Opening the port: openResult is what open() returned, configured whether
     * tcgetattr and tcsetattr both succeeded. Either failure leaves the port
     * closed.
     */
    constructor (openResult: int, configured: bool)
      ensures serialPort < 0 <==> (openResult < 0 || !configured)
      ensures openResult >= 0 && configured ==> serialPort == openResult
      ensures latestDistance == "" && written == []
      ensures Valid()
    {
      if openResult < 0 {
        serialPort := openResult;
      } else if !configured {
        serialPort := -1;
      } else {
        serialPort := openResult;
      }
      latestDistance := "";
      written := [];
    }

    /** isConnected. */
    function IsConnected(): bool
      reads this
    {
      serialPort >= 0
    }

    /** getLatestDistance. */
    function LatestDistance(): string
      reads this
    {
      latestDistance
    }

    /**
     * sendCommand. writeError is the strerror text when write() fails;
     * arrived holds the characters read within the 500 ms window. The reply
     * is what arrived before the first newline, or a timeout error when that
     * is empty.
     */
    method SendCommand(command: string, writeError: Option<string>, arrived: string) returns (response: string)
      modifies this
      ensures serialPort == old(serialPort) && latestDistance == old(latestDistance)
      ensures !IsConnected() ==> response == "Error: Serial port not open" && written == old(written)
      ensures IsConnected() && writeError.Some? ==>
        response == "Error writing to serial port: " + writeError.value && written == old(written)
      ensures IsConnected() && writeError.None? ==> written == old(written) + [command + "\n"]
      ensures IsConnected() && writeError.None? ==> response == ReplyOf(arrived)
    {
      if serialPort < 0 {
        return "Error: Serial port not open";
      }
      var fullCommand := command + "\n";
      if writeError.Some? {
        return "Error writing to serial port: " + writeError.value;
      }
      written := written + [fullCommand];
      response := FirstLine(arrived);
      if response == "" {
        response := "Error: No response or timeout";
      }
    }

    /**
     * Any of the command methods: the range check first, which answers with
     * its error text and writes nothing, then sendCommand with the line.
     */
    method Execute(c: Command, writeError: Option<string>, arrived: string) returns (response: string)
      modifies this
      ensures serialPort == old(serialPort) && latestDistance == old(latestDistance)
      ensures response == Response(old(IsConnected()), c, writeError, arrived)
      ensures written == old(written) + (if Writes(old(IsConnected()), c, writeError) then [Wire(c) + "\n"] else [])
    {
      var err := Validate(c);
      if err.Some? {
        return err.value;
      }
      response := SendCommand(Wire(c), writeError, arrived);
    }

    /** setServoInitialAngle: "SERVO:45" straight to sendCommand, without the range check. */
    method SetServoInitialAngle(writeError: Option<string>, arrived: string) returns (response: string)
      modifies this
      ensures serialPort == old(serialPort) && latestDistance == old(latestDistance)
      ensures response == Response(old(IsConnected()), Servo(InitialServoAngle), writeError, arrived)
      ensures written == old(written) + (if Writes(old(IsConnected()), Servo(InitialServoAngle), writeError) then ["SERVO:45\n"] else [])
    {
      assert IntToString(InitialServoAngle) == "45" by {
        assert NatToString(45) == NatToString(4) + [DigitChar(5)];
      }
      assert "SERVO:" + IntToString(InitialServoAngle) + "\n" == "SERVO:45\n";
      response := SendCommand("SERVO:" + IntToString(InitialServoAngle), writeError, arrived);
    }

    /**
     * One pass of readLoop: chunk is what read() filled in (empty when it
     * returned nothing). A line that mentions "DISTANCE:" replaces the
     * stored report; anything else is dropped.
     */
    method OnRead(chunk: string)
      requires Valid()
      modifies this
      ensures Valid()
      ensures serialPort == old(serialPort) && written == old(written)
      ensures chunk != [] && Contains(ReadLine(chunk), "DISTANCE:") ==> latestDistance == ReadLine(chunk)
      ensures chunk == [] || !Contains(ReadLine(chunk), "DISTANCE:") ==> latestDistance == old(latestDistance)
    {
      if |chunk| > 0 {
        var line := ReadLine(chunk);
        if Contains(line, "DISTANCE:") {
          latestDistance := line;
        }
      }
    }
  }
}
