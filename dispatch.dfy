/**
 * The two HTTP front ends of the belt controller: the one embedded in the
 * detector (HttpServerHandler.cpp, with /threshold) and the stand-alone
 * hardware controller (Hardware/main.cpp, with its stop flag). Both turn a
 * short command text into one Arduino command; they differ on "reverse"
 * and on the order of their tests.
 */
module Dispatch {
  import opened Wrappers
  import opened Text
  import opened Arduino
  import opened Decision

  /** What handleCommand does with a command text: send a command, or answer on its own. */
  datatype Action = Send(command: Command) | Reply(text: string)

  /** A reply of the HTTP server: status code and text/plain body. */
  datatype HttpReply = HttpReply(status: int, body: string)

  /** The argument after a six-character prefix ("speed=", "servo="), read by std::stoi. */
  function PrefixArgument(cmd: string, make: int -> Command): (a: Action)
    requires |cmd| >= 6
    ensures a.Reply? <==> Stoi(cmd[6..]).Err?
    ensures a.Reply? ==> StartsWith(a.text, "ERR: ")
  {
    match Stoi(cmd[6..])
    case Ok(v) => Send(make(v))
    case Err(e) =>
      var text := "ERR: Invalid argument - " + e.What();
      assert text[..5] == "ERR: ";
      Reply(text)
  }

  /** The exact-match table of HttpServerHandler.cpp; None for any other text. */
  function ServerTable(cmd: string): Option<Command>
  {
    if cmd == "start" then Some(Start(DefaultStartRamp))
    else if cmd == "stop" then Some(StopNow)
    else if cmd == "reverse" then Some(Reverse)
    else if cmd == "status" then Some(Status)
    else if cmd == "dir=1" then Some(Direction(1))
    else if cmd == "dir=-1" then Some(Direction(-1))
    else None
  }

  /**
   * handleCommand of HttpServerHandler.cpp: the connection test, then the
   * "speed=" and "servo=" prefixes, then the exact-match table.
   */
  function ServerDispatch(cmd: string, connected: bool): (a: Action)
    ensures !connected ==> a == Reply("Arduino not connected.")
    ensures connected && a.Reply? ==> StartsWith(a.text, "ERR: ")
  {
    if !connected then Reply("Arduino not connected.")
    else if StartsWith(cmd, "speed=") then PrefixArgument(cmd, v => Percent(v))
    else if StartsWith(cmd, "servo=") then PrefixArgument(cmd, v => Servo(v))
    else match ServerTable(cmd)
      case Some(c) => Send(c)
      case None => Reply("ERR: Unknown command")
  }

  /**
   * handleCommand of Hardware/main.cpp: the connection test, then "start",
   * "stop", "reverse" (as setDirection(-1)) and "status", then the prefixes,
   * then "dir=1" and "dir=-1".
   */
  function HardwareDispatch(cmd: string, connected: bool): (a: Action)
    ensures !connected ==> a == Reply("Arduino not connected.")
    ensures connected && a.Reply? ==> StartsWith(a.text, "ERR: ")
  {
    if !connected then Reply("Arduino not connected.")
    else if cmd == "start" then Send(Start(DefaultStartRamp))
    else if cmd == "stop" then Send(StopNow)
    else if cmd == "reverse" then Send(Direction(-1))
    else if cmd == "status" then Send(Status)
    else if StartsWith(cmd, "speed=") then PrefixArgument(cmd, v => Percent(v))
    else if StartsWith(cmd, "servo=") then PrefixArgument(cmd, v => Servo(v))
    else if cmd == "dir=1" then Send(Direction(1))
    else if cmd == "dir=-1" then Send(Direction(-1))
    else Reply("ERR: Unknown command")
  }

  /** None of the exact commands begins with a prefix, so the order of the tests does not matter. */
  lemma ExactCommandsHaveNoPrefix(cmd: string)
    requires ServerTable(cmd).Some?
    ensures !StartsWith(cmd, "speed=") && !StartsWith(cmd, "servo=")
  {
    if |cmd| >= 6 {
      assert cmd[..6][0] == cmd[0] && cmd[..6][1] == cmd[1];
    }
  }

  /** An exact command of the table is sent as its table entry once the Arduino is connected. */
  lemma ExactCommandDispatch(cmd: string, connected: bool)
    requires ServerTable(cmd).Some?
    ensures ServerDispatch(cmd, connected)
         == if connected then Send(ServerTable(cmd).value) else Reply("Arduino not connected.")
  {
    ExactCommandsHaveNoPrefix(cmd);
  }

  /** The two dispatchers agree on every command text except "reverse". */
  lemma DispatchersAgreeExceptReverse(cmd: string, connected: bool)
    requires cmd != "reverse"
    ensures ServerDispatch(cmd, connected) == HardwareDispatch(cmd, connected)
  {
    if connected && ServerTable(cmd).Some? {
      ExactCommandsHaveNoPrefix(cmd);
    }
  }

  /** On "reverse" the embedded server sends "REV" and the hardware controller "DIR:-1". */
  lemma DispatchersDifferOnReverse()
    ensures ServerDispatch("reverse", true) == Send(Reverse)
    ensures HardwareDispatch("reverse", true) == Send(Direction(-1))
    ensures Wire(Reverse) == "REV" && Wire(Direction(-1)) == "DIR:-1"
  {
    assert ServerTable("reverse") == Some(Reverse);
    ExactCommandDispatch("reverse", true);
    assert IntToString(-1) == "-1" by {
      assert NatToString(1) == "1";
    }
  }

  /** The shape of a "speed=" command carrying a formatted int. */
  lemma SpeedCommandShape(p: int, cmd: string)
    requires Int32Min <= p <= Int32Max && cmd == "speed=" + IntToString(p)
    ensures StartsWith(cmd, "speed=") && Stoi(cmd[6..]) == Ok(p)
    ensures cmd != "start" && cmd != "stop" && cmd != "reverse" && cmd != "status"
  {
    var rest := IntToString(p);
    SpeedPrefixShape(rest, cmd);
    StoiOfIntToString(p);
  }

  /** Any "speed=" command starts with that prefix, keeps its argument after it, and is none of the exact commands. */
  lemma SpeedPrefixShape(rest: string, cmd: string)
    requires cmd == "speed=" + rest
    ensures StartsWith(cmd, "speed=") && cmd[6..] == rest
    ensures cmd != "start" && cmd != "stop" && cmd != "reverse" && cmd != "status"
  {
    assert cmd[..6] == "speed=";
    assert cmd[0] == 's' && cmd[1] == 'p';
    DiffersAt(cmd, "start", 1);
    DiffersAt(cmd, "stop", 1);
    DiffersAt(cmd, "reverse", 0);
    DiffersAt(cmd, "status", 1);
  }

  /** A "speed=" command with a formatted int sends the speed command with that very int. */
  lemma SpeedCommandCarriesValue(p: int)
    requires Int32Min <= p <= Int32Max
    ensures ServerDispatch("speed=" + IntToString(p), true) == Send(Percent(p))
    ensures HardwareDispatch("speed=" + IntToString(p), true) == Send(Percent(p))
  {
    SpeedCommandShape(p, "speed=" + IntToString(p));
  }

  /** A prefix whose rest holds no digits answers with the stoi error instead of sending anything. */
  lemma BadArgumentAnswersInvalid(rest: string)
    requires Stoi(rest).Err?
    ensures ServerDispatch("servo=" + rest, true) == Reply("ERR: Invalid argument - stoi")
    ensures HardwareDispatch("servo=" + rest, true) == Reply("ERR: Invalid argument - stoi")
  {
    var cmd := "servo=" + rest;
    ServoPrefixShape(rest, cmd);
    PrefixErrorReply(cmd);
  }

  /** When stoi throws, the prefixed command answers with the same text whatever command it would have made. */
  lemma PrefixErrorReply(cmd: string)
    requires |cmd| >= 6 && Stoi(cmd[6..]).Err?
    ensures forall make: int -> Command :: PrefixArgument(cmd, make) == Reply("ERR: Invalid argument - stoi")
  {
  }

  /** Any "servo=" command starts with that prefix and not "speed=", keeps its argument, and is no exact command. */
  lemma ServoPrefixShape(rest: string, cmd: string)
    requires cmd == "servo=" + rest
    ensures StartsWith(cmd, "servo=") && !StartsWith(cmd, "speed=") && cmd[6..] == rest
    ensures cmd != "start" && cmd != "stop" && cmd != "reverse" && cmd != "status"
  {
    assert cmd[..6] == "servo=";
    assert cmd[0] == 's' && cmd[1] == 'e';
    DiffersAt(cmd, "speed=", 1);
    DiffersAt(cmd, "start", 1);
    DiffersAt(cmd, "stop", 1);
    DiffersAt(cmd, "reverse", 0);
    DiffersAt(cmd, "status", 1);
  }

  /** What the handler replies with: its own text, or the Arduino command's response. */
  function ActionReply(a: Action, connected: bool, writeError: Option<string>, arrived: string): string
  {
    match a
    case Reply(t) => t
    case Send(c) => Response(connected, c, writeError, arrived)
  }

  /** The lines an action writes to the Arduino: its command's line when the command goes out, and nothing otherwise. */
  function Sent(a: Action, connected: bool, writeError: Option<string>): seq<string>
  {
    match a
    case Reply(_) => []
    case Send(c) => if Writes(connected, c, writeError) then [Wire(c) + "\n"] else []
  }

  /** The /speed endpoint's reading of its body: std::stoi, or a 400 answer. */
  function SpeedBody(body: string): Result<int, string>
  {
    match Stoi(body)
    case Ok(v) => Ok(v)
    case Err(e) => Err("ERR: Invalid speed value - " + e.What())
  }

  /**
   * The embedded HTTP server: the Arduino it drives and the decision engine
   * whose threshold /threshold sets.
   */
  class ServerHandler {
    const arduino: ArduinoSerial
    const engine: DecisionEngine

    constructor (arduino: ArduinoSerial, engine: DecisionEngine)
      ensures this.arduino == arduino && this.engine == engine
    {
      this.arduino := arduino;
      this.engine := engine;
    }

    /** handleCommand with the command executed on the Arduino. */
    method HandleCommand(cmd: string, writeError: Option<string>, arrived: string) returns (response: string)
      modifies arduino
      ensures response == ActionReply(ServerDispatch(cmd, old(arduino.IsConnected())), old(arduino.IsConnected()), writeError, arrived)
      ensures arduino.written
        == old(arduino.written) + Sent(ServerDispatch(cmd, old(arduino.IsConnected())), old(arduino.IsConnected()), writeError)
      ensures arduino.serialPort == old(arduino.serialPort) && arduino.latestDistance == old(arduino.latestDistance)
    {
      var a := ServerDispatch(cmd, arduino.IsConnected());
      match a
      case Reply(t) =>
        response := t;
      case Send(c) =>
        response := arduino.Execute(c, writeError, arrived);
    }

    /** POST /rev: handleCommand("reverse"). */
    method PostRev(writeError: Option<string>, arrived: string) returns (reply: HttpReply)
      modifies arduino
      ensures reply.status == 200
      ensures old(arduino.IsConnected()) ==> reply.body == Response(true, Reverse, writeError, arrived)
      ensures arduino.written == old(arduino.written) + (if Writes(old(arduino.IsConnected()), Reverse, writeError) then ["REV\n"] else [])
      ensures arduino.serialPort == old(arduino.serialPort) && arduino.latestDistance == old(arduino.latestDistance)
      ensures !old(arduino.IsConnected()) ==> reply.body == "Arduino not connected."
    {
      assert ServerTable("reverse") == Some(Reverse);
      ExactCommandDispatch("reverse", arduino.IsConnected());
      assert Wire(Reverse) + "\n" == "REV\n";
      var body := HandleCommand("reverse", writeError, arrived);
      reply := HttpReply(200, body);
    }

    /** POST /stop: handleCommand("stop"). */
    method PostStop(writeError: Option<string>, arrived: string) returns (reply: HttpReply)
      modifies arduino
      ensures reply.status == 200
      ensures old(arduino.IsConnected()) ==> reply.body == Response(true, StopNow, writeError, arrived)
      ensures arduino.written == old(arduino.written) + (if Writes(old(arduino.IsConnected()), StopNow, writeError) then ["STOP:0\n"] else [])
      ensures arduino.serialPort == old(arduino.serialPort) && arduino.latestDistance == old(arduino.latestDistance)
      ensures !old(arduino.IsConnected()) ==> reply.body == "Arduino not connected."
    {
      assert ServerTable("stop") == Some(StopNow);
      ExactCommandDispatch("stop", arduino.IsConnected());
      assert Wire(StopNow) + "\n" == "STOP:0\n";
      var body := HandleCommand("stop", writeError, arrived);
      reply := HttpReply(200, body);
    }

    /** POST /speed: stoi of the body straight to setSpeed (no connection test), 400 when it fails. */
    method PostSpeed(body: string, writeError: Option<string>, arrived: string) returns (reply: HttpReply)
      modifies arduino
      ensures SpeedBody(body).Err? ==> reply == HttpReply(400, SpeedBody(body).error)
      ensures SpeedBody(body).Err? ==> arduino.written == old(arduino.written)
      ensures SpeedBody(body).Ok? ==>
        reply == HttpReply(200, Response(old(arduino.IsConnected()), Percent(SpeedBody(body).value), writeError, arrived))
      ensures SpeedBody(body).Ok? ==>
        arduino.written == old(arduino.written) + Sent(Send(Percent(SpeedBody(body).value)), old(arduino.IsConnected()), writeError)
      ensures arduino.serialPort == old(arduino.serialPort) && arduino.latestDistance == old(arduino.latestDistance)
    {
      match SpeedBody(body)
      case Err(e) =>
        reply := HttpReply(400, e);
      case Ok(percent) =>
        var response := arduino.Execute(Percent(percent), writeError, arrived);
        reply := HttpReply(200, response);
    }

    /**
     * POST /threshold: std::stod of the body (given as parsed) becomes the
     * engine's threshold; an exception leaves it and answers 400.
     */
    method PostThreshold(parsed: Result<real, string>) returns (reply: HttpReply)
      modifies engine
      ensures parsed.Ok? ==> engine.threshold == parsed.value && reply == HttpReply(200, "Threshold changed")
      ensures parsed.Err? ==>
                engine.threshold == old(engine.threshold)
                && reply == HttpReply(400, "ERR: Invalid threshold value - " + parsed.error)
      ensures engine.scans == old(engine.scans) && engine.numCamera == old(engine.numCamera)
      ensures engine.postedBatches == old(engine.postedBatches) && engine.servoAngles == old(engine.servoAngles)
    {
      match parsed
      case Ok(v) =>
        engine.SetThreshold(v);
        reply := HttpReply(200, "Threshold changed");
      case Err(what) =>
        reply := HttpReply(400, "ERR: Invalid threshold value - " + what);
    }
  }

  /**
   * The hardware controller's process: the run flag the signal handler
   * clears, and whether the HTTP server has been stopped.
   */
  class Controller {
    var runArd: bool
    var serverStopped: bool

    constructor ()
      ensures runArd && !serverStopped
    {
      runArd := true;
      serverStopped := false;
    }

    /** signalHandler for SIGINT and SIGTERM. */
    method Signal()
      modifies this
      ensures !runArd && serverStopped == old(serverStopped)
    {
      runArd := false;
    }

    /**
     * main's polling loop, one iteration per second: signals[i] says whether
     * a signal arrived during second i. The loop ends after the first second
     * with a signal, and then the server is stopped; with no signal in the
     * given seconds the controller is still running.
     */
    method Run(signals: seq<bool>) returns (seconds: nat)
      requires runArd && !serverStopped
      modifies this
      ensures (exists i :: 0 <= i < |signals| && signals[i]) <==> serverStopped
      ensures serverStopped ==>
                !runArd && 1 <= seconds <= |signals| && signals[seconds - 1]
                && forall i :: 0 <= i < seconds - 1 ==> !signals[i]
      ensures !serverStopped ==> runArd && seconds == |signals|
    {
      seconds := 0;
      while runArd && seconds < |signals|
        invariant 0 <= seconds <= |signals|
        invariant !serverStopped
        invariant runArd ==> forall i :: 0 <= i < seconds ==> !signals[i]
        invariant !runArd ==> 1 <= seconds && signals[seconds - 1] && forall i :: 0 <= i < seconds - 1 ==> !signals[i]
        decreases |signals| - seconds
      {
        if signals[seconds] {
          Signal();
        }
        seconds := seconds + 1;
      }
      if !runArd {
        serverStopped := true;
      }
    }
  }
}
