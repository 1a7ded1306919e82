/**
 * The sensor unit's serial driver (sensorunit/serial/serial.go): the reply to `read;` is
 * parsed into named readings, LCD text is cut to fit the display, the reply to a command is
 * picked out of the lines the device sends, and the connection is opened with a handshake of
 * at most three attempts. The serial port, its timing and the device monitor are inputs or
 * left out; a float read by `fmt.Sscanf` is the oracle `scan`.
 */
module SensorSerial {
  import opened Wrappers
  import opened Text
  import opened ApiTypes
  import opened Locking

  const HeloCommand := "helo;"
  const ReadCommand := "read;"
  const ShowCommand := "show"
  const HeloResponse := "helo"
  const LcdWidth := 15

  datatype Temperature = Temperature(name: string, value: real, unit: string)

  /** What parsing one reading as written can do: a reading, a skip, or an index panic. */
  datatype ReadingOutcome = Parsed(t: Temperature) | Skipped | IndexPanic

  /**
   * One reading of the reply, as the loop body of `GetTemperatures` is written: "NaN" is the
   * invalid reading in "C"; otherwise the last character is the unit and the rest the number.
   * An empty value text is indexed at position -1, which panics.
   */
  function ParseReadingAsWritten(reading: string, scan: string -> Option<real>): ReadingOutcome {
    var parts := Split(reading, '=');
    if |parts| != 2 then Skipped
    else if parts[1] == "NaN" then Parsed(Temperature(parts[0], InvalidTemperatureReading, "C"))
    else if parts[1] == "" then IndexPanic
    else
      var valueStr := parts[1];
      match scan(valueStr[..|valueStr| - 1])
      case None => Skipped
      case Some(v) => Parsed(Temperature(parts[0], v, [valueStr[|valueStr| - 1]]))
  }

  /**
   * One reading, with an empty value text skipped like any other malformed reading: the name
   * is the text before the single "=", the value "NaN" is the invalid reading in "C", and
   * otherwise the unit is the value's last character and the number the rest.
   */
  function ParseReading(reading: string, scan: string -> Option<real>): (r: Option<Temperature>)
    ensures r.Some? ==> |Split(reading, '=')| == 2 && r.value.name == Split(reading, '=')[0]
    ensures r.Some? ==> |r.value.unit| == 1
    ensures |Split(reading, '=')| == 2 && Split(reading, '=')[1] == "NaN" ==>
              r == Some(Temperature(Split(reading, '=')[0], InvalidTemperatureReading, "C"))
  {
    var parts := Split(reading, '=');
    if |parts| != 2 then None
    else if parts[1] == "NaN" then Some(Temperature(parts[0], InvalidTemperatureReading, "C"))
    else if parts[1] == "" then None
    else
      var valueStr := parts[1];
      match scan(valueStr[..|valueStr| - 1])
      case None => None
      case Some(v) => Some(Temperature(parts[0], v, [valueStr[|valueStr| - 1]]))
  }

  /** A reading whose value text is empty makes the loop as written panic; skipping it is what every other malformed reading gets. */
  lemma EmptyValuePanics(name: string, scan: string -> Option<real>)
    requires '=' !in name
    ensures ParseReadingAsWritten(name + "=", scan) == IndexPanic
    ensures ParseReading(name + "=", scan) == None
  {
    SplitJoin([name, ""], '=');
    assert Join([name, ""], '=') == name + "=";
  }

  /** Wherever the loop as written does not panic, it agrees with the corrected one. */
  lemma ParseReadingAgrees(reading: string, scan: string -> Option<real>)
    ensures ParseReadingAsWritten(reading, scan) != IndexPanic ==>
      ParseReading(reading, scan) == match ParseReadingAsWritten(reading, scan)
        case Parsed(t) => Some(t)
        case _ => None
  {
  }

  /** `name=<number><unit>` reads back the number `scan` gives and the one-character unit. */
  lemma ReadingRoundTrip(name: string, number: string, unit: char, v: real, scan: string -> Option<real>)
    requires '=' !in name && '=' !in number && unit != '=' && scan(number) == Some(v)
    requires number + [unit] != "NaN"
    ensures ParseReading(name + "=" + number + [unit], scan) == Some(Temperature(name, v, [unit]))
  {
    var value := number + [unit];
    assert '=' !in value by {
      assert forall c :: c in value ==> c in number || c == unit;
    }
    SplitJoin([name, value], '=');
    assert Join([name, value], '=') == name + "=" + number + [unit];
    assert value[..|value| - 1] == number;
  }

  /** The readings kept from a reply, in reply order. */
  function ParseReadings(readings: seq<string>, scan: string -> Option<real>): (r: seq<Temperature>)
    ensures |r| <= |readings|
  {
    if readings == [] then []
    else
      var init := ParseReadings(readings[..|readings| - 1], scan);
      match ParseReading(readings[|readings| - 1], scan)
      case None => init
      case Some(t) => init + [t]
  }

  /** Parsing keeps reply order: the readings of a longer reply extend those of its beginning. */
  lemma {:induction false} ParseReadingsAppend(a: seq<string>, b: seq<string>, scan: string -> Option<real>)
    ensures ParseReadings(a + b, scan) == ParseReadings(a, scan) + ParseReadings(b, scan)
    decreases |b|
  {
    if b == [] {
      assert a + b == a;
    } else {
      var b' := b[..|b| - 1];
      assert (a + b)[..|a + b| - 1] == a + b';
      assert (a + b)[|a + b| - 1] == b[|b| - 1];
      ParseReadingsAppend(a, b', scan);
    }
  }

  /** Every kept temperature comes from a reading of the reply. */
  lemma {:induction false} ParseReadingsFrom(readings: seq<string>, scan: string -> Option<real>)
    ensures forall t :: t in ParseReadings(readings, scan) ==> exists i :: 0 <= i < |readings| && ParseReading(readings[i], scan) == Some(t)
  {
    if readings != [] {
      var init := readings[..|readings| - 1];
      ParseReadingsFrom(init, scan);
      forall t | t in ParseReadings(readings, scan)
        ensures exists i :: 0 <= i < |readings| && ParseReading(readings[i], scan) == Some(t)
      {
        if t in ParseReadings(init, scan) {
          var i :| 0 <= i < |init| && ParseReading(init[i], scan) == Some(t);
          assert readings[i] == init[i];
        } else {
          assert ParseReading(readings[|readings| - 1], scan) == Some(t);
        }
      }
    }
  }

  /**
   * The parsing part of `GetTemperatures`: a reply that does not split into exactly three
   * comma-separated readings is an error; otherwise each reading is parsed in turn and kept
   * when it parses.
   */
  method ParseReply(response: string, scan: string -> Option<real>) returns (r: Result<seq<Temperature>>)
    ensures |Split(response, ',')| != 3 <==> r.Err?
    ensures r.Ok? ==> r.value == ParseReadings(Split(response, ','), scan) && |r.value| <= 3
  {
    var readings := Split(response, ',');
    if |readings| != 3 {
      return Err("invalid temperature reading format: " + response);
    }
    var temperatures: seq<Temperature> := [];
    for i := 0 to |readings|
      invariant temperatures == ParseReadings(readings[..i], scan)
    {
      assert readings[..i + 1][..i] == readings[..i];
      var parsed := ParseReading(readings[i], scan);
      if parsed.Some? {
        temperatures := temperatures + [parsed.value];
      }
    }
    assert readings[..|readings|] == readings;
    r := Ok(temperatures);
  }

  /** `SetStatusText`'s command: "show ", at most the first 15 characters of the text, and ";". */
  function ShowCommandText(text: string): (r: string)
    ensures |text| <= LcdWidth ==> r == ShowCommand + " " + text + ";"
    ensures |text| > LcdWidth ==> r == ShowCommand + " " + text[..LcdWidth] + ";"
    ensures |r| <= |ShowCommand| + 2 + LcdWidth && StartsWith(r, ShowCommand)
  {
    var shown := if |text| > LcdWidth then text[..LcdWidth] else text;
    var r := ShowCommand + " " + shown + ";";
    assert r[..|ShowCommand|] == ShowCommand;
    r
  }

  /** Whether a received (trimmed, non-blank) line answers the command. */
  predicate Answers(cmd: string, line: string) {
    (StartsWith(cmd, ReadCommand) && '=' in line) || (StartsWith(cmd, HeloCommand) && line == HeloResponse)
  }

  /** The reply `sendCommand` settles on: the first trimmed, non-blank line that answers the command, or "". */
  function FirstAnswer(cmd: string, lines: seq<string>): (r: string)
    ensures r == "" || exists i :: 0 <= i < |lines| && r == Trim(lines[i]) && Answers(cmd, r)
  {
    if lines == [] then ""
    else
      var line := Trim(lines[0]);
      if line != "" && Answers(cmd, line) then line
      else
        var rest := FirstAnswer(cmd, lines[1..]);
        assert rest != "" ==> exists i :: 1 <= i < |lines| && rest == Trim(lines[i]) && Answers(cmd, rest) by {
          if rest != "" {
            var i :| 0 <= i < |lines[1..]| && rest == Trim(lines[1..][i]) && Answers(cmd, rest);
            assert lines[i + 1] == lines[1..][i];
          }
        }
        rest
  }

  /** A reply to `read;` contains "="; a reply to `helo;` is "helo"; lines that answer nothing are skipped. */
  lemma FirstAnswerMeaning(lines: seq<string>)
    ensures var r := FirstAnswer(ReadCommand, lines); r == "" || '=' in r
    ensures var r := FirstAnswer(HeloCommand, lines); r == "" || r == HeloResponse
  {
    var r := FirstAnswer(ReadCommand, lines);
    var h := FirstAnswer(HeloCommand, lines);
    assert !StartsWith(ReadCommand, HeloCommand) by {
      assert ReadCommand[0] != HeloCommand[0];
    }
    assert !StartsWith(HeloCommand, ReadCommand) by {
      assert ReadCommand[0] != HeloCommand[0];
    }
  }

  /** The scanning loop of `sendCommand`. */
  method ScanLines(cmd: string, lines: seq<string>) returns (response: string)
    ensures response == FirstAnswer(cmd, lines)
  {
    response := "";
    var i := 0;
    while i < |lines|
      invariant 0 <= i <= |lines|
      invariant FirstAnswer(cmd, lines) == FirstAnswer(cmd, lines[i..])
    {
      assert lines[i..][1..] == lines[i + 1..];
      var line := Trim(lines[i]);
      if line == "" {
        i := i + 1;
        continue;
      }
      if Answers(cmd, line) {
        response := line;
        return;
      }
      i := i + 1;
    }
  }

  /** The device's side of one command: whether the write succeeded, the lines it sent, whether reading them failed. */
  datatype Exchange = Exchange(writeOk: bool, lines: seq<string>, scanOk: bool)

  /** Whether an attempt on a connected unit gets "helo" back: the write and the reading succeed and the answer is "helo". */
  predicate Greets(a: Exchange) {
    a.writeOk && a.scanOk && FirstAnswer(HeloCommand, a.lines) == HeloResponse
  }

  /**
   * The handshake from attempt k on: the index of the attempt that gets "helo" back, or None.
   * A failed write disconnects the unit, so every later attempt fails with "not connected".
   */
  function FirstGreeting(attempts: seq<Exchange>, k: nat): (r: Option<nat>)
    requires k <= |attempts|
    ensures r.Some? ==> k <= r.value < |attempts|
    decreases |attempts| - k
  {
    if k == |attempts| then None
    else if !attempts[k].writeOk then None
    else if Greets(attempts[k]) then Some(k)
    else FirstGreeting(attempts, k + 1)
  }

  /**
   * The handshake succeeds at attempt k exactly when attempt k gets "helo" back and every
   * earlier attempt was written but not greeted.
   */
  lemma {:induction false} FirstGreetingMeaning(attempts: seq<Exchange>, k: nat, n: nat)
    requires k <= |attempts|
    ensures FirstGreeting(attempts, k) == Some(n) <==>
      k <= n < |attempts| && Greets(attempts[n]) &&
      forall j :: k <= j < n ==> attempts[j].writeOk && !Greets(attempts[j])
    decreases |attempts| - k
  {
    if k < |attempts| && attempts[k].writeOk && !Greets(attempts[k]) {
      FirstGreetingMeaning(attempts, k + 1, n);
    }
  }

  /** Whether `Connect` leaves the unit connected: it already was, or the port opens and the handshake succeeds. */
  predicate Connects(wasConnected: bool, portOpens: bool, attempts: seq<Exchange>)
    requires |attempts| == 3
  {
    wasConnected || (portOpens && FirstGreeting(attempts, 0).Some?)
  }

  /** `Close`'s locking: `s.mutex.Lock()` and the deferred `Unlock` (sensorunit/serial/serial.go:138-139). */
  function CloseLocks(): seq<LockOp> {
    [Acquire, Release]
  }

  /** `sendCommand` as written: `s.mutex.Lock()` and the deferred `Unlock` (sensorunit/serial/serial.go:290-291), and in between, when the write fails, a call of `Close`. */
  function SendCommandLocksAsWritten(writeOk: bool): seq<LockOp> {
    [Acquire] + (if writeOk then [] else CloseLocks()) + [Release]
  }

  /** With the disconnect done in place under the mutex it already holds. */
  function SendCommandLocks(writeOk: bool): seq<LockOp> {
    [Acquire, Release]
  }

  /** A failed write makes `sendCommand` as written wait on its own mutex; a successful one does not. */
  lemma WriteFailureDeadlocks(writeOk: bool)
    ensures RunLock(SendCommandLocksAsWritten(writeOk), false) == None <==> !writeOk
  {
    if writeOk {
      var ops := SendCommandLocksAsWritten(writeOk);
      assert ops == [Acquire, Release];
      assert ops[1..] == [Release] && ops[1..][1..] == [];
      assert RunLock(ops[1..], true) == Some(false);
    } else {
      var ops := SendCommandLocksAsWritten(writeOk);
      assert ops == [Acquire, Acquire, Release, Release];
      assert RunLock(ops[1..], true) == None;
    }
  }

  /** Disconnecting in place always leaves the mutex free again. */
  lemma InPlaceDisconnectReleases(writeOk: bool)
    ensures RunLock(SendCommandLocks(writeOk), false) == Some(false)
  {
  }

  class SensorUnit {
    var connected: bool

    constructor ()
      ensures !connected
    {
      connected := false;
    }

    /**
     * `sendCommand`: an error when not connected; a failed write disconnects and is an error;
     * a show command reads nothing; otherwise the first line that answers the command, or an
     * error when reading the lines failed.
     */
    method SendCommand(cmd: string, ex: Exchange) returns (response: string, err: Option<string>)
      modifies this
      ensures !old(connected) ==> err == Some("not connected to sensor unit") && response == "" && !connected
      ensures old(connected) && !ex.writeOk ==> err.Some? && response == "" && !connected
      ensures old(connected) && ex.writeOk ==> connected
      ensures err == None ==> connected
      ensures old(connected) && ex.writeOk && StartsWith(cmd, ShowCommand) ==> err == None && response == ""
      ensures old(connected) && ex.writeOk && !StartsWith(cmd, ShowCommand) ==>
        (err == None <==> ex.scanOk) && (ex.scanOk ==> response == FirstAnswer(cmd, ex.lines)) && (!ex.scanOk ==> response == "")
    {
      if !connected {
        return "", Some("not connected to sensor unit");
      }
      if !ex.writeOk {
        connected := false;
        return "", Some("failed to send command");
      }
      if StartsWith(cmd, ShowCommand) {
        return "", None;
      }
      response := ScanLines(cmd, ex.lines);
      if !ex.scanOk {
        return "", Some("failed to read response");
      }
      err := None;
    }

    /**
     * `Connect`: nothing to do when connected. Otherwise the port is opened (`portOpens` says
     * whether that worked) and the handshake is tried up to three times, `attempts[k]` being
     * the device's side of attempt k + 1; the unit stays connected only when an attempt got
     * "helo" back without error.
     */
    method Connect(portOpens: bool, attempts: seq<Exchange>) returns (err: Option<string>, tries: nat)
      requires |attempts| == 3
      modifies this
      ensures old(connected) ==> err == None && tries == 0 && connected
      ensures !old(connected) && !portOpens ==> err.Some? && tries == 0 && !connected
      ensures !old(connected) && portOpens ==>
        (err == None <==> FirstGreeting(attempts, 0).Some?) &&
        tries == (if FirstGreeting(attempts, 0).Some? then FirstGreeting(attempts, 0).value + 1 else 3)
      ensures connected <==> err == None
      ensures err == None <==> Connects(old(connected), portOpens, attempts)
    {
      if connected {
        return None, 0;
      }
      if !portOpens {
        return Some("failed to open serial port"), 0;
      }
      assert !StartsWith(HeloCommand, ShowCommand) by {
        assert HeloCommand[0] != ShowCommand[0];
      }
      connected := true;
      var response := "";
      var sendErr: Option<string> := None;
      tries := 0;
      while tries < 3
        invariant 0 <= tries <= 3
        invariant connected ==> FirstGreeting(attempts, 0) == FirstGreeting(attempts, tries)
        invariant !connected ==> FirstGreeting(attempts, 0) == None
        invariant tries > 0 ==> sendErr != None || response != HeloResponse
      {
        var attempt := attempts[tries];
        response, sendErr := SendCommand(HeloCommand, attempt);
        if sendErr == None && response == HeloResponse {
          assert Greets(attempt);
          tries := tries + 1;
          break;
        }
        tries := tries + 1;
      }
      if sendErr != None || response != HeloResponse {
        connected := false;
        return Some("failed to connect to sensor unit"), tries;
      }
      err := None;
    }

    /** `Close`: nothing to do when disconnected; otherwise disconnects and passes on the port's close error. */
    method Close(closeErr: Option<string>) returns (err: Option<string>)
      modifies this
      ensures !connected
      ensures err == if old(connected) then closeErr else None
    {
      if !connected {
        return None;
      }
      connected := false;
      err := closeErr;
    }

    /**
     * `SetStatusText`: connects, then sends the cut-down show command; the reply is not read.
     * The command goes out exactly when the unit connects, and the call succeeds exactly when
     * it also gets written.
     */
    method SetStatusText(text: string, portOpens: bool, attempts: seq<Exchange>, ex: Exchange)
      returns (command: Option<string>, err: Option<string>)
      requires |attempts| == 3
      modifies this
      ensures command.Some? <==> Connects(old(connected), portOpens, attempts)
      ensures command.Some? ==> command.value == ShowCommandText(text)
      ensures err == None <==> command.Some? && ex.writeOk
      ensures err == None ==> connected
    {
      var connectErr, _ := Connect(portOpens, attempts);
      if connectErr.Some? {
        return None, connectErr;
      }
      var cmd := ShowCommandText(text);
      var _, sendErr := SendCommand(cmd, ex);
      return Some(cmd), sendErr;
    }

    /**
     * `GetTemperatures`: connects, sends `read;` and parses the reply. Not connecting, a
     * failed write and a failed read are errors; otherwise the result is the parse of the
     * first line that answers `read;`.
     */
    method GetTemperatures(portOpens: bool, attempts: seq<Exchange>, ex: Exchange, scan: string -> Option<real>)
      returns (r: Result<seq<Temperature>>)
      requires |attempts| == 3
      modifies this
      ensures !Connects(old(connected), portOpens, attempts) ==> r.Err?
      ensures Connects(old(connected), portOpens, attempts) && (!ex.writeOk || !ex.scanOk) ==> r.Err?
      ensures Connects(old(connected), portOpens, attempts) && ex.writeOk && ex.scanOk ==>
        var reply := Split(FirstAnswer(ReadCommand, ex.lines), ',');
        (r.Err? <==> |reply| != 3) && (r.Ok? ==> r.value == ParseReadings(reply, scan))
      ensures r.Ok? ==> |r.value| <= 3
    {
      var connectErr, _ := Connect(portOpens, attempts);
      if connectErr.Some? {
        return Err(connectErr.value);
      }
      assert !StartsWith(ReadCommand, ShowCommand) by {
        assert ReadCommand[0] != ShowCommand[0];
      }
      var response, sendErr := SendCommand(ReadCommand, ex);
      if sendErr.Some? {
        return Err(sendErr.value);
      }
      r := ParseReply(response, scan);
    }
  }
}
