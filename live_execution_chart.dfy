/**
 * The console's live chart of the running program (webapp LiveExecutionChart).
 * It fetches a CSV snapshot of the execution log once, then follows a websocket
 * stream of CSV lines, keeping the accumulated text in `csvData`. The component's
 * React state and refs are the fields of `LiveChart`; each browser event (snapshot
 * reply, socket open, message, error, close, reconnect timer, effect cleanup) is
 * one method. What a message does to the text is the pure function `Reconcile`.
 */
module LiveExecutionChart {
  import opened Wrappers
  import opened Text
  import ExecutionChart

  /** The message the server sends instead of CSV when no program runs. */
  const NoProgramSentinel := "No program running"
  /** Every message starting with this is a header line and is skipped. */
  const HeaderPrefix := "time,step,steptime"
  /** Delay of the reconnect timer, in milliseconds. */
  const ReconnectDelayMs := 5000

  // ---------------------------------------------------------------------------
  // The line reconciler
  // ---------------------------------------------------------------------------

  /** What the message handler makes of one websocket message, after trimming it. */
  datatype Message = Sentinel | Blank | Header | Row(line: string)

  function Classify(data: string): (m: Message)
    ensures m.Row? ==> m.line != ""
  {
    var message := Trim(data);
    if message == NoProgramSentinel then Sentinel
    else if message == "" then Blank
    else if StartsWith(message, HeaderPrefix) then Header
    else Row(message)
  }

  /** parseInt of the text before the first comma; None is NaN. */
  function LeadingTimestamp(line: string): Option<int> {
    ParseInt(Split(line, ',')[0])
  }

  /** The functional state update that appends one line to the accumulated text. */
  function AppendLine(prev: string, line: string): string {
    if prev == "" then line
    else if EndsWith(prev, "\n") then prev + line
    else prev + "\n" + line
  }

  /** The part of the component state the message handler rewrites. */
  datatype Feed = Feed(csv: string, lastTimestamp: int)

  /**
   * The effect of one message on (csvData, lastTimestamp). The sentinel clears the
   * text; blank and header messages change nothing; a row whose leading field is an
   * integer is appended only when that integer exceeds lastTimestamp, which then
   * becomes it; a row without an integer leading field is always appended.
   */
  function Reconcile(f: Feed, data: string): (r: Feed)
    ensures r.lastTimestamp >= f.lastTimestamp
  {
    match Classify(data)
    case Sentinel => Feed("", f.lastTimestamp)
    case Blank => f
    case Header => f
    case Row(line) =>
      match LeadingTimestamp(line)
      case Some(t) => if t <= f.lastTimestamp then f else Feed(AppendLine(f.csv, line), t)
      case None => Feed(AppendLine(f.csv, line), f.lastTimestamp)
  }

  /**
   * The sentinel test comes first, so a message that trims to the sentinel is never
   * treated as blank or as a row; rows are the non-empty, non-header trimmed messages.
   */
  lemma ClassifyCases(data: string)
    ensures Classify(data) == Sentinel <==> Trim(data) == NoProgramSentinel
    ensures Classify(data) == Blank <==> Trim(data) == ""
    ensures Classify(data) == Header <==> StartsWith(Trim(data), HeaderPrefix) && Trim(data) != NoProgramSentinel
    ensures Classify(data).Row? ==>
      Classify(data).line == Trim(data) && Classify(data).line != "" && !StartsWith(Classify(data).line, HeaderPrefix)
  {
  }

  /** The sentinel clears the text and keeps lastTimestamp; blank and header messages change nothing. */
  lemma ReconcileNonRow(f: Feed, data: string)
    ensures Trim(data) == NoProgramSentinel ==> Reconcile(f, data) == Feed("", f.lastTimestamp)
    ensures Trim(data) == "" || (StartsWith(Trim(data), HeaderPrefix) && Trim(data) != NoProgramSentinel) ==>
      Reconcile(f, data) == f
  {
  }

  /**
   * A row with an integer leading field t changes the state iff t > lastTimestamp;
   * it is then appended and t becomes lastTimestamp.
   */
  lemma ReconcileTimedRow(f: Feed, data: string)
    requires Classify(data).Row? && LeadingTimestamp(Classify(data).line).Some?
    ensures var t := LeadingTimestamp(Classify(data).line).value;
      (t > f.lastTimestamp <==> Reconcile(f, data) != f) &&
      (t > f.lastTimestamp ==> Reconcile(f, data) == Feed(AppendLine(f.csv, Classify(data).line), t))
  {
    var line := Classify(data).line;
    var t := LeadingTimestamp(line).value;
    if t > f.lastTimestamp {
      AppendLineGrows(f.csv, line);
    }
  }

  /** A row without an integer leading field is appended and lastTimestamp stays. */
  lemma ReconcileUntimedRow(f: Feed, data: string)
    requires Classify(data).Row? && LeadingTimestamp(Classify(data).line).None?
    ensures Reconcile(f, data).lastTimestamp == f.lastTimestamp
    ensures Reconcile(f, data).csv == AppendLine(f.csv, Classify(data).line)
    ensures |Reconcile(f, data).csv| > |f.csv|
  {
    AppendLineGrows(f.csv, Classify(data).line);
  }

  /** Appending keeps the prior text as a prefix and adds the line after it. */
  lemma AppendLineGrows(prev: string, line: string)
    requires line != ""
    ensures StartsWith(AppendLine(prev, line), prev)
    ensures EndsWith(AppendLine(prev, line), line)
    ensures |AppendLine(prev, line)| > |prev|
  {
    var r := AppendLine(prev, line);
    if prev == "" {
    } else if EndsWith(prev, "\n") {
      assert r == prev + line;
      assert r[..|prev|] == prev;
      assert r[|r| - |line|..] == line;
    } else {
      assert r == prev + ("\n" + line);
      assert r[..|prev|] == prev;
      assert r[|r| - |line|..] == line;
    }
  }

  /**
   * Appending makes the message exactly one new last line: after empty text it is the
   * only line, after text ending in a newline it fills the empty last line, and
   * otherwise it follows all existing lines.
   */
  lemma {:induction false} AppendLineLines(prev: string, line: string)
    requires '\n' !in line
    ensures prev == "" ==> Split(AppendLine(prev, line), '\n') == [line]
    ensures prev != "" && EndsWith(prev, "\n") ==>
      var before := Split(prev, '\n');
      before[|before| - 1] == "" && Split(AppendLine(prev, line), '\n') == before[..|before| - 1] + [line]
    ensures prev != "" && !EndsWith(prev, "\n") ==>
      Split(AppendLine(prev, line), '\n') == Split(prev, '\n') + [line]
  {
    SplitSingle(line, '\n');
    if prev != "" && EndsWith(prev, "\n") {
      AppendAfterNewline(prev[..|prev| - 1], line);
      assert prev == prev[..|prev| - 1] + ['\n'];
    } else if prev != "" {
      SplitAppend(prev, line, '\n');
    }
  }

  /** The text up to a final newline, then a line: the line replaces the empty last piece. */
  lemma AppendAfterNewline(a: string, line: string)
    requires '\n' !in line
    ensures var before := Split(a + ['\n'], '\n');
      |before| >= 1 && before[|before| - 1] == "" &&
      Split(a + ['\n'] + line, '\n') == before[..|before| - 1] + [line]
  {
    assert a + ['\n'] == a + ['\n'] + "";
    SplitAppend(a, "", '\n');
    SplitAppend(a, line, '\n');
    SplitSingle(line, '\n');
    SplitSingle("", '\n');
  }

  /** Splitting text joined at a separator splits each side. */
  lemma SplitAppend(a: string, b: string, sep: char)
    ensures Split(a + [sep] + b, sep) == Split(a, sep) + Split(b, sep)
  {
    var x, y := Split(a, sep), Split(b, sep);
    SeparatorFreeAppend(x, y, sep);
    JoinAppend(x, y, sep);
    SplitJoin(x + y, sep);
  }

  /** Pieces free of the separator stay free of it when two lists of them are concatenated. */
  lemma SeparatorFreeAppend(x: seq<string>, y: seq<string>, sep: char)
    requires forall i :: 0 <= i < |x| ==> sep !in x[i]
    requires forall i :: 0 <= i < |y| ==> sep !in y[i]
    ensures forall i :: 0 <= i < |x + y| ==> sep !in (x + y)[i]
  {
    forall i | 0 <= i < |x + y| ensures sep !in (x + y)[i] {
      if i < |x| { assert (x + y)[i] == x[i]; } else { assert (x + y)[i] == y[i - |x|]; }
    }
  }

  lemma {:induction false} JoinAppend(x: seq<string>, y: seq<string>, sep: char)
    requires |x| >= 1 && |y| >= 1
    ensures Join(x + y, sep) == Join(x, sep) + [sep] + Join(y, sep)
  {
    if |x| > 1 {
      JoinAppend(x[1..], y, sep);
      assert (x + y)[1..] == x[1..] + y;
    } else {
      assert (x + y)[1..] == y;
    }
  }

  /** The state after a whole stream of messages. */
  function ReconcileAll(f: Feed, messages: seq<string>): Feed
    decreases |messages|
  {
    if messages == [] then f else ReconcileAll(Reconcile(f, messages[0]), messages[1..])
  }

  /** The integer timestamp of the message if the message appends a timed row, as a zero- or one-element list. */
  function AcceptedHere(f: Feed, data: string): seq<int> {
    var m := Classify(data);
    if m.Row? && LeadingTimestamp(m.line).Some? && LeadingTimestamp(m.line).value > f.lastTimestamp
    then [LeadingTimestamp(m.line).value] else []
  }

  lemma AcceptedHereFacts(f: Feed, data: string)
    ensures |AcceptedHere(f, data)| <= 1
    ensures |AcceptedHere(f, data)| == 1 ==>
      AcceptedHere(f, data)[0] > f.lastTimestamp && Reconcile(f, data).lastTimestamp == AcceptedHere(f, data)[0]
  {
  }

  /** The integer timestamps of the rows that were appended, in arrival order. */
  function Accepted(f: Feed, messages: seq<string>): seq<int>
    decreases |messages|
  {
    if messages == [] then []
    else AcceptedHere(f, messages[0]) + Accepted(Reconcile(f, messages[0]), messages[1..])
  }

  /** lastTimestamp never decreases over a stream. */
  lemma {:induction false} StreamMonotonic(f: Feed, messages: seq<string>)
    ensures ReconcileAll(f, messages).lastTimestamp >= f.lastTimestamp
    decreases |messages|
  {
    if messages != [] {
      StreamMonotonic(Reconcile(f, messages[0]), messages[1..]);
    }
  }

  predicate StrictlyIncreasing(a: seq<int>) {
    forall i, j :: 0 <= i < j < |a| ==> a[i] < a[j]
  }

  /** Every element lies in the half-open interval (lo, hi]. */
  predicate Within(a: seq<int>, lo: int, hi: int) {
    forall i :: 0 <= i < |a| ==> lo < a[i] <= hi
  }

  /**
   * Accepted timestamps strictly increase, all exceed the lastTimestamp the stream
   * started from, and none exceeds the final lastTimestamp.
   */
  lemma {:induction false} AcceptedIncreasing(f: Feed, messages: seq<string>)
    ensures StrictlyIncreasing(Accepted(f, messages))
    ensures Within(Accepted(f, messages), f.lastTimestamp, ReconcileAll(f, messages).lastTimestamp)
    decreases |messages|
  {
    if messages != [] {
      var next := Reconcile(f, messages[0]);
      var here := AcceptedHere(f, messages[0]);
      var rest := Accepted(next, messages[1..]);
      var final := ReconcileAll(f, messages);
      assert final == ReconcileAll(next, messages[1..]);
      assert Accepted(f, messages) == here + rest;
      AcceptedIncreasing(next, messages[1..]);
      StreamMonotonic(next, messages[1..]);
      AcceptedHereFacts(f, messages[0]);
      PrependIncreasing(here, rest, f.lastTimestamp, next.lastTimestamp, final.lastTimestamp);
    }
  }

  lemma PrependIncreasing(here: seq<int>, rest: seq<int>, lo: int, mid: int, hi: int)
    requires |here| <= 1 && (|here| == 1 ==> lo < here[0] == mid) && lo <= mid <= hi
    requires StrictlyIncreasing(rest) && Within(rest, mid, hi)
    ensures StrictlyIncreasing(here + rest) && Within(here + rest, lo, hi)
  {
    var a := here + rest;
    forall i | 0 <= i < |a| ensures lo < a[i] <= hi {
      if i >= |here| { assert a[i] == rest[i - |here|]; }
    }
    forall i, j | 0 <= i < j < |a| ensures a[i] < a[j] {
      assert a[j] == rest[j - |here|];
      if i >= |here| { assert a[i] == rest[i - |here|]; }
    }
  }

  /**
   * Once a row with an integer timestamp has been handled, replaying it later, after
   * any further messages, changes nothing: a row is never appended twice.
   */
  lemma ReplayIgnored(f: Feed, data: string, later: seq<string>)
    requires Classify(data).Row? && LeadingTimestamp(Classify(data).line).Some?
    ensures var s := ReconcileAll(Reconcile(f, data), later); Reconcile(s, data) == s
  {
    var t := LeadingTimestamp(Classify(data).line).value;
    ReconcileTimedRow(f, data);
    assert Reconcile(f, data).lastTimestamp >= t;
    var s := ReconcileAll(Reconcile(f, data), later);
    StreamMonotonic(Reconcile(f, data), later);
    ReconcileTimedRow(s, data);
  }

  /** Replaying any message other than a row without integer timestamp is idempotent. */
  lemma ReplayIdempotent(f: Feed, data: string)
    requires !(Classify(data).Row? && LeadingTimestamp(Classify(data).line).None?)
    ensures Reconcile(Reconcile(f, data), data) == Reconcile(f, data)
  {
  }

  /** lastTimestamp starts at 0, so a first streamed row at time 0 is discarded. */
  lemma ZeroRowDiscardedAtStart(csv: string, rest: string)
    requires rest == [] || !IsDigit(rest[0])
    requires Classify(IntToString(0) + rest) == Row(IntToString(0) + rest)
    ensures Reconcile(Feed(csv, 0), IntToString(0) + rest) == Feed(csv, 0)
  {
    LeadingOfIntRow(0, rest);
    ReconcileTimedRow(Feed(csv, 0), IntToString(0) + rest);
  }

  /** The leading field of a line written as an integer then non-digit text reads back as that integer. */
  lemma LeadingOfIntRow(t: int, rest: string)
    requires rest == [] || !IsDigit(rest[0])
    ensures LeadingTimestamp(IntToString(t) + rest) == Some(t)
  {
    var text := IntToString(t);
    var pieces := Split(text + rest, ',');
    assert ',' !in text by {
      var digits := NatToString(if t < 0 then -t else t);
      forall i | 0 <= i < |text| ensures text[i] != ',' {
        if t < 0 && i == 0 { } else if t < 0 { assert text[i] == digits[i - 1]; } else { assert text[i] == digits[i]; }
      }
    }
    SplitPrefix(text, rest, ',');
    var first := pieces[0];
    assert first == text + rest[..|first| - |text|];
    var tail := rest[..|first| - |text|];
    assert tail == [] || !IsDigit(tail[0]);
    ParseIntToString(t, tail);
  }

  /** The first piece of a split starts with any separator-free prefix of the text. */
  lemma {:induction false} SplitPrefix(a: string, b: string, sep: char)
    requires sep !in a
    ensures |Split(a + b, sep)[0]| >= |a|
    ensures Split(a + b, sep)[0] == a + b[..|Split(a + b, sep)[0]| - |a|]
    decreases |a|
  {
    if a != [] {
      assert (a + b)[0] == a[0] && (a + b)[1..] == a[1..] + b;
      assert a[0] in a;
      assert forall c :: c in a[1..] ==> c in a;
      SplitPrefix(a[1..], b, sep);
    } else {
      assert a + b == b;
      JoinFirst(Split(b, sep), sep);
    }
  }

  lemma JoinFirst(parts: seq<string>, sep: char)
    requires |parts| >= 1
    ensures |parts[0]| <= |Join(parts, sep)| && Join(parts, sep)[..|parts[0]|] == parts[0]
  {
  }

  // ---------------------------------------------------------------------------
  // The snapshot
  // ---------------------------------------------------------------------------

  /** The one-shot REST request for the accumulated log: an HTTP reply, or a failure. */
  datatype SnapshotReply = Reply(status: int, body: string) | RequestFailed

  /**
   * lastTimestamp after a 2xx snapshot body: the leading integer of the last line when
   * the trimmed body has at least two lines and that field is an integer, otherwise the
   * value it had.
   */
  function SnapshotTimestamp(body: string, last: int): (r: int)
  {
    LastRowTimestamp(Split(Trim(body), '\n'), last)
  }

  function LastRowTimestamp(lines: seq<string>, last: int): int {
    if |lines| > 1 then
      match LeadingTimestamp(lines[|lines| - 1])
      case Some(t) => t
      case None => last
    else last
  }

  /**
   * A snapshot of at least two lines (a header and rows), the last of which starts
   * with the integer t, sets lastTimestamp to t.
   */
  lemma SnapshotLastRow(lines: seq<string>, t: int, tail: string, last: int)
    requires |lines| >= 2 && lines[|lines| - 1] == IntToString(t) + tail
    requires tail == [] || !IsDigit(tail[0])
    requires forall i :: 0 <= i < |lines| ==> '\n' !in lines[i]
    requires Trim(Join(lines, '\n')) == Join(lines, '\n')
    ensures SnapshotTimestamp(Join(lines, '\n'), last) == t
  {
    var body := Join(lines, '\n');
    SplitJoin(lines, '\n');
    assert Split(Trim(body), '\n') == lines;
    LeadingOfIntRow(t, tail);
    assert LeadingTimestamp(lines[|lines| - 1]) == Some(t);
  }

  /** With lastTimestamp t, a streamed row at or before t is discarded, whatever the text. */
  lemma StaleRowDiscarded(csv: string, t: int, data: string)
    requires Classify(data).Row? && LeadingTimestamp(Classify(data).line).Some?
    requires LeadingTimestamp(Classify(data).line).value <= t
    ensures Reconcile(Feed(csv, t), data) == Feed(csv, t)
  {
    ReconcileTimedRow(Feed(csv, t), data);
  }

  // ---------------------------------------------------------------------------
  // The component
  // ---------------------------------------------------------------------------

  /** A browser WebSocket's readyState. */
  datatype ReadyState = Connecting | Open | Closing | Closed

  class Socket {
    var readyState: ReadyState
    /** The noProgramRunning value seen by the effect run whose handlers this socket carries. */
    const capturedNoProgram: bool

    constructor (captured: bool)
      ensures readyState == Connecting && capturedNoProgram == captured
    {
      readyState := Connecting;
      capturedNoProgram := captured;
    }

    /** close(): starts the closing handshake; it does nothing once closing or closed. */
    method Close()
      modifies this
      ensures old(readyState) == Connecting || old(readyState) == Open ==> readyState == Closing
      ensures old(readyState) == Closing || old(readyState) == Closed ==> readyState == old(readyState)
    {
      if readyState == Connecting || readyState == Open {
        readyState := Closing;
      }
    }
  }

  /** A socket that is connecting or open, which connecting again must not replace. */
  predicate Active(s: Socket?)
    reads s
  {
    s != null && (s.readyState == Connecting || s.readyState == Open)
  }

  /** What the component renders. */
  datatype Screen = NoProgramNotice | ChartOf(view: ExecutionChart.View)

  class LiveChart {
    // React state
    var csvData: string
    var isConnected: bool
    var isLoading: bool
    var noProgramRunning: bool
    // refs
    var ws: Socket?
    var lastTimestamp: int
    /** The pending reconnect timer and the clock time it fires at, if any. */
    var reconnectDue: Option<int>
    var isMounted: bool
    var isManualClose: bool

    /** A reconnect is only ever pending while the component is mounted. */
    ghost predicate Valid()
      reads this
    {
      reconnectDue.Some? ==> isMounted
    }

    constructor ()
      ensures Valid()
      ensures csvData == "" && !isConnected && isLoading && !noProgramRunning
      ensures ws == null && lastTimestamp == 0 && reconnectDue == None
      ensures !isMounted && !isManualClose
    {
      csvData := "";
      isConnected := false;
      isLoading := true;
      noProgramRunning := false;
      ws := null;
      lastTimestamp := 0;
      reconnectDue := None;
      isMounted := false;
      isManualClose := false;
    }

    /** The effect body, on mount and after each change of noProgramRunning: mark mounted; the snapshot request is then in flight. */
    method EffectStart()
      requires Valid()
      modifies this
      ensures Valid() && isMounted
      ensures csvData == old(csvData) && isConnected == old(isConnected) && isLoading == old(isLoading)
      ensures noProgramRunning == old(noProgramRunning) && ws == old(ws) && lastTimestamp == old(lastTimestamp)
      ensures reconnectDue == old(reconnectDue) && isManualClose == old(isManualClose)
    {
      isMounted := true;
    }

    /**
     * connectWebSocket: nothing happens when unmounted or when the current socket is
     * connecting or open. Otherwise a stale socket is closed and dropped, a pending
     * reconnect is cancelled and exactly one new socket is created.
     */
    method ConnectWebSocket(captured: bool)
      requires Valid()
      modifies this, ws
      ensures Valid()
      ensures csvData == old(csvData) && isConnected == old(isConnected) && isLoading == old(isLoading)
      ensures noProgramRunning == old(noProgramRunning) && lastTimestamp == old(lastTimestamp)
      ensures isMounted == old(isMounted)
      ensures !old(isMounted) || old(Active(ws)) ==>
        ws == old(ws) && reconnectDue == old(reconnectDue) && isManualClose == old(isManualClose) &&
        (ws != null ==> ws.readyState == old(ws.readyState))
      ensures old(isMounted) && !old(Active(ws)) ==>
        fresh(ws) && ws.readyState == Connecting && ws.capturedNoProgram == captured &&
        reconnectDue == None &&
        isManualClose == (if old(ws) == null then old(isManualClose) else false) &&
        (old(ws) != null ==> old(ws).readyState == old(ws.readyState))
    {
      if !isMounted {
        return;
      }
      if ws != null && (ws.readyState == Connecting || ws.readyState == Open) {
        return;
      }
      if ws != null {
        isManualClose := true;
        ws.Close();
        ws := null;
        isManualClose := false;
      }
      reconnectDue := None;
      var s := new Socket(captured);
      ws := s;
    }

    /**
     * The snapshot reply, then the `.then` step. 204: no program runs and the text is
     * emptied. Any other 2xx: the body replaces the text, lastTimestamp follows
     * SnapshotTimestamp, and the socket is connected. Anything else only ends loading.
     */
    method SnapshotResolved(reply: SnapshotReply, captured: bool)
      requires Valid()
      modifies this, ws
      ensures Valid() && !isLoading
      ensures isConnected == old(isConnected) && isMounted == old(isMounted)
      ensures reply.Reply? && reply.status == 204 ==>
        noProgramRunning && csvData == "" && ws == old(ws) && lastTimestamp == old(lastTimestamp) &&
        reconnectDue == old(reconnectDue) && isManualClose == old(isManualClose)
      ensures reply.Reply? && reply.status != 204 && 200 <= reply.status < 300 ==>
        !noProgramRunning && csvData == reply.body &&
        lastTimestamp == SnapshotTimestamp(reply.body, old(lastTimestamp)) &&
        (ws != old(ws) <==> old(isMounted) && !old(Active(ws))) &&
        (ws != old(ws) ==> fresh(ws) && ws.readyState == Connecting && ws.capturedNoProgram == captured)
      ensures reply.RequestFailed? || reply.status < 200 || reply.status >= 300 ==>
        csvData == old(csvData) && noProgramRunning == old(noProgramRunning) && ws == old(ws) &&
        lastTimestamp == old(lastTimestamp) && reconnectDue == old(reconnectDue) &&
        isManualClose == old(isManualClose)
    {
      if reply.Reply? && reply.status == 204 {
        isLoading := false;
        noProgramRunning := true;
        csvData := "";
      } else if reply.Reply? && 200 <= reply.status < 300 {
        csvData := reply.body;
        noProgramRunning := false;
        lastTimestamp := SnapshotTimestamp(reply.body, lastTimestamp);
        isLoading := false;
        ConnectWebSocket(captured);
      } else {
        isLoading := false;
      }
    }

    /** onopen of any socket this component created. */
    method OnOpen(s: Socket)
      requires Valid() && s.readyState == Connecting
      modifies this, s
      ensures Valid() && s.readyState == Open && isConnected
      ensures csvData == old(csvData) && isLoading == old(isLoading) && noProgramRunning == old(noProgramRunning)
      ensures ws == old(ws) && lastTimestamp == old(lastTimestamp) && reconnectDue == old(reconnectDue)
      ensures isMounted == old(isMounted) && isManualClose == old(isManualClose)
    {
      s.readyState := Open;
      isConnected := true;
    }

    /**
     * onmessage: the text and lastTimestamp follow Reconcile. The sentinel also clears
     * isConnected, sets noProgramRunning and the manual-close marker, and closes the socket.
     */
    method OnMessage(s: Socket, data: string)
      requires Valid() && s.readyState == Open
      modifies this, s
      ensures Valid()
      ensures Feed(csvData, lastTimestamp) == Reconcile(Feed(old(csvData), old(lastTimestamp)), data)
      ensures Classify(data) == Sentinel ==>
        !isConnected && noProgramRunning && isManualClose && s.readyState == Closing
      ensures Classify(data) != Sentinel ==>
        isConnected == old(isConnected) && noProgramRunning == old(noProgramRunning) &&
        isManualClose == old(isManualClose) && s.readyState == Open
      ensures ws == old(ws) && reconnectDue == old(reconnectDue) && isMounted == old(isMounted)
      ensures isLoading == old(isLoading)
    {
      var message := Classify(data);
      if message == Sentinel {
        isConnected := false;
        csvData := "";
        noProgramRunning := true;
        isManualClose := true;
        s.Close();
        return;
      }
      if message == Blank || message == Header {
        return;
      }
      var line := message.line;
      var timestamp := LeadingTimestamp(line);
      if timestamp.Some? && timestamp.value <= lastTimestamp {
        return;
      }
      if timestamp.Some? {
        lastTimestamp := timestamp.value;
      }
      csvData := AppendLine(csvData, line);
    }

    /** onerror. */
    method OnError()
      requires Valid()
      modifies this
      ensures Valid() && !isConnected
      ensures csvData == old(csvData) && isLoading == old(isLoading) && noProgramRunning == old(noProgramRunning)
      ensures ws == old(ws) && lastTimestamp == old(lastTimestamp) && reconnectDue == old(reconnectDue)
      ensures isMounted == old(isMounted) && isManualClose == old(isManualClose)
    {
      isConnected := false;
    }

    /**
     * onclose: a reconnect is scheduled ReconnectDelayMs later exactly when the close was
     * not manual, the component is mounted and the socket's captured noProgramRunning is false.
     */
    method OnClose(s: Socket, now: int)
      requires Valid() && s.readyState != Closed
      modifies this, s
      ensures Valid() && s.readyState == Closed && !isConnected
      ensures !old(isManualClose) && old(isMounted) && !s.capturedNoProgram ==>
        reconnectDue == Some(now + ReconnectDelayMs)
      ensures old(isManualClose) || !old(isMounted) || s.capturedNoProgram ==>
        reconnectDue == old(reconnectDue)
      ensures csvData == old(csvData) && isLoading == old(isLoading) && noProgramRunning == old(noProgramRunning)
      ensures ws == old(ws) && lastTimestamp == old(lastTimestamp)
      ensures isMounted == old(isMounted) && isManualClose == old(isManualClose)
    {
      s.readyState := Closed;
      isConnected := false;
      if !isManualClose && isMounted && !s.capturedNoProgram {
        reconnectDue := Some(now + ReconnectDelayMs);
      }
    }

    /**
     * The reconnect timer fires. Its callback is the connectWebSocket of an effect run
     * whose noProgramRunning was false, since only such a run's close handler schedules it.
     */
    method TimerFire(now: int)
      requires Valid() && reconnectDue.Some? && now >= reconnectDue.value
      modifies this, ws
      ensures Valid() && reconnectDue == None && isMounted
      ensures csvData == old(csvData) && isConnected == old(isConnected) && isLoading == old(isLoading)
      ensures noProgramRunning == old(noProgramRunning) && lastTimestamp == old(lastTimestamp)
      ensures old(Active(ws)) ==> ws == old(ws) && ws.readyState == old(ws.readyState)
      ensures !old(Active(ws)) ==> fresh(ws) && ws.readyState == Connecting && !ws.capturedNoProgram
    {
      reconnectDue := None;
      ConnectWebSocket(false);
    }

    /** The effect cleanup: unmounted, timer cancelled, socket closed and dropped. */
    method Cleanup()
      requires Valid()
      modifies this, ws
      ensures Valid() && !isMounted && reconnectDue == None && ws == null
      ensures old(ws) != null ==> !isManualClose && old(ws).readyState != Connecting && old(ws).readyState != Open
      ensures old(ws) == null ==> isManualClose == old(isManualClose)
      ensures csvData == old(csvData) && isConnected == old(isConnected) && isLoading == old(isLoading)
      ensures noProgramRunning == old(noProgramRunning) && lastTimestamp == old(lastTimestamp)
    {
      isMounted := false;
      reconnectDue := None;
      if ws != null {
        isManualClose := true;
        ws.Close();
        ws := null;
        isManualClose := false;
      }
    }

    /** The render: the notice when no program runs, else the chart, loading while connected without text. */
    function Render(): (r: Screen)
      reads this
      ensures noProgramRunning <==> r == NoProgramNotice
      ensures !noProgramRunning && isLoading ==> r == ChartOf(ExecutionChart.Spinner)
      ensures !noProgramRunning && csvData == "" && isConnected ==> r == ChartOf(ExecutionChart.Spinner)
      ensures !noProgramRunning && !isLoading && csvData != "" ==>
        r.ChartOf? && r.view.Chart? && r.view.points == ExecutionChart.Points(csvData)
    {
      if noProgramRunning then NoProgramNotice
      else ChartOf(ExecutionChart.Render(csvData, isLoading || (csvData == "" && isConnected)))
    }
  }
}
