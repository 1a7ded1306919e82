/**
 * The power unit's client for the Shelly relay (powerunit/shelly/shelly.go): the output
 * identifiers and their names, the RPC URIs, the reading of a reply into a power state and an
 * error, and how setting a state combines the errors of its two calls. HTTP and JSON
 * decoding are inputs: a call's outcome is given as a `CallOutcome`.
 */
module Shelly {
  import opened Wrappers
  import opened Text
  import opened Locking

  datatype PowerState = Off | On | Unknown

  function PowerStateText(p: PowerState): string {
    match p
    case Off => "off"
    case On => "on"
    case Unknown => "unknown"
  }

  /** `powerBool.PowerState`: true is on, false is off. */
  function PowerBoolState(b: bool): (r: PowerState)
    ensures r == On <==> b
    ensures r != Unknown
  {
    if b then On else Off
  }

  type ID = int

  const UnknownID: ID := -1
  const Fan: ID := 0
  const Heater: ID := 1
  const Humidifier: ID := 2

  /** `ID.String`. */
  function IDText(id: ID): string {
    if id == Fan then "fan"
    else if id == Heater then "heater"
    else if id == Humidifier then "humidifier"
    else "unknown"
  }

  /** `IDString.ID`: the output a name denotes, and whether the name is known. */
  function ParseID(s: string): (r: (ID, bool))
    ensures r.1 <==> s in {"fan", "heater", "humidifier"}
    ensures !r.1 ==> r.0 == UnknownID
  {
    if s == "fan" then (Fan, true)
    else if s == "heater" then (Heater, true)
    else if s == "humidifier" then (Humidifier, true)
    else (UnknownID, false)
  }

  /** Every output's name reads back as that output, and every known name prints back as itself. */
  lemma IDRoundTrip(id: ID, s: string)
    ensures id in {Fan, Heater, Humidifier} ==> ParseID(IDText(id)) == (id, true)
    ensures s in {"fan", "heater", "humidifier"} ==> IDText(ParseID(s).0) == s
    ensures id !in {Fan, Heater, Humidifier} ==> IDText(id) == "unknown"
    ensures ParseID("unknown") == (UnknownID, false)
  {
  }

  /** The error fields of a reply. */
  datatype ApiError = ApiError(code: int, message: string)

  /** `apiError.Error`: no error exactly when the code is 0 and the message empty. */
  function ApiErrorError(e: ApiError): (r: Option<string>)
    ensures r.None? <==> e.code == 0 && e.message == ""
  {
    if e.code != 0 || |e.message| != 0 then
      Some("error code '" + IntToString(e.code) + "', message '" + e.message + "'")
    else None
  }

  /** `switchSetURI`: the address, the call, the output's number and whether it is switched on. */
  function SwitchSetURI(addr: string, state: PowerState, id: ID): (r: string)
    ensures StartsWith(r, addr + "/rpc/Switch.Set?id=" + IntToString(id) + "&on=")
  {
    var on := if state == On then "true" else "false";
    var r := addr + "/rpc/Switch.Set?id=" + IntToString(id) + "&on=" + on;
    assert r[..|addr + "/rpc/Switch.Set?id=" + IntToString(id) + "&on="|] == addr + "/rpc/Switch.Set?id=" + IntToString(id) + "&on=";
    r
  }

  /** The URI switches the output on exactly for the On state; Off and Unknown both send `on=false`. */
  lemma SwitchSetOnFlag(addr: string, state: PowerState, id: ID)
    ensures EndsWith(SwitchSetURI(addr, state, id), "on=true") <==> state == On
    ensures state != On ==> EndsWith(SwitchSetURI(addr, state, id), "on=false")
  {
    var prefix := addr + "/rpc/Switch.Set?id=" + IntToString(id) + "&";
    var r := SwitchSetURI(addr, state, id);
    var flag := if state == On then "on=true" else "on=false";
    assert r == prefix + flag;
    EndsWithOwnSuffix(prefix, flag);
    if state != On {
      assert r[|r| - 7] == flag[1] != 'o';
    }
  }

  /** A text ends with whatever is appended to it last. */
  lemma EndsWithOwnSuffix(prefix: string, suffix: string)
    ensures EndsWith(prefix + suffix, suffix)
  {
    assert (prefix + suffix)[|prefix|..] == suffix;
  }

  function GetStatusURI(addr: string, id: ID): string {
    addr + "/rpc/Switch.GetStatus?id=" + IntToString(id)
  }

  /** How one RPC call went: the request failed, the reply did not decode, or the decoded output flag and error fields. */
  datatype CallOutcome = RequestFailed(reason: string) | DecodeFailed(reason: string) | Decoded(output: bool, apiError: ApiError)

  /** `getPowerState`: a failed call is Unknown with its error; a decoded reply gives its state and its error fields' error. */
  function GetPowerState(call: CallOutcome): (r: (PowerState, Option<string>))
    ensures r.0 == Unknown <==> !call.Decoded?
    ensures !call.Decoded? ==> r.1.Some?
    ensures call.Decoded? ==> r.0 == PowerBoolState(call.output) && r.1 == ApiErrorError(call.apiError)
  {
    match call
    case RequestFailed(reason) => (Unknown, Some(reason))
    case DecodeFailed(reason) => (Unknown, Some(reason))
    case Decoded(output, apiError) => (PowerBoolState(output), ApiErrorError(apiError))
  }

  /**
   * `SetState`: the set call, then a status read. The state returned is the status read's;
   * the error is the status read's when it has one, else the set call's.
   */
  function SetState(setCall: CallOutcome, statusCall: CallOutcome): (r: (PowerState, Option<string>))
    ensures r.0 == GetPowerState(statusCall).0
    ensures GetPowerState(statusCall).1.Some? ==> r.1 == GetPowerState(statusCall).1
    ensures GetPowerState(statusCall).1.None? ==> r.1 == GetPowerState(setCall).1
    ensures r.1.None? <==> GetPowerState(setCall).1.None? && GetPowerState(statusCall).1.None?
  {
    var (_, err) := GetPowerState(setCall);
    var (pState, getStatusErr) := GetPowerState(statusCall);
    if getStatusErr.Some? then (pState, getStatusErr) else (pState, err)
  }

  /** The names of the outputs whose shutdown failed, in the order fan, heater, humidifier. */
  function FailedNames(fanFailed: bool, heaterFailed: bool, humidifierFailed: bool): (r: seq<string>)
    ensures |r| <= 3
    ensures ("fan" in r <==> fanFailed) && ("heater" in r <==> heaterFailed) && ("humidifier" in r <==> humidifierFailed)
  {
    (if fanFailed then ["fan"] else []) + (if heaterFailed then ["heater"] else []) + (if humidifierFailed then ["humidifier"] else [])
  }

  /** `strings.Join(names, ", ")`. */
  function JoinNames(names: seq<string>): string {
    if |names| == 0 then ""
    else if |names| == 1 then names[0]
    else names[0] + ", " + JoinNames(names[1..])
  }

  /** The result of a shutdown from whether switching each output off failed: nil, or the list of failed outputs. */
  function ShutdownError(fanFailed: bool, heaterFailed: bool, humidifierFailed: bool): (r: Option<string>)
    ensures r.None? <==> !fanFailed && !heaterFailed && !humidifierFailed
  {
    var failed := FailedNames(fanFailed, heaterFailed, humidifierFailed);
    if |failed| == 0 then None
    else Some("failed to shut down Shelly power for " + JoinNames(failed))
  }

  /** `SetState`'s locking: `i.m.Lock()` and the deferred `Unlock` (powerunit/shelly/shelly.go:138-139) around its two calls. */
  function SetStateLocks(): seq<LockOp> {
    [Acquire, Release]
  }

  /** `Shutdown` as written: `i.m.Lock()` and the deferred `Unlock` (powerunit/shelly/shelly.go:163-164), and in between a `SetState` call for each of the three outputs. */
  function ShutdownLocksAsWritten(): seq<LockOp> {
    [Acquire] + SetStateLocks() + SetStateLocks() + SetStateLocks() + [Release]
  }

  /** With the three switch-offs made through the unlocked calls, under the one lock `Shutdown` takes. */
  function ShutdownLocks(): seq<LockOp> {
    [Acquire, Release]
  }

  /** `Shutdown` as written waits on the mutex it already holds, so it never returns. */
  lemma ShutdownDeadlocks()
    ensures RunLock(ShutdownLocksAsWritten(), false) == None
  {
    var rest := [Release] + SetStateLocks() + SetStateLocks() + [Release];
    assert ShutdownLocksAsWritten() == [Acquire, Acquire] + rest;
    NestedAcquireWaits(rest);
  }

  /** Switching the outputs off under the one lock leaves the mutex free, and three `SetState` calls in a row do too. */
  lemma ShutdownReleases()
    ensures RunLock(ShutdownLocks(), false) == Some(false)
    ensures RunLock(SetStateLocks() + SetStateLocks() + SetStateLocks(), false) == Some(false)
  {
    PairedLocksRelease(1);
    assert Pairs(1) == ShutdownLocks();
    PairedLocksRelease(3);
    assert Pairs(3) == SetStateLocks() + SetStateLocks() + SetStateLocks() by {
      assert Pairs(2) == [Acquire, Release] + Pairs(1);
    }
  }
}
