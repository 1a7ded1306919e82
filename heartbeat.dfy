/**
 * The control unit's heartbeat (controlunit/heartbeat/heartbeat.go): every heartbeat posts
 * a message to the sensor unit's display. Without a custom message it is always the unit's
 * IP address; with one, heartbeats alternate between the IP address and the message.
 */
module Heartbeat {
  import opened Wrappers

  const StatusOK := 200
  const ErrHeartbeatNotRunning := "heartbeat not running"

  /** The message a heartbeat shows: the IP without a custom message, else the one `alternate` selects. */
  function Pick(ip: string, custom: string, alternate: bool): string {
    if custom == "" then ip else if alternate then custom else ip
  }

  /** `alternate` after a heartbeat: it toggles only when there is a custom message. */
  function NextAlternate(custom: string, alternate: bool): bool {
    if custom == "" then alternate else !alternate
  }

  /** The messages of `n` heartbeats in a row with the same custom message. */
  function Messages(ip: string, custom: string, alternate: bool, n: nat): (r: seq<string>)
    ensures |r| == n
    decreases n
  {
    if n == 0 then [] else [Pick(ip, custom, alternate)] + Messages(ip, custom, NextAlternate(custom, alternate), n - 1)
  }

  /**
   * Without a custom message every heartbeat shows the IP; with one they alternate, the k-th
   * showing the message exactly when k is even and `alternate` was set, or k is odd and it
   * was not.
   */
  lemma {:induction false} MessagesAlternate(ip: string, custom: string, alternate: bool, n: nat)
    ensures forall k :: 0 <= k < n ==>
      Messages(ip, custom, alternate, n)[k] == if custom == "" then ip else if alternate == (k % 2 == 0) then custom else ip
    decreases n
  {
    if n > 0 {
      var r := Messages(ip, custom, alternate, n);
      var rest := Messages(ip, custom, NextAlternate(custom, alternate), n - 1);
      MessagesAlternate(ip, custom, NextAlternate(custom, alternate), n - 1);
      assert r == [Pick(ip, custom, alternate)] + rest;
      forall k | 1 <= k < n
        ensures r[k] == if custom == "" then ip else if alternate == (k % 2 == 0) then custom else ip
      {
        assert r[k] == rest[k - 1];
      }
    }
  }

  /** Two heartbeats with a custom message show both the IP and the message, and leave `alternate` as it was. */
  lemma TwoBeatsShowBoth(ip: string, custom: string, alternate: bool)
    requires custom != ""
    ensures var m := Messages(ip, custom, alternate, 2); {m[0], m[1]} == {ip, custom}
    ensures NextAlternate(custom, NextAlternate(custom, alternate)) == alternate
  {
    MessagesAlternate(ip, custom, alternate, 2);
  }

  class Manager {
    const executorIP: string
    const sensorUnitURL: string
    const displayPath: string
    var displayMessage: string
    var alternate: bool
    var cancelled: bool

    /** `NewManager`, once the interface's IP address is known: no message, not cancelled. */
    constructor (executorIP: string, sensorUnitURL: string, displayPath: string)
      ensures this.executorIP == executorIP && this.sensorUnitURL == sensorUnitURL && this.displayPath == displayPath
      ensures displayMessage == "" && !alternate && !cancelled
    {
      this.executorIP := executorIP;
      this.sensorUnitURL := sensorUnitURL;
      this.displayPath := displayPath;
      displayMessage := "";
      alternate := false;
      cancelled := false;
    }

    method SetDisplayMessage(message: string)
      modifies this
      ensures displayMessage == message && alternate == old(alternate) && cancelled == old(cancelled)
    {
      displayMessage := message;
    }

    /**
     * `sendHeartbeat`: posts the chosen message to the sensor unit's URL followed by its
     * display path. `reply` is the HTTP status the post got, or None when it failed; only a
     * 200 reply is a success.
     */
    method SendHeartbeat(reply: Option<int>) returns (message: string, url: string, err: Option<string>)
      modifies this
      ensures message == Pick(executorIP, displayMessage, old(alternate))
      ensures alternate == NextAlternate(displayMessage, old(alternate))
      ensures displayMessage == old(displayMessage) && cancelled == old(cancelled)
      ensures url == sensorUnitURL + displayPath
      ensures err.None? <==> reply == Some(StatusOK)
    {
      var customMessage := displayMessage;
      if customMessage == "" {
        message := executorIP;
      } else {
        if alternate {
          message := customMessage;
        } else {
          message := executorIP;
        }
        alternate := !alternate;
      }
      url := sensorUnitURL + displayPath;
      match reply {
        case None =>
          err := Some("post failed");
        case Some(status) =>
          if status != StatusOK {
            err := Some("failed to send heartbeat");
          } else {
            err := None;
          }
      }
    }

    /** The first `Stop` cancels the heartbeat; any later one reports that it is not running. */
    method Stop() returns (err: Option<string>)
      modifies this
      ensures cancelled
      ensures err == if old(cancelled) then Some(ErrHeartbeatNotRunning) else None
      ensures displayMessage == old(displayMessage) && alternate == old(alternate)
    {
      if cancelled {
        return Some(ErrHeartbeatNotRunning);
      }
      cancelled := true;
      err := None;
    }
  }

  /** A second `Stop` reports the heartbeat as not running. */
  method StopTwice(m: Manager) returns (first: Option<string>, second: Option<string>)
    modifies m
    ensures !old(m.cancelled) ==> first == None
    ensures second == Some(ErrHeartbeatNotRunning)
  {
    first := m.Stop();
    second := m.Stop();
  }
}
