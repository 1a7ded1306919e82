/**
 * The shared logger (types/log/log.go): five loggers, one per severity, each either
 * discarding its messages or writing them to the current output with its prefix. Setting
 * the level enables the loggers up to it; the error logger is always enabled.
 */
module Logging {
  import opened Wrappers

  type LogLevel = int

  const Error: LogLevel := 0
  const Warn: LogLevel := 1
  const Info: LogLevel := 2
  const Debug: LogLevel := 3
  const Trace: LogLevel := 4
  const DefaultLevel: LogLevel := Info

  /** Where log lines go: standard output or some other writer, told apart by an identifier. */
  datatype Output = Stdout | Writer(id: nat)

  /** A logger: the discarding one, or one writing to an output with a prefix. */
  datatype Sink = Discard | Write(output: Output, prefix: string)

  function Prefix(severity: LogLevel): string {
    if severity == Error then "[ERROR] "
    else if severity == Warn then "[WARN]  "
    else if severity == Info then "[INFO]  "
    else if severity == Debug then "[DEBUG] "
    else "[TRACE] "
  }

  /** Whether a message of `severity` is written at level `l`. */
  predicate EnabledAt(l: LogLevel, severity: LogLevel) {
    severity == Error || severity <= l
  }

  /** Raising the level never disables a logger that was enabled. */
  lemma RaisingKeepsEnabled(l1: LogLevel, l2: LogLevel, severity: LogLevel)
    requires l1 <= l2 && EnabledAt(l1, severity)
    ensures EnabledAt(l2, severity)
  {
  }

  class Logger {
    var level: LogLevel
    var output: Output
    var trace: Sink
    var debug: Sink
    var info: Sink
    var warn: Sink
    var error: Sink

    function SinkFor(severity: LogLevel): Sink
      reads this
    {
      if severity == Error then error
      else if severity == Warn then warn
      else if severity == Info then info
      else if severity == Debug then debug
      else trace
    }

    /** Every logger writes to the current output with its prefix when the level enables it, and discards otherwise. */
    ghost predicate Valid()
      reads this
    {
      forall s :: Error <= s <= Trace ==>
        SinkFor(s) == if EnabledAt(level, s) then Write(output, Prefix(s)) else Discard
    }

    /** The package's initial state: level INFO, standard output. */
    constructor ()
      ensures Valid() && level == DefaultLevel && output == Stdout
    {
      level := DefaultLevel;
      output := Stdout;
      new;
      SetLevel(DefaultLevel);
    }

    /** `SetLevel`: the error logger and those up to `l` write to the output; the rest discard. */
    method SetLevel(l: LogLevel)
      modifies this
      ensures Valid() && level == l && output == old(output)
      ensures forall s :: Error <= s <= Trace ==> (SinkFor(s).Write? <==> s == Error || s <= l)
    {
      level := l;
      trace := Discard;
      debug := Discard;
      info := Discard;
      warn := Discard;
      error := Write(output, Prefix(Error));
      if l >= Warn {
        warn := Write(output, Prefix(Warn));
      }
      if l >= Info {
        info := Write(output, Prefix(Info));
      }
      if l >= Debug {
        debug := Write(output, Prefix(Debug));
      }
      if l >= Trace {
        trace := Write(output, Prefix(Trace));
      }
    }

    /** `SetOutput`: the loggers move to the new output and the level stays. */
    method SetOutput(w: Output)
      modifies this
      ensures Valid() && output == w && level == old(level)
    {
      output := w;
      var currentLevel := level;
      SetLevel(currentLevel);
    }

    /**
     * `Error`, `Warning`, `Info`, `Debug`, `Trace`: the line a message produces and where it
     * goes, or None when its logger discards. A message is written exactly when its severity
     * is the error one or at most the level.
     */
    method Log(severity: LogLevel, message: string) returns (line: Option<(Output, string)>)
      requires Valid() && Error <= severity <= Trace
      ensures line.Some? <==> EnabledAt(level, severity)
      ensures line.Some? ==> line.value == (output, Prefix(severity) + message)
    {
      var sink := SinkFor(severity);
      match sink {
        case Discard =>
          line := None;
        case Write(out, prefix) =>
          line := Some((out, prefix + message));
      }
    }
  }
}
