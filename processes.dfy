/**
 * What a service launches and the handle it keeps on the child process.
 * Spawning, signal delivery and reaping are abstract steps on the handle.
 */
module Processes {
  import opened Wrappers

  /** A command is either one opaque string or a sequence of argument tokens. */
  datatype Command = Literal(line: string) | Tokens(parts: seq<string>)

  datatype Signal = SigInt | SigKill

  /**
   * A child process: its pid, what it was started with (`env` None means the
   * child inherits the parent's environment), the signals sent to it and
   * whether it has been waited for.
   */
  datatype Process = Process(
    pid: nat,
    command: Command,
    env: Option<map<string, string>>,
    signals: seq<Signal>,
    reaped: bool)

  /** A freshly spawned child. */
  function Spawn(pid: nat, command: Command, env: Option<map<string, string>>): (p: Process)
    ensures p.pid == pid && p.command == command && p.env == env
    ensures p.signals == [] && !p.reaped
  {
    Process(pid, command, env, [], false)
  }

  /**
   * `send_signal(sig)` followed by `wait()`. Popen skips signalling a child it
   * already knows has exited, and waiting on it again returns at once.
   */
  function SignalAndWait(p: Process, sig: Signal): (r: Process)
    ensures r.reaped
    ensures r.pid == p.pid && r.command == p.command && r.env == p.env
    ensures p.reaped ==> r == p
    ensures !p.reaped ==> r.signals == p.signals + [sig]
  {
    if p.reaped then p else p.(signals := p.signals + [sig], reaped := true)
  }

  /** Stopping twice signals the child once. */
  lemma SignalAndWaitIdempotent(p: Process, sig: Signal)
    ensures SignalAndWait(SignalAndWait(p, sig), sig) == SignalAndWait(p, sig)
    ensures |SignalAndWait(SignalAndWait(p, sig), sig).signals| <= |p.signals| + 1
  {
  }
}
