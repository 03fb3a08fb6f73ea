/**
 * The readiness probe shared by both service classes: try to connect; on a
 * retried failure sleep, read the clock and give up once the elapsed time
 * reaches the timeout. Connect results and clock readings come from the
 * environment and are given as a sequence of attempts.
 */
module Readiness {

  datatype ConnectResult = Accepted | Refused | OtherError

  /** Which connect failures a probe retries: any `OSError`, or only `ConnectionRefusedError`. */
  datatype Variant = AnyOSError | RefusedOnly

  /** One connect attempt and the clock reading taken after the sleep that follows a failure. */
  datatype Attempt = Attempt(result: ConnectResult, clockAfterSleep: int)

  /** How a probe ends, with the number of connect attempts it made. */
  datatype WaitOutcome = PortOpen(attempts: nat) | TimedOut(attempts: nat) | ConnectFailed(attempts: nat)

  predicate Retries(v: Variant, c: ConnectResult) {
    c != Accepted && (v == AnyOSError || c == Refused)
  }

  /** The attempt ends the probe: it connected, failed in a way not retried, or the deadline passed. */
  predicate Settles(a: Attempt, start: int, timeout: int, v: Variant) {
    !Retries(v, a.result) || a.clockAfterSleep - start >= timeout
  }

  /** Some attempt from index `from` on ends the probe (time always runs out eventually). */
  predicate Ends(attempts: seq<Attempt>, start: int, timeout: int, v: Variant, from: nat) {
    exists j :: from <= j < |attempts| && Settles(attempts[j], start, timeout, v)
  }

  /**
   * The outcome of a probe that has already made `i` failed attempts. The
   * probe ends at the first attempt that settles it; every attempt before
   * that failed in a retried way and found the deadline not yet reached.
   */
  function ProbeFrom(attempts: seq<Attempt>, start: int, timeout: int, v: Variant, i: nat): (r: WaitOutcome)
    requires i <= |attempts| && Ends(attempts, start, timeout, v, i)
    ensures i < r.attempts <= |attempts|
    ensures Settles(attempts[r.attempts - 1], start, timeout, v)
    ensures forall j :: i <= j < r.attempts - 1 ==> !Settles(attempts[j], start, timeout, v)
    ensures r.PortOpen? <==> attempts[r.attempts - 1].result == Accepted
    ensures r.ConnectFailed? <==> attempts[r.attempts - 1].result == OtherError && v == RefusedOnly
    ensures r.TimedOut? ==> Retries(v, attempts[r.attempts - 1].result)
    ensures r.TimedOut? ==> attempts[r.attempts - 1].clockAfterSleep - start >= timeout
    decreases |attempts| - i
  {
    var a := attempts[i];
    if a.result == Accepted then PortOpen(i + 1)
    else if !Retries(v, a.result) then ConnectFailed(i + 1)
    else if a.clockAfterSleep - start >= timeout then TimedOut(i + 1)
    else ProbeFrom(attempts, start, timeout, v, i + 1)
  }

  /** The outcome of a whole probe. */
  function Probe(attempts: seq<Attempt>, start: int, timeout: int, v: Variant): (r: WaitOutcome)
    requires Ends(attempts, start, timeout, v, 0)
    ensures 1 <= r.attempts <= |attempts|
  {
    ProbeFrom(attempts, start, timeout, v, 0)
  }

  /** A probe ends at its first settling attempt: the outcome names exactly that attempt. */
  lemma ProbeStopsAtFirstSettling(attempts: seq<Attempt>, start: int, timeout: int, v: Variant, k: nat)
    requires k < |attempts| && Settles(attempts[k], start, timeout, v)
    requires forall j :: 0 <= j < k ==> !Settles(attempts[j], start, timeout, v)
    ensures Ends(attempts, start, timeout, v, 0)
    ensures Probe(attempts, start, timeout, v).attempts == k + 1
  {
  }

  /**
   * When no attempt fails with anything but a refused connection, retrying
   * only refusals and retrying every `OSError` give the same outcome.
   */
  lemma {:induction false} VariantsAgreeOnRefusals(attempts: seq<Attempt>, start: int, timeout: int, i: nat)
    requires i <= |attempts|
    requires forall j :: i <= j < |attempts| ==> attempts[j].result != OtherError
    requires Ends(attempts, start, timeout, AnyOSError, i)
    ensures Ends(attempts, start, timeout, RefusedOnly, i)
    ensures ProbeFrom(attempts, start, timeout, AnyOSError, i) == ProbeFrom(attempts, start, timeout, RefusedOnly, i)
    decreases |attempts| - i
  {
    var j :| i <= j < |attempts| && Settles(attempts[j], start, timeout, AnyOSError);
    assert Settles(attempts[j], start, timeout, RefusedOnly);
    if !Settles(attempts[i], start, timeout, AnyOSError) {
      VariantsAgreeOnRefusals(attempts, start, timeout, i + 1);
    }
  }

  /** A probe that retries every `OSError` never ends with a connect error. */
  lemma AnyOSErrorNeverFailsToConnect(attempts: seq<Attempt>, start: int, timeout: int)
    requires Ends(attempts, start, timeout, AnyOSError, 0)
    ensures !Probe(attempts, start, timeout, AnyOSError).ConnectFailed?
  {
  }
}
