/** The form handlers validate their input as a chain of `if (...) { toast;
    return; }` guards: the first guard that fails decides the message and
    nothing after it runs. A chain is a list of checks; its verdict is the
    error of the first failing one. */
module Checks {
  import opened Util

  datatype Check<E> = Check(ok: bool, error: E)

  /** Every check before position `k` passes and the one at `k` fails. */
  predicate FailsFirstAt<E>(checks: seq<Check<E>>, k: nat) {
    k < |checks| && !checks[k].ok && forall j :: 0 <= j < k ==> checks[j].ok
  }

  function FirstFailure<E(==)>(checks: seq<Check<E>>): (r: Option<E>)
    ensures r.None? <==> forall k :: 0 <= k < |checks| ==> checks[k].ok
    ensures r.Some? ==> exists k: nat :: FailsFirstAt(checks, k) && checks[k].error == r.value
  {
    match FindIndex(checks, (c: Check<E>) => !c.ok)
    case None => None
    case Some(k) =>
      assert FailsFirstAt(checks, k);
      Some(checks[k].error)
  }

  /** At most one position fails first. */
  lemma FailsFirstAtUnique<E>(checks: seq<Check<E>>, k: nat, k': nat)
    requires FailsFirstAt(checks, k) && FailsFirstAt(checks, k')
    ensures k == k'
  {
  }

  /** When the check at `k` is the first to fail, its error is the verdict,
      whether or not other checks share that error. */
  lemma FirstFailureIs<E>(checks: seq<Check<E>>, k: nat)
    requires FailsFirstAt(checks, k)
    ensures FirstFailure(checks) == Some(checks[k].error)
  {
    var r := FindIndex(checks, (c: Check<E>) => !c.ok);
    assert r.Some?;
    assert r.value == k by {
      assert !(r.value < k);
      assert !(k < r.value);
    }
  }

  /** The handler as written: test the first guard, return its error if it
      fails, otherwise go on with the rest. */
  function EarlyReturn<E>(checks: seq<Check<E>>): Option<E> {
    if checks == [] then None
    else if !checks[0].ok then Some(checks[0].error)
    else EarlyReturn(checks[1..])
  }

  /** The verdict of the chain is what the guards, run one after the other,
      return. */
  lemma {:induction false} FirstFailureIsEarlyReturn<E>(checks: seq<Check<E>>)
    ensures FirstFailure(checks) == EarlyReturn(checks)
  {
    if checks != [] && checks[0].ok {
      FirstFailureIsEarlyReturn(checks[1..]);
      if FirstFailure(checks[1..]).Some? {
        var k: nat :| FailsFirstAt(checks[1..], k) && checks[1..][k].error == FirstFailure(checks[1..]).value;
        assert FailsFirstAt(checks, k + 1);
        FirstFailureIs(checks, k + 1);
      }
    } else if checks != [] {
      FirstFailureIs(checks, 0);
    }
  }

  /** The verdict is the error of the check at `k` exactly when `k` is the first
      failing check, provided no two checks share an error. */
  lemma {:induction false} FirstFailureAt<E>(checks: seq<Check<E>>, k: nat)
    requires k < |checks|
    requires forall i, j :: 0 <= i < j < |checks| ==> checks[i].error != checks[j].error
    ensures FirstFailure(checks) == Some(checks[k].error) <==> FailsFirstAt(checks, k)
  {
    var r := FirstFailure(checks);
    if r == Some(checks[k].error) {
      var k': nat :| FailsFirstAt(checks, k') && checks[k'].error == r.value;
      assert checks[k'].error == checks[k].error;
    }
    if FailsFirstAt(checks, k) {
      assert r.Some?;
      var k': nat :| FailsFirstAt(checks, k') && checks[k'].error == r.value;
      FailsFirstAtUnique(checks, k, k');
    }
  }
}
