/**
 * The disposal pattern shared by TlsConfig, NngListener and NngDialer:
 * Dispose(bool) does nothing once the disposed flag is set, and otherwise
 * releases the native handle and sets the flag. Stated once here on the
 * flag and a count of native releases; each class's DisposeCore is proved
 * to take exactly this step.
 */
module Disposal {

  /** What Dispose(bool) reads and writes: the disposed flag and how many times the native release ran. */
  datatype DisposeState = DisposeState(disposed: bool, releases: nat)

  /** A newly created object: not disposed, never released. */
  const Created: DisposeState := DisposeState(false, 0)

  /** One Dispose(bool) call: a second call leaves everything as it was; a first call releases once. */
  function DisposeStep(s: DisposeState): (t: DisposeState)
    ensures t.disposed
    ensures s.disposed ==> t == s
    ensures !s.disposed ==> t.releases == s.releases + 1
  {
    if s.disposed then s else DisposeState(true, s.releases + 1)
  }

  /** n Dispose(bool) calls in a row. */
  function DisposeTimes(s: DisposeState, n: nat): DisposeState
    decreases n
  {
    if n == 0 then s else DisposeTimes(DisposeStep(s), n - 1)
  }

  /** Once disposed, any number of further calls changes nothing. */
  lemma {:induction false} DisposedIsFixed(s: DisposeState, n: nat)
    requires s.disposed
    ensures DisposeTimes(s, n) == s
    decreases n
  {
    if n > 0 {
      DisposedIsFixed(DisposeStep(s), n - 1);
    }
  }

  /** However many times a new object is disposed, the native release runs once, or never if it never is. */
  lemma {:induction false} ReleasedAtMostOnce(n: nat)
    ensures DisposeTimes(Created, n).releases == (if n == 0 then 0 else 1)
    ensures DisposeTimes(Created, n).disposed <==> n > 0
  {
    if n > 0 {
      DisposedIsFixed(DisposeStep(Created), n - 1);
    }
  }

  /** The invariant each disposable object keeps: released once if disposed, never otherwise. */
  predicate ReleasedOnlyOnDispose(s: DisposeState) {
    s.releases == (if s.disposed then 1 else 0)
  }
}
