/**
 * The interpreter-exit hook registry (`atexit`), made an explicit object that
 * services are given. A hook is identified by the service whose bound `stop`
 * it is: two bound `stop` methods compare equal exactly when their instances
 * are the same object.
 */
module ExitHooks {

  /** s with every occurrence of x removed; every other element keeps its count. */
  function Without<T(==)>(s: seq<T>, x: T): (r: seq<T>)
    ensures x !in r
    ensures multiset(r) == multiset(s)[x := 0]
    decreases |s|
  {
    if s == [] then []
    else
      assert s == [s[0]] + s[1..];
      if s[0] == x then Without(s[1..], x) else [s[0]] + Without(s[1..], x)
  }

  /** Removing a hook that is not registered changes nothing. */
  lemma {:induction false} WithoutAbsent<T>(s: seq<T>, x: T)
    requires x !in s
    ensures Without(s, x) == s
    decreases |s|
  {
    if s != [] {
      WithoutAbsent(s[1..], x);
      assert s == [s[0]] + s[1..];
    }
  }

  /** Registering a hook and then unregistering it is the same as only unregistering it. */
  lemma {:induction false} WithoutAppended<T>(s: seq<T>, x: T)
    ensures Without(s + [x], x) == Without(s, x)
    decreases |s|
  {
    if s == [] {
      assert s + [x] == [x];
      assert [x][1..] == [];
    } else {
      assert (s + [x])[1..] == s[1..] + [x];
      WithoutAppended(s[1..], x);
    }
  }

  /**
   * A service that was not registered and is registered and then
   * unregistered leaves the registry as it found it.
   */
  lemma RegisterThenUnregister<T>(s: seq<T>, x: T)
    requires x !in s
    ensures Without(s + [x], x) == s
  {
    WithoutAppended(s, x);
    WithoutAbsent(s, x);
  }

  /** The registry of callbacks run at interpreter exit. */
  class ExitRegistry {
    var hooks: seq<object>

    constructor ()
      ensures hooks == []
    {
      hooks := [];
    }

    /** `atexit.register(h)`: appends, even when h is already registered. */
    method Register(h: object)
      modifies this
      ensures hooks == old(hooks) + [h]
    {
      hooks := hooks + [h];
    }

    /** `atexit.unregister(h)`: removes every occurrence; absent is a no-op. */
    method Unregister(h: object)
      modifies this
      ensures hooks == Without(old(hooks), h)
    {
      hooks := Without(hooks, h);
    }
  }
}
