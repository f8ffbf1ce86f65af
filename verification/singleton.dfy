/** Singleton: `DatabaseConnection.getInstance` lazily creates one connection
    and hands the same reference to every caller.

    Object identity is explicit: the k-th `DatabaseConnection` ever constructed
    has reference k, and the constructor's side effect (its log line) is
    counted by `constructed`. */
module Singleton {
  import opened Wrappers

  /** A reference to a `DatabaseConnection` object. */
  type Ref = nat

  /** The static field `instance` and the number of constructor runs so far. */
  datatype Runtime = Runtime(instance: Option<Ref>, constructed: nat)

  /** The class state before the first call: `instance == null`, nothing built. */
  const Initial := Runtime(None, 0)

  /** What the lazy initialisation keeps true: at most one connection is ever
      constructed, and it is the one stored in `instance`. */
  ghost predicate Valid(w: Runtime)
  {
    && w.constructed <= 1
    && (w.instance.None? <==> w.constructed == 0)
    && (w.instance.Some? ==> w.instance.value < w.constructed)
  }

  lemma InitialValid()
    ensures Valid(Initial)
  {
  }

  /** `getInstance()`: the returned reference is the stored instance, exactly
      one connection exists afterwards, and a call on an initialised class
      changes nothing and returns the reference it already held. */
  function GetInstance(w: Runtime): (res: (Runtime, Ref))
    requires Valid(w)
    ensures Valid(res.0)
    ensures res.0.instance == Some(res.1)
    ensures res.0.constructed == 1
    ensures w.instance.Some? ==> res == (w, w.instance.value)
    ensures w.instance.None? ==> res.0.constructed == w.constructed + 1
    ensures w.instance.None? ==> res.1 >= w.constructed
  {
    if w.instance.None? then
      var created := w.constructed;
      (Runtime(Some(created), w.constructed + 1), created)
    else
      (w, w.instance.value)
  }

  /** `n` consecutive calls of `getInstance()`: the final state and the
      references returned, in call order. */
  function Calls(w: Runtime, n: nat): (res: (Runtime, seq<Ref>))
    requires Valid(w)
    ensures |res.1| == n
    decreases n
  {
    if n == 0 then (w, [])
    else
      var (w1, r) := GetInstance(w);
      var (w2, rs) := Calls(w1, n - 1);
      (w2, [r] + rs)
  }

  /** Idempotence over any number of calls: every call returns the identical
      reference, and the constructor has run once in total. */
  lemma {:induction false} CallsReturnOneInstance(w: Runtime, n: nat)
    requires Valid(w)
    requires n >= 1
    ensures Valid(Calls(w, n).0)
    ensures Calls(w, n).0.constructed == 1
    ensures Calls(w, n).0.instance == Some(Calls(w, n).1[0])
    ensures forall i :: 0 <= i < n ==> Calls(w, n).1[i] == Calls(w, n).1[0]
    ensures w.instance.Some? ==> Calls(w, n).1[0] == w.instance.value
    decreases n
  {
    var (w1, r) := GetInstance(w);
    if n > 1 {
      CallsReturnOneInstance(w1, n - 1);
      assert Calls(w1, n - 1).1[0] == r;
    }
  }

  /** From the class's initial state, the constructor's side effect happens
      exactly once however many times `getInstance()` is called. */
  lemma ConstructedOnceFromInitial(n: nat)
    requires n >= 1
    ensures Calls(Initial, n).0.constructed == 1
    ensures forall i :: 0 <= i < n ==> Calls(Initial, n).1[i] == Calls(Initial, n).1[0]
  {
    CallsReturnOneInstance(Initial, n);
  }
}
