/** The generic debounced value: `value` follows every write at once, `debouncedValue` follows
    it when the one pending timer fires. The timer is the explicit event `Fire`; `pending` is
    the value it will publish, `None` when no timer is scheduled. */
module DebouncedRef {
  import opened Wrappers

  datatype Debounce<T> = Debounce(value: T, debouncedValue: T, pending: Option<T>)

  /** `useDebouncedRef(initialValue)`: both values start equal and, the watcher not being
      immediate, no timer is scheduled. */
  function Init<T>(initialValue: T): (d: Debounce<T>)
    ensures d.value == initialValue && d.debouncedValue == initialValue && d.pending == None
  {
    Debounce(initialValue, initialValue, None)
  }

  /** Writing `value`. The watcher runs only when the value changed; it clears the pending
      timer and schedules a new one for the new value. The debounced value is not touched. */
  function Write<T(==)>(d: Debounce<T>, v: T): (e: Debounce<T>)
    ensures e.value == v && e.debouncedValue == d.debouncedValue
    ensures v != d.value ==> e.pending == Some(v)
    ensures v == d.value ==> e == d
  {
    if v == d.value then d else d.(value := v, pending := Some(v))
  }

  /** The timer fires: the debounced value becomes the value it was scheduled with. The
      value itself is never written here. */
  function Fire<T>(d: Debounce<T>): (e: Debounce<T>)
    ensures e.value == d.value && e.pending == None
    ensures d.pending.Some? ==> e.debouncedValue == d.pending.value
    ensures d.pending.None? ==> e == d
  {
    match d.pending
    case None => d
    case Some(v) => d.(debouncedValue := v, pending := None)
  }

  /** A scheduled timer always carries the current value. */
  ghost predicate TimerCarriesValue<T>(d: Debounce<T>) {
    d.pending.Some? ==> d.pending.value == d.value
  }

  /** With no timer scheduled, the debounced value has caught up with the value. */
  ghost predicate SettledWhenIdle<T>(d: Debounce<T>) {
    d.pending.None? ==> d.debouncedValue == d.value
  }

  /** Writing `vs` one after the other. */
  function Writes<T(==)>(d: Debounce<T>, vs: seq<T>): Debounce<T>
    decreases |vs|
  {
    if vs == [] then d else Write(Writes(d, vs[..|vs| - 1]), vs[|vs| - 1])
  }

  /** A burst of writes never touches the debounced value, keeps the timer on the current
      value, and leaves the last value written in `value`. Once any write of the burst has
      changed the value, a timer is pending for the last one; when none did, nothing changed. */
  lemma {:induction false} BurstKeepsDebounced<T>(d: Debounce<T>, vs: seq<T>)
    requires TimerCarriesValue(d)
    ensures Writes(d, vs).debouncedValue == d.debouncedValue
    ensures TimerCarriesValue(Writes(d, vs))
    ensures vs != [] ==> Writes(d, vs).value == vs[|vs| - 1]
    ensures Writes(d, vs).value != d.value ==> Writes(d, vs).pending.Some?
    ensures (exists i :: 0 <= i < |vs| && vs[i] != d.value) ==> Writes(d, vs).pending == Some(vs[|vs| - 1])
    ensures (forall i :: 0 <= i < |vs| ==> vs[i] == d.value) ==> Writes(d, vs) == d
    ensures SettledWhenIdle(d) ==> SettledWhenIdle(Writes(d, vs))
    decreases |vs|
  {
    if vs != [] {
      var init := vs[..|vs| - 1];
      BurstKeepsDebounced(d, init);
      if exists i :: 0 <= i < |vs| && vs[i] != d.value {
        if exists i :: 0 <= i < |init| && init[i] != d.value {
          assert Writes(d, init).pending == Some(Writes(d, init).value);
        } else {
          assert Writes(d, init) == d;
        }
      }
      if forall i :: 0 <= i < |vs| ==> vs[i] == d.value {
        assert forall i :: 0 <= i < |init| ==> init[i] == d.value by {
          forall i | 0 <= i < |init| ensures init[i] == d.value {
            assert init[i] == vs[i];
          }
        }
      }
    }
  }

  /** The timer's firing after a burst of writes publishes the last value written, and both
      values then agree: whenever the burst changed the value, and whenever the ref was
      settled before it (which every reachable state with no timer pending is). */
  lemma BurstThenFire<T>(d: Debounce<T>, vs: seq<T>)
    requires TimerCarriesValue(d)
    requires vs != []
    requires SettledWhenIdle(d) || vs[|vs| - 1] != d.value
    ensures Fire(Writes(d, vs)).debouncedValue == vs[|vs| - 1]
    ensures Fire(Writes(d, vs)).value == vs[|vs| - 1]
    ensures Fire(Writes(d, vs)).pending == None
  {
    BurstKeepsDebounced(d, vs);
    if vs[|vs| - 1] != d.value {
      assert Writes(d, vs).pending == Some(vs[|vs| - 1]);
    }
  }

  /** The ref starts settled, and every event keeps the timer on the current value and the
      ref settled whenever no timer is pending. */
  lemma EventsKeepTimer<T>(d: Debounce<T>, v: T)
    requires TimerCarriesValue(d)
    ensures TimerCarriesValue(Write(d, v)) && TimerCarriesValue(Fire(d))
    ensures TimerCarriesValue(Init(v)) && SettledWhenIdle(Init(v))
    ensures SettledWhenIdle(d) ==> SettledWhenIdle(Write(d, v)) && SettledWhenIdle(Fire(d))
  {
  }

  /** The composable's refs and its `timeoutId`, the latter as the value the pending timer
      will publish. */
  class DebouncedRef<T(==)> {
    var value: T
    var debouncedValue: T
    var timeout: Option<T>

    function State(): Debounce<T>
      reads this
    {
      Debounce(value, debouncedValue, timeout)
    }

    constructor(initialValue: T)
      ensures State() == Init(initialValue)
    {
      value := initialValue;
      debouncedValue := initialValue;
      timeout := None;
    }

    /** Assigning `value`. */
    method SetValue(v: T)
      modifies this
      ensures State() == Write(old(State()), v)
    {
      if v != value {
        timeout := Some(v);
      }
      value := v;
    }

    /** The pending timer's callback. */
    method FireTimer()
      modifies this
      ensures State() == Fire(old(State()))
    {
      if timeout.Some? {
        debouncedValue := timeout.value;
        timeout := None;
      }
    }
  }
}
