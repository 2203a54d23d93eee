/**
 * `Observable<V>`: a single value with observers that are told of every
 * assignment. Observers are keyed by the observing object (`O`); each holds
 * one closure, identified by a number. What running a closure does is not
 * modelled: a call is recorded in `calls` with the value it received.
 */
module Observables {
  import opened Wrappers

  type ClosureId = nat

  datatype Call<O, V> = Call(observer: O, closure: ClosureId, value: V)

  /**
   * `batch` is one notification round: every current observer's closure
   * called once with `v`, and nothing else.
   */
  ghost predicate Delivers<O(!new), V>(batch: seq<Call<O, V>>, observers: map<O, ClosureId>, v: V) {
    && (forall i :: 0 <= i < |batch| ==>
          batch[i].observer in observers && batch[i].closure == observers[batch[i].observer] && batch[i].value == v)
    && (forall i, j :: 0 <= i < j < |batch| ==> batch[i].observer != batch[j].observer)
    && |batch| == |observers|
    && (forall o :: o in observers ==> exists i :: 0 <= i < |batch| && batch[i].observer == o)
  }

  /** Calling the closures of a snapshot of the observers, one each in order, is one round. */
  lemma SnapshotDelivers<O(!new), V>(objects: seq<O>, observers: map<O, ClosureId>, v: V, batch: seq<Call<O, V>>)
    requires forall i, j :: 0 <= i < j < |objects| ==> objects[i] != objects[j]
    requires forall o :: o in observers ==> o in objects
    requires |objects| == |observers|
    requires forall i :: 0 <= i < |objects| ==> objects[i] in observers
    requires |batch| == |objects|
    requires forall i :: 0 <= i < |batch| ==> batch[i] == Call(objects[i], observers[objects[i]], v)
    ensures Delivers(batch, observers, v)
  {
    forall o | o in observers ensures exists i :: 0 <= i < |batch| && batch[i].observer == o {
      var i :| 0 <= i < |objects| && objects[i] == o;
      assert batch[i].observer == o;
    }
  }

  class Observable<O(==, !new), V(==)> {
    var value: V
    /** The value at the last assignment; `nil` until the first one. */
    var previous: Option<V>
    var ignoreSame: bool
    var observers: map<O, ClosureId>
    var calls: seq<Call<O, V>>

    /** Property observers do not run in an initialiser, so `previous` stays `nil`. */
    constructor (initial: V)
      ensures value == initial && previous == None && ignoreSame
      ensures observers == map[] && calls == []
    {
      value := initial;
      previous := None;
      ignoreSame := true;
      observers := map[];
      calls := [];
    }

    /** Whether assigning `v` reaches the observers. */
    predicate WillNotify(v: V)
      reads this
    {
      !ignoreSame || previous != Some(v)
    }

    /** Assigning `value`: `didSet` notifies, then records the value as `previous`. */
    method SetValue(v: V)
      modifies this
      ensures value == v && previous == Some(v)
      ensures ignoreSame == old(ignoreSame) && observers == old(observers)
      ensures |calls| >= |old(calls)| && calls[..|old(calls)|] == old(calls)
      ensures old(WillNotify(v)) ==> Delivers(calls[|old(calls)|..], observers, v)
      ensures !old(WillNotify(v)) ==> calls == old(calls)
    {
      value := v;
      Notify();
      previous := Some(v);
    }

    /**
     * `notify()`: unless suppressed as a repeat, takes a snapshot of the
     * observers' closures, then calls each with the current value.
     */
    method Notify()
      modifies this`calls
      ensures |calls| >= |old(calls)| && calls[..|old(calls)|] == old(calls)
      ensures WillNotify(value) ==> Delivers(calls[|old(calls)|..], observers, value)
      ensures !WillNotify(value) ==> calls == old(calls)
    {
      if ignoreSame && previous == Some(value) {
        return;
      }
      var objects := Snapshot();
      var start := |calls|;
      for k := 0 to |objects|
        invariant |calls| == start + k && calls[..start] == old(calls)
        invariant forall i :: 0 <= i < k ==> calls[start + i] == Call(objects[i], observers[objects[i]], value)
      {
        calls := calls + [Call(objects[k], observers[objects[k]], value)];
      }
      SnapshotDelivers(objects, observers, value, calls[start..]);
    }

    /** The loop of `notify()` that collects the observers' closures before any is called. */
    method Snapshot() returns (objects: seq<O>)
      ensures forall i :: 0 <= i < |objects| ==> objects[i] in observers
      ensures forall i, j :: 0 <= i < j < |objects| ==> objects[i] != objects[j]
      ensures forall o :: o in observers ==> o in objects
      ensures |objects| == |observers|
    {
      objects := [];
      var remaining := observers.Keys;
      while remaining != {}
        invariant remaining <= observers.Keys
        invariant forall i :: 0 <= i < |objects| ==> objects[i] in observers && objects[i] !in remaining
        invariant forall i, j :: 0 <= i < j < |objects| ==> objects[i] != objects[j]
        invariant forall o :: o in observers ==> o in remaining || o in objects
        invariant |objects| + |remaining| == |observers.Keys|
        decreases remaining
      {
        var o :| o in remaining;
        assert |remaining - {o}| == |remaining| - 1;
        objects := objects + [o];
        remaining := remaining - {o};
      }
      assert |observers| == |observers.Keys|;
    }

    /**
     * `addObserver(_:skipFirst:closure:)`: registering again under the same
     * object replaces its closure; unless `skipFirst`, the closure is called
     * at once with the current value.
     */
    method AddObserver(o: O, skipFirst: bool, closure: ClosureId)
      modifies this`observers, this`calls
      ensures observers == old(observers)[o := closure]
      ensures calls == old(calls) + (if skipFirst then [] else [Call(o, closure, value)])
    {
      observers := observers[o := closure];
      if !skipFirst {
        calls := calls + [Call(o, closure, value)];
      }
    }

    /** `removeObserver(_:)`. */
    method RemoveObserver(o: O)
      modifies this`observers
      ensures observers == old(observers) - {o}
    {
      observers := observers - {o};
    }
  }

  /** The first assignment notifies even when it repeats the initial value. */
  method FirstAssignmentNotifies<O(==, !new), V(==)>(initial: V, o: O, closure: ClosureId)
    returns (ob: Observable<O, V>)
    ensures ob.calls == [Call(o, closure, initial)]
  {
    ob := new Observable(initial);
    ob.AddObserver(o, true, closure);
    ob.SetValue(initial);
    assert ob.calls[0..] == ob.calls;
    assert ob.observers.Keys == {o};
    var i :| 0 <= i < |ob.calls| && ob.calls[i].observer == o;
    assert |ob.observers.Keys| == 1;
  }

  /** After `removeObserver(o)`, later assignments never reach `o`'s closure. */
  method RemovedObserverNotCalled<O(==, !new), V(==)>(ob: Observable<O, V>, o: O, v: V)
    modifies ob
    ensures forall i :: old(|ob.calls|) <= i < |ob.calls| ==> ob.calls[i].observer != o
  {
    ob.RemoveObserver(o);
    ob.SetValue(v);
  }
}
