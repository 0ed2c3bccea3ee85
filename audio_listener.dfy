/**
 * The audio event registry of the music player: two tables from an event
 * name to an array of callbacks, the active one (`listenerObj`) and the saved
 * one (`tempListener`).
 *
 * The arrays are heap objects and the tables hold references to them, so
 * after `playSomethingListener` both tables can name the same array. The
 * model keeps that: each array is a `CallbackList` object. A callback is
 * known by its identity; running it appends it to the `invoked` trace, and
 * callbacks are taken not to call back into the registry.
 */
module AudioListener {

  /** `ListenerName`. */
  datatype ListenerName = ChangeSong | HandleFirstLoad | CutSong

  /** A callback, by identity. */
  type Callback = nat

  /** A JavaScript array of callbacks. */
  class CallbackList {
    var items: seq<Callback>

    constructor ()
      ensures items == []
    {
      items := [];
    }

    /** `push(cb)`. */
    method Push(cb: Callback)
      modifies this
      ensures items == old(items) + [cb]
    {
      items := items + [cb];
    }
  }

  /** The object `useListener` returns, with the tables its functions share. */
  class Registry {
    var listenerObj: map<ListenerName, CallbackList>
    var tempListener: map<ListenerName, CallbackList>
    /** The callbacks run so far, in order. */
    var invoked: seq<Callback>

    /**
     * Both tables have every name, and arrays of different names are
     * different objects; the two tables may share the array of one name.
     */
    ghost predicate Valid()
      reads this
    {
      (forall e: ListenerName :: e in listenerObj && e in tempListener)
      && forall e, d: ListenerName :: e != d ==>
           listenerObj[e] != listenerObj[d] && listenerObj[e] != tempListener[d] && tempListener[e] != tempListener[d]
    }

    /** The callbacks `executeListener(e)` runs. */
    ghost function Active(e: ListenerName): seq<Callback>
      requires Valid()
      reads this, listenerObj[e]
    {
      listenerObj[e].items
    }

    /** The callbacks `playSomethingListener(e)` brings back. */
    ghost function Saved(e: ListenerName): seq<Callback>
      requires Valid()
      reads this, tempListener[e]
    {
      tempListener[e].items
    }

    /** Both tables name the same array for `e`. */
    ghost predicate Shared(e: ListenerName)
      requires Valid()
      reads this
    {
      listenerObj[e] == tempListener[e]
    }

    /** Six empty arrays, none shared. */
    constructor ()
      ensures Valid() && invoked == []
      ensures forall e: ListenerName :: Active(e) == [] && Saved(e) == [] && !Shared(e)
    {
      var a1 := new CallbackList();
      var a2 := new CallbackList();
      var a3 := new CallbackList();
      var t1 := new CallbackList();
      var t2 := new CallbackList();
      var t3 := new CallbackList();
      listenerObj := map[ChangeSong := a1, HandleFirstLoad := a2, CutSong := a3];
      tempListener := map[ChangeSong := t1, HandleFirstLoad := t2, CutSong := t3];
      invoked := [];
      new;
      forall e: ListenerName
        ensures e in listenerObj && e in tempListener
      {
        if e.ChangeSong? {} else if e.HandleFirstLoad? {} else {}
      }
      forall e: ListenerName, d: ListenerName | e != d
        ensures listenerObj[e] != listenerObj[d] && listenerObj[e] != tempListener[d] && tempListener[e] != tempListener[d]
      {
        if e.ChangeSong? {} else if e.HandleFirstLoad? {} else {}
      }
    }

    /**
     * `addListener(e, cb)`: `cb` is pushed on both arrays of `e`, so twice on
     * one array when the tables share it.
     */
    method AddListener(e: ListenerName, cb: Callback)
      requires Valid()
      modifies listenerObj[e], tempListener[e]
      ensures Valid()
      ensures Shared(e) ==> Active(e) == old(Active(e)) + [cb, cb]
      ensures !Shared(e) ==> Active(e) == old(Active(e)) + [cb] && Saved(e) == old(Saved(e)) + [cb]
      ensures forall d: ListenerName :: d != e ==> Active(d) == old(Active(d)) && Saved(d) == old(Saved(d))
    {
      listenerObj[e].Push(cb);
      tempListener[e].Push(cb);
    }

    /** `executeListener(e)`: each active callback runs once, in order. */
    method ExecuteListener(e: ListenerName)
      requires Valid()
      modifies this`invoked
      ensures invoked == old(invoked) + Active(e)
    {
      var list := listenerObj[e];
      var len := |list.items|;
      if len < 1 {
        return;
      }
      for i := 0 to len
        invariant invoked == old(invoked) + list.items[..i]
      {
        invoked := invoked + [list.items[i]];
      }
    }

    /**
     * `pauseSomethingListener(e)`: a non-empty active array becomes the saved
     * one and a new empty array becomes active; on an empty active array
     * nothing changes, so the saved array survives a second pause.
     */
    method PauseSomethingListener(e: ListenerName)
      requires Valid()
      modifies this`listenerObj, this`tempListener
      ensures Valid()
      ensures if old(Active(e)) == [] then listenerObj == old(listenerObj) && tempListener == old(tempListener)
              else tempListener[e] == old(listenerObj[e]) && fresh(listenerObj[e])
                   && Saved(e) == old(Active(e)) && Active(e) == [] && !Shared(e)
      ensures forall d: ListenerName :: d != e ==> listenerObj[d] == old(listenerObj[d]) && tempListener[d] == old(tempListener[d])
    {
      if |listenerObj[e].items| > 0 {
        var empty := new CallbackList();
        tempListener := tempListener[e := listenerObj[e]];
        listenerObj := listenerObj[e := empty];
      }
    }

    /** `playSomethingListener(e)`: the saved array becomes the active one, shared by both tables. */
    method PlaySomethingListener(e: ListenerName)
      requires Valid()
      modifies this`listenerObj
      ensures Valid()
      ensures listenerObj[e] == old(tempListener[e]) && Shared(e)
      ensures Active(e) == old(Saved(e)) && Saved(e) == old(Saved(e))
      ensures forall d: ListenerName :: d != e ==> listenerObj[d] == old(listenerObj[d])
    {
      listenerObj := listenerObj[e := tempListener[e]];
    }

    /** `addListener(e, cb)` for each `cb` of `cbs` in turn, while the tables do not share the array of `e`. */
    method AddEach(e: ListenerName, cbs: seq<Callback>)
      requires Valid() && !Shared(e)
      modifies listenerObj[e], tempListener[e]
      ensures Valid() && !Shared(e)
      ensures Active(e) == old(Active(e)) + cbs && Saved(e) == old(Saved(e)) + cbs
    {
      for i := 0 to |cbs|
        invariant Active(e) == old(Active(e)) + cbs[..i] && Saved(e) == old(Saved(e)) + cbs[..i]
      {
        AddListener(e, cbs[i]);
        assert cbs[..i + 1] == cbs[..i] + [cbs[i]];
      }
      assert cbs[..|cbs|] == cbs;
    }

    /**
     * Pausing `e`, adding `cbs`, firing `e` and playing `e` again: the firing
     * runs only the added callbacks, and afterwards the callbacks active
     * before the pause are back, followed by the added ones, in an array both
     * tables share.
     */
    method PauseAddPlay(e: ListenerName, cbs: seq<Callback>)
      requires Valid() && Active(e) != []
      modifies this, listenerObj[e]
      ensures Valid()
      ensures invoked == old(invoked) + cbs
      ensures Active(e) == old(Active(e)) + cbs && Shared(e)
    {
      ghost var before := listenerObj[e];
      PauseSomethingListener(e);
      assert tempListener[e] == before && Saved(e) == old(Active(e)) && Active(e) == [];
      AddEach(e, cbs);
      assert Active(e) == cbs;
      ExecuteListener(e);
      PlaySomethingListener(e);
    }

    /** After `playSomethingListener(e)`, one `addListener(e, cb)` makes `cb` run twice per firing. */
    method PlayThenAdd(e: ListenerName, cb: Callback)
      requires Valid()
      modifies this, tempListener[e]
      ensures Valid()
      ensures Active(e) == old(Saved(e)) + [cb, cb]
    {
      PlaySomethingListener(e);
      AddListener(e, cb);
    }
  }
}
