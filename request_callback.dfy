/** The request-correlation registry: an integer request code is handed to the
    platform with each permission or activity request, and the platform's later
    callback is matched back to the waiting continuation by that code. */
module RequestCallbacks {
  import opened Values

  const INT_MIN: int := -0x8000_0000
  const INT_MAX: int := 0x7FFF_FFFF

  predicate IsInt32(x: int) { INT_MIN <= x <= INT_MAX }

  /** Kotlin's `x + 1` on `Int`: two's-complement wrap-around at `INT_MAX`. */
  function Int32Inc(x: int): (r: int)
    requires IsInt32(x)
    ensures IsInt32(r)
    ensures (r - x - 1) % 0x1_0000_0000 == 0
  {
    if x == INT_MAX then INT_MIN else x + 1
  }

  /** The `companion object` of `RequestCallback`: one `id` counter for the
      whole process, shared by every registry. `issued` counts the codes
      handed out so far; it equals `id` until the counter wraps. */
  class IdCounter {
    var id: int
    ghost var issued: nat

    ghost predicate Valid()
      reads this
    {
      IsInt32(id) && (issued <= INT_MAX ==> id == issued)
    }

    constructor ()
      ensures Valid() && id == 0 && issued == 0
    {
      id := 0;
      issued := 0;
    }
  }

  /** `RequestCallback<T>`: pending continuations keyed by request code. */
  class RequestCallback<T> {
    const counter: IdCounter
    var callbacks: map<int, T>

    /** Until the shared counter wraps, every pending code is one already
        issued, so it lies below the counter and a fresh code cannot
        overwrite it. */
    ghost predicate Valid()
      reads this, counter
    {
      counter.Valid() && BelowCounter(callbacks.Keys, counter)
    }

    constructor (counter: IdCounter)
      requires counter.Valid()
      ensures Valid() && this.counter == counter && callbacks == map[]
    {
      this.counter := counter;
      callbacks := map[];
    }

    /** Issues the counter's current value as the request code, bumps the
        shared counter by one (wrapping as Kotlin's `id++` does) and stores
        the continuation under the code. */
    method AddRequest(result: T) returns (requestId: int)
      requires Valid()
      modifies this`callbacks, counter
      ensures Valid()
      ensures requestId == old(counter.id)
      ensures counter.id == Int32Inc(old(counter.id))
      ensures counter.issued == old(counter.issued) + 1
      ensures callbacks == old(callbacks)[requestId := result]
      ensures old(counter.issued) <= INT_MAX ==> 0 <= requestId && requestId !in old(callbacks)
    {
      requestId := counter.id;
      counter.id := Int32Inc(counter.id);
      counter.issued := counter.issued + 1;
      callbacks := callbacks[requestId := result];
    }

    /** Removes and returns the continuation stored under `requestCode`, or
        `None` (Kotlin's `null`) when there is none. */
    method Pop(requestCode: int) returns (r: Option<T>)
      requires Valid()
      modifies this`callbacks
      ensures Valid()
      ensures requestCode in old(callbacks) ==> r == Some(old(callbacks)[requestCode])
      ensures requestCode !in old(callbacks) ==> r == None && callbacks == old(callbacks)
      ensures callbacks == old(callbacks) - {requestCode}
    {
      if requestCode in callbacks {
        r := Some(callbacks[requestCode]);
        callbacks := callbacks - {requestCode};
      } else {
        r := None;
      }
    }
  }

  ghost predicate BelowCounter(keys: set<int>, counter: IdCounter)
    reads counter
  {
    counter.issued <= INT_MAX ==> forall k :: k in keys ==> 0 <= k < counter.id
  }

  /** A fresh request is answered exactly once: popping its code gives back
      what was stored, popping it again gives nothing, and the registry ends
      as it began (while the counter has not wrapped). */
  method AddThenPopTwice<T>(registry: RequestCallback<T>, x: T) returns (first: Option<T>, second: Option<T>)
    requires registry.Valid()
    modifies registry`callbacks, registry.counter
    ensures registry.Valid()
    ensures first == Some(x) && second == None
    ensures old(registry.counter.issued) <= INT_MAX ==> registry.callbacks == old(registry.callbacks)
  {
    var k := registry.AddRequest(x);
    first := registry.Pop(k);
    second := registry.Pop(k);
  }

  /** Two registries sharing the counter (the permission and the activity
      registry) never hand out the same code one after the other, even
      across the wrap. */
  method CodesDistinctAcrossRegistries<S, T>(a: RequestCallback<S>, b: RequestCallback<T>, x: S, y: T)
    returns (ka: int, kb: int)
    requires a.Valid() && b.Valid() && a.counter == b.counter
    requires a as object != b as object
    modifies a`callbacks, b`callbacks, a.counter
    ensures a.Valid() && b.Valid()
    ensures ka != kb
    ensures ka in a.callbacks && a.callbacks[ka] == x
    ensures kb in b.callbacks && b.callbacks[kb] == y
  {
    ka := a.AddRequest(x);
    kb := b.AddRequest(y);
  }
}
