/**
 * The event channel from the controller to the UI: an `asyncio.Queue` whose
 * `put_nowait` refuses an item when the queue is full. `maxsize <= 0` means
 * unbounded, as in asyncio (the application creates it unbounded).
 */
module Events {
  import opened Codec

  /**
   * The `(kind, data)` tuples the controller puts on the UI queue. The
   * `shutdown` tuple, which only the pygame loop posts and reads, is not one.
   */
  datatype Event =
    | Message(text: string)
    | Warn(text: string)
    | Error(text: string)
    | Connected
    | Disconnected
    | Battery(value: int)
    | Status
    | PayloadSent(payload: seq<Byte>)

  /** `Queue.full()`. */
  predicate Full(items: seq<Event>, maxsize: int) {
    maxsize > 0 && |items| >= maxsize
  }

  /** The queue after `put_nowait(e)`, the item dropped when the queue is full. */
  function Put(items: seq<Event>, maxsize: int, e: Event): seq<Event> {
    if Full(items, maxsize) then items else items + [e]
  }

  /** The queue after putting each of `es` in turn. */
  function PutAll(items: seq<Event>, maxsize: int, es: seq<Event>): seq<Event>
    decreases |es|
  {
    if es == [] then items else PutAll(Put(items, maxsize, es[0]), maxsize, es[1..])
  }

  /**
   * The channel keeps FIFO order and only ever drops a tail: putting `es`
   * leaves the old items in front followed by a prefix of `es`, and nothing
   * is dropped when the queue is unbounded or has room for all of `es`.
   */
  lemma {:induction false} PutAllDeliversPrefix(items: seq<Event>, maxsize: int, es: seq<Event>)
    ensures var r := PutAll(items, maxsize, es);
      && |items| <= |r| <= |items| + |es|
      && r[..|items|] == items
      && r[|items|..] == es[..|r| - |items|]
      && (maxsize <= 0 || |items| + |es| <= maxsize ==> r == items + es)
      && (maxsize > 0 && |items| <= maxsize ==> |r| <= maxsize)
    decreases |es|
  {
    if es != [] {
      var next := Put(items, maxsize, es[0]);
      PutAllDeliversPrefix(next, maxsize, es[1..]);
      var r := PutAll(items, maxsize, es);
      if Full(items, maxsize) {
        // Once full, the queue stays full and the rest of `es` is dropped.
        FullDropsAll(items, maxsize, es[1..]);
      } else {
        assert next == items + [es[0]];
        assert r[..|next|] == next;
        assert r[|items|..] == [es[0]] + r[|next|..];
        assert es[..|r| - |items|] == [es[0]] + es[1..][..|r| - |next|];
      }
    }
  }

  /** A full queue drops everything put on it. */
  lemma {:induction false} FullDropsAll(items: seq<Event>, maxsize: int, es: seq<Event>)
    requires Full(items, maxsize)
    ensures PutAll(items, maxsize, es) == items
    decreases |es|
  {
    if es != [] {
      FullDropsAll(items, maxsize, es[1..]);
    }
  }

  /** Putting two batches in turn is putting their concatenation. */
  lemma {:induction false} PutAllAppend(items: seq<Event>, maxsize: int, a: seq<Event>, b: seq<Event>)
    ensures PutAll(PutAll(items, maxsize, a), maxsize, b) == PutAll(items, maxsize, a + b)
    decreases |a|
  {
    if a != [] {
      PutAllAppend(Put(items, maxsize, a[0]), maxsize, a[1..], b);
      assert (a + b)[1..] == a[1..] + b;
    } else {
      assert a + b == b;
    }
  }

  /** The `asyncio.Queue` the UI drains. */
  class EventQueue {
    var items: seq<Event>
    const maxsize: int

    /** At most `maxsize` items are held when the queue is bounded. */
    ghost predicate Valid()
      reads this
    {
      maxsize > 0 ==> |items| <= maxsize
    }

    constructor (maxsize: int)
      ensures Valid() && items == [] && this.maxsize == maxsize
    {
      items := [];
      this.maxsize := maxsize;
    }

    /** `put_nowait(e)`; `accepted` is false where asyncio raises `QueueFull`. */
    method PutNowait(e: Event) returns (accepted: bool)
      requires Valid()
      modifies this`items
      ensures Valid()
      ensures accepted <==> !Full(old(items), maxsize)
      ensures items == if accepted then old(items) + [e] else old(items)
    {
      accepted := !Full(items, maxsize);
      if accepted {
        items := items + [e];
      }
    }
  }
}
