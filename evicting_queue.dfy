/**
 * A bounded first-in-first-out queue that never refuses an element: adding
 * to a full queue first evicts its oldest element. This is the behaviour of
 * the evicting queue that holds the plugin's recent count changes.
 */
module EvictingQueues {

  /** The contents after adding `e` to a queue holding `q` with room for `maxSize`. */
  function Added<T>(q: seq<T>, e: T, maxSize: nat): (r: seq<T>)
    ensures |q| <= maxSize ==> |r| <= maxSize
    ensures maxSize > 0 ==> |r| > 0 && r[|r| - 1] == e
  {
    if maxSize == 0 then q
    else if |q| == maxSize then q[1..] + [e]
    else q + [e]
  }

  /** The contents after adding every element of `es`, first to last. */
  function AddedAll<T>(q: seq<T>, es: seq<T>, maxSize: nat): seq<T>
    decreases |es|
  {
    if es == [] then q else AddedAll(Added(q, es[0], maxSize), es[1..], maxSize)
  }

  /** The last `n` elements of `s` (all of `s` when it is shorter). */
  function LastN<T>(s: seq<T>, n: nat): seq<T>
  {
    if |s| <= n then s else s[|s| - n..]
  }

  lemma AddedIsMostRecent<T>(q: seq<T>, e: T, maxSize: nat)
    requires |q| <= maxSize
    ensures Added(q, e, maxSize) == LastN(q + [e], maxSize)
  {
    if maxSize > 0 && |q| == maxSize {
      assert (q + [e])[1..] == q[1..] + [e];
    }
  }

  /** Keeping the last n of a prefix first changes nothing about the last n of the whole. */
  lemma LastNOfLastN<T>(s: seq<T>, t: seq<T>, n: nat)
    ensures LastN(LastN(s, n) + t, n) == LastN(s + t, n)
  {
    if |s| > n {
      var u := s[|s| - n..];
      assert (s + t)[|s| - n..] == u + t;
      if |u + t| > n {
        assert (u + t)[|u + t| - n..] == (s + t)[|s + t| - n..];
      }
    }
  }

  /**
   * After any sequence of additions the queue holds exactly the most recent
   * `maxSize` elements of everything it was given, in the order given.
   */
  lemma {:induction false} AddedAllKeepsMostRecent<T>(q: seq<T>, es: seq<T>, maxSize: nat)
    requires |q| <= maxSize
    ensures AddedAll(q, es, maxSize) == LastN(q + es, maxSize)
    ensures |AddedAll(q, es, maxSize)| <= maxSize
    decreases |es|
  {
    if es == [] {
      assert q + es == q;
    } else {
      var q' := Added(q, es[0], maxSize);
      AddedAllKeepsMostRecent(q', es[1..], maxSize);
      AddedIsMostRecent(q, es[0], maxSize);
      LastNOfLastN(q + [es[0]], es[1..], maxSize);
      assert q + [es[0]] + es[1..] == q + es;
    }
  }

  /** The queue object: `items` lists the held elements from oldest to newest. */
  class EvictingQueue<T> {
    const maxSize: nat
    var items: seq<T>

    ghost predicate Valid()
      reads this
    {
      |items| <= maxSize
    }

    constructor Create(maxSize: nat)
      ensures Valid() && this.maxSize == maxSize && items == []
    {
      this.maxSize := maxSize;
      items := [];
    }

    /** Appends `e`, evicting the oldest element first when the queue is full. */
    method Add(e: T)
      requires Valid()
      modifies this
      ensures Valid() && items == Added(old(items), e, maxSize)
    {
      if maxSize == 0 {
        return;
      }
      if |items| == maxSize {
        items := items[1..];
      }
      items := items + [e];
    }

    method Clear()
      modifies this
      ensures Valid() && items == []
    {
      items := [];
    }
  }
}
