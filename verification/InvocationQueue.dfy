/** The queue of functions posted to the event loop. */
module InvocationQueue {

  type Fn = nat

  /** What running the functions posts in turn. */
  function Posted(posts: Fn -> seq<Fn>, fns: seq<Fn>): seq<Fn> {
    if fns == [] then [] else Posted(posts, fns[..|fns| - 1]) + posts(fns[|fns| - 1])
  }

  /** The posts of each function, one function after the other. */
  lemma {:induction false} PostedJoined(posts: Fn -> seq<Fn>, a: seq<Fn>, b: seq<Fn>)
    ensures Posted(posts, a + b) == Posted(posts, a) + Posted(posts, b)
    decreases |b|
  {
    if b == [] {
      assert a + b == a;
    } else {
      assert (a + b)[..|a + b| - 1] == a + b[..|b| - 1];
      PostedJoined(posts, a, b[..|b| - 1]);
    }
  }

  lemma PostedOne(posts: Fn -> seq<Fn>, fn: Fn)
    ensures Posted(posts, [fn]) == posts(fn)
  {
    assert [fn][..0] == [];
  }

  class Queue {
    var functions: seq<Fn>
    ghost var pushed: seq<Fn>    // everything ever pushed
    ghost var ran: seq<Fn>       // everything run

    /** Between calls everything pushed has run or is queued, in the order of the pushes. */
    ghost predicate Valid()
      reads this
    {
      pushed == ran + functions
    }

    constructor ()
      ensures Valid() && functions == [] && pushed == []
    {
      functions, pushed, ran := [], [], [];
    }

    method Push(fn: Fn)
      modifies this
      ensures functions == old(functions) + [fn] && pushed == old(pushed) + [fn] && ran == old(ran)
      ensures old(Valid()) ==> Valid()
    {
      functions := functions + [fn];
      pushed := pushed + [fn];
    }

    /** Runs what was queued, in order, each once; what these functions post is queued for the next
        call, whatever it is. */
    method InvokeAll(posts: Fn -> seq<Fn>) returns (batch: seq<Fn>)
      requires Valid()
      modifies this
      ensures Valid()
      ensures batch == old(functions) && ran == old(ran) + batch
      ensures functions == Posted(posts, batch) && pushed == old(pushed) + Posted(posts, batch)
    {
      batch := functions;
      functions := [];
      for i := 0 to |batch|
        invariant ran == old(ran) + batch[..i]
        invariant functions == Posted(posts, batch[..i]) && pushed == old(pushed) + functions
      {
        ran := ran + [batch[i]];
        Run(posts(batch[i]));
        assert batch[..i + 1][..i] == batch[..i];
      }
      assert batch[..|batch|] == batch;
    }

    /** The pushes a running function makes. */
    method Run(fns: seq<Fn>)
      modifies this
      ensures functions == old(functions) + fns && pushed == old(pushed) + fns && ran == old(ran)
    {
      for i := 0 to |fns|
        invariant functions == old(functions) + fns[..i] && pushed == old(pushed) + fns[..i] && ran == old(ran)
      {
        Push(fns[i]);
      }
      assert fns[..|fns|] == fns;
    }
  }
}
