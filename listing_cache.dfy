/**
 * The single-slot, time-boxed cache in front of the product listing
 * (controllers/productController.js:9-11, 156-179), as a pure state machine,
 * and a replay of request traces against it to count store queries.
 */
module ListingCache {
  import opened Wrappers
  import opened Products

  /** Lifetime of a snapshot, in milliseconds. */
  const CacheDuration: int := 60 * 1000

  /** The two module-level variables: the snapshot slot and its fetch time. */
  datatype CacheState = CacheState(cachedProducts: Option<seq<Product>>, lastFetchTime: int)

  /** The state at process start: no snapshot, fetch time zero. */
  const Initial := CacheState(None, 0)

  /**
   * A listing at `now` is served from the slot: a snapshot is present (an
   * empty one included) and strictly younger than the lifetime.
   */
  predicate Hit(c: CacheState, now: int) {
    c.cachedProducts.Some? && now - c.lastFetchTime < CacheDuration
  }

  /** The state after a miss at `now` stored the fetched listing. */
  function Refilled(now: int, fetched: seq<Product>): CacheState {
    CacheState(Some(fetched), now)
  }

  /** The state after a write handler cleared the slot. */
  function Cleared(c: CacheState): CacheState {
    c.(cachedProducts := None)
  }

  /** Clearing drops the snapshot, keeps the fetch time, is idempotent, and forces the next listing to miss. */
  lemma ClearedForcesMiss(c: CacheState, now: int)
    ensures Cleared(c).cachedProducts == None
    ensures Cleared(c).lastFetchTime == c.lastFetchTime
    ensures Cleared(Cleared(c)) == Cleared(c)
    ensures !Hit(Cleared(c), now)
  {
  }

  /**
   * The lifetime boundary: one millisecond before it the snapshot is served,
   * at exactly 60 000 ms it is not; an empty snapshot is served like any other.
   */
  lemma TtlBoundary(s: seq<Product>, t: int)
    ensures Hit(CacheState(Some(s), t), t + CacheDuration - 1)
    ensures !Hit(CacheState(Some(s), t), t + CacheDuration)
    ensures Hit(CacheState(Some([]), t), t)
  {
  }

  /** A request against the process, in arrival order: a listing at a time, or a completed write. */
  datatype Request = List(now: int) | Write

  /** What a trace did: the final cache state, the store queries issued, the listings served in order. */
  datatype Run = Run(final: CacheState, queries: nat, served: seq<seq<Product>>)

  /** Number of listing requests in a trace. */
  function Listings(requests: seq<Request>): (n: nat)
    ensures n <= |requests|
  {
    if requests == [] then 0
    else (if requests[0].List? then 1 else 0) + Listings(requests[1..])
  }

  /**
   * Replays requests sequentially from cache state `c`. `view(e)` is what the
   * store's newest-first query returns after `e` completed writes, and
   * `epoch` counts the writes so far.
   */
  function Replay(c: CacheState, requests: seq<Request>, epoch: nat, view: nat -> seq<Product>): Run
    decreases |requests|
  {
    if requests == [] then Run(c, 0, [])
    else
      match requests[0]
      case Write => Replay(Cleared(c), requests[1..], epoch + 1, view)
      case List(now) =>
        if Hit(c, now) then
          var rest := Replay(c, requests[1..], epoch, view);
          rest.(served := [c.cachedProducts.value] + rest.served)
        else
          var rest := Replay(Refilled(now, view(epoch)), requests[1..], epoch, view);
          Run(rest.final, rest.queries + 1, [view(epoch)] + rest.served)
  }

  /** Every listing request gets exactly one answer, and no request issues more than one query. */
  lemma {:induction false} ReplayAnswersEveryListing(c: CacheState, requests: seq<Request>, epoch: nat, view: nat -> seq<Product>)
    ensures |Replay(c, requests, epoch, view).served| == Listings(requests)
    ensures Replay(c, requests, epoch, view).queries <= Listings(requests)
    decreases |requests|
  {
    if requests != [] {
      match requests[0]
      case Write => ReplayAnswersEveryListing(Cleared(c), requests[1..], epoch + 1, view);
      case List(now) =>
        if Hit(c, now) {
          ReplayAnswersEveryListing(c, requests[1..], epoch, view);
        } else {
          ReplayAnswersEveryListing(Refilled(now, view(epoch)), requests[1..], epoch, view);
        }
    }
  }

  /** Every request is a listing less than one lifetime after `since`: no write in between. */
  predicate ListingsWithin(requests: seq<Request>, since: int) {
    forall k :: 0 <= k < |requests| ==> requests[k].List? && requests[k].now - since < CacheDuration
  }

  /**
   * A present snapshot fetched at `t` answers every listing less than one
   * lifetime after `t` with no write in between: no query, state untouched.
   */
  lemma {:induction false} WindowServesSnapshot(s: seq<Product>, t: int, requests: seq<Request>, epoch: nat, view: nat -> seq<Product>)
    requires ListingsWithin(requests, t)
    ensures Replay(CacheState(Some(s), t), requests, epoch, view).queries == 0
    ensures Replay(CacheState(Some(s), t), requests, epoch, view).final == CacheState(Some(s), t)
    ensures |Replay(CacheState(Some(s), t), requests, epoch, view).served| == |requests|
    ensures forall k :: 0 <= k < |requests| ==> Replay(CacheState(Some(s), t), requests, epoch, view).served[k] == s
    decreases |requests|
  {
    if requests != [] {
      assert requests[0].List? && Hit(CacheState(Some(s), t), requests[0].now);
      assert ListingsWithin(requests[1..], t) by {
        forall k | 0 <= k < |requests[1..]| ensures requests[1..][k].List? && requests[1..][k].now - t < CacheDuration {
          assert requests[1..][k] == requests[k + 1];
        }
      }
      WindowServesSnapshot(s, t, requests[1..], epoch, view);
    }
  }

  /**
   * A listing that misses at `t`, followed only by listings less than one
   * lifetime later, costs exactly one store query, and all of them are
   * answered with that one fetched listing.
   */
  lemma OneQueryPerWindow(c: CacheState, t: int, requests: seq<Request>, epoch: nat, view: nat -> seq<Product>)
    requires !Hit(c, t)
    requires ListingsWithin(requests, t)
    ensures Replay(c, [List(t)] + requests, epoch, view).queries == 1
    ensures Replay(c, [List(t)] + requests, epoch, view).final == CacheState(Some(view(epoch)), t)
    ensures |Replay(c, [List(t)] + requests, epoch, view).served| == 1 + |requests|
    ensures forall k :: 0 <= k <= |requests| ==> Replay(c, [List(t)] + requests, epoch, view).served[k] == view(epoch)
  {
    assert ([List(t)] + requests)[1..] == requests;
    WindowServesSnapshot(view(epoch), t, requests, epoch, view);
  }

  /** From the initial state, two listings less than a lifetime apart issue a single query and return the same listing. */
  lemma TwoListingsOneQuery(t1: int, t2: int, view: nat -> seq<Product>)
    requires t2 - t1 < CacheDuration
    ensures Replay(Initial, [List(t1), List(t2)], 0, view).queries == 1
    ensures Replay(Initial, [List(t1), List(t2)], 0, view).served == [view(0), view(0)]
  {
    assert [List(t1), List(t2)] == [List(t1)] + [List(t2)];
    OneQueryPerWindow(Initial, t1, [List(t2)], 0, view);
  }

  /** A listing at or past the end of the lifetime issues one query and returns the store's current listing. */
  lemma ExpiredSnapshotIsRefetched(s: seq<Product>, t: int, now: int, epoch: nat, view: nat -> seq<Product>)
    requires now - t >= CacheDuration
    ensures Replay(CacheState(Some(s), t), [List(now)], epoch, view) == Run(CacheState(Some(view(epoch)), now), 1, [view(epoch)])
  {
  }

  /** After a completed write the next listing, whenever it comes, reflects the store after that write. */
  lemma WriteForcesFreshListing(c: CacheState, now: int, epoch: nat, view: nat -> seq<Product>)
    ensures Replay(c, [Write, List(now)], epoch, view) == Run(CacheState(Some(view(epoch + 1)), now), 1, [view(epoch + 1)])
  {
    assert [Write, List(now)][1..] == [List(now)];
    assert Replay(c, [Write, List(now)], epoch, view) == Replay(Cleared(c), [List(now)], epoch + 1, view);
    assert [List(now)][1..] == [];
    assert !Hit(Cleared(c), now);
  }
}
