/** Offset pagination of `ListUsers` against a server that answers each request with one record
    more than the page size, so that a full answer proves another page exists. */
module Paging {
  import opened Wrappers
  import opened Decimal
  import opened Client

  function Min(a: nat, b: nat): nat {
    if a <= b then a else b
  }

  /** Where a request starts reading: the `offset` parameter, or 0 when it is missing. */
  function Start(offset: Option<nat>): nat {
    match offset
    case None => 0
    case Some(o) => o
  }

  /** The server's answer to a request at `offset`: the records from the start position on, at
      most `limit + 1` of them. Reading past the end of the store is not defined. */
  function Window<T>(store: seq<T>, offset: Option<nat>, limit: nat): (page: seq<T>)
    requires Start(offset) <= |store|
    ensures page <= store[Start(offset)..]
    ensures |page| == Min(limit + 1, |store| - Start(offset))
  {
    var start := Start(offset);
    store[start..start + Min(limit + 1, |store| - start)]
  }

  /** A request without an offset reads the same window as one at offset 0. */
  lemma MissingOffsetIsZero<T>(store: seq<T>, limit: nat)
    ensures Window(store, None, limit) == Window(store, Some(0), limit)
  {
  }

  /** A window is full, `limit + 1` records, exactly when records remain past its first `limit`. */
  lemma FullWindowMeansMore<T>(store: seq<T>, offset: nat, limit: nat)
    requires offset <= |store|
    ensures |Window(store, Some(offset), limit)| == limit + 1 <==> offset + limit < |store|
  {
  }

  /** The number of requests a listing of `n` records takes with page size `limit`. */
  function RequestCount(n: nat, limit: nat): (c: nat)
    requires limit > 0
    ensures c >= 1
    decreases n
  {
    if n <= limit then 1 else 1 + RequestCount(n - limit, limit)
  }

  /** One request for an empty store, otherwise one request per started page: the count `c`
      with (c - 1) * limit < n <= c * limit, which is ceil(n / limit). */
  lemma {:induction false} RequestCountIsCeiling(n: nat, limit: nat)
    requires limit > 0
    ensures var c := RequestCount(n, limit);
      if n == 0 then c == 1 else (c - 1) * limit < n <= c * limit
    decreases n
  {
    if n > limit {
      var c' := RequestCount(n - limit, limit);
      RequestCountIsCeiling(n - limit, limit);
      assert (c' + 1) * limit == c' * limit + limit;
    }
  }

  /** `ListUsers`: requests pages at offsets 0, limit, 2 * limit, … and appends them until a page
      comes back short. Returns the records in the order received and the offsets requested. */
  method ListUsers<T>(store: seq<T>, limit: nat) returns (users: seq<T>, offsets: seq<nat>)
    requires limit > 0
    ensures users == store
    ensures |offsets| == RequestCount(|store|, limit)
    ensures forall i :: 0 <= i < |offsets| ==> offsets[i] == i * limit && offsets[i] <= |store|
    ensures forall i :: 0 <= i < |offsets| - 1 ==> |Window(store, Some(offsets[i]), limit)| == limit + 1
    ensures |Window(store, Some(offsets[|offsets| - 1]), limit)| <= limit
  {
    users, offsets := [], [];
    var offset: nat := 0;
    while true
      invariant offset <= |store|
      invariant users == store[..offset]
      invariant |offsets| * limit == offset
      invariant RequestCount(|store|, limit) == |offsets| + RequestCount(|store| - offset, limit)
      invariant forall i :: 0 <= i < |offsets| ==> offsets[i] == i * limit && offsets[i] <= |store|
      invariant forall i :: 0 <= i < |offsets| ==> |Window(store, Some(offsets[i]), limit)| == limit + 1
      decreases |store| - offset
    {
      var page := Window(store, Some(offset), limit);
      offsets := offsets + [offset];
      if |page| == limit + 1 {
        users := users + page[..limit];
        offset := offset + limit;
      } else {
        users := users + page;
        assert users == store;
        return;
      }
    }
  }

  /** The test's backing store: users "0", "1", …, `n - 1` of group "QA", appended in order. */
  method BuildStore(n: nat) returns (store: seq<User>)
    ensures |store| == n
    ensures forall i :: 0 <= i < n ==> store[i] == User("QA", Format(i))
    ensures forall i, j :: 0 <= i < j < n ==> store[i].userId != store[j].userId
  {
    store := [];
    for i := 0 to n
      invariant |store| == i
      invariant forall k :: 0 <= k < i ==> store[k] == User("QA", Format(k))
    {
      store := store + [User("QA", Format(i))];
    }
    forall i, j | 0 <= i < j < n
      ensures store[i].userId != store[j].userId
    {
      if store[i].userId == store[j].userId {
        FormatInjective(i, j);
      }
    }
  }

  /** The listing of the test's 500 users, whatever the page size: all of them, in order, each
      once, in ceil(500 / limit) requests (5 for a page size of 100). */
  method ListFiveHundredUsers(limit: nat) returns (users: seq<User>, requests: nat)
    requires limit > 0
    ensures |users| == 500
    ensures forall i :: 0 <= i < 500 ==> users[i] == User("QA", Format(i))
    ensures forall i, j :: 0 <= i < j < 500 ==> users[i] != users[j]
    ensures (requests - 1) * limit < 500 <= requests * limit
    ensures limit == 100 ==> requests == 5
  {
    var store := BuildStore(500);
    var offsets;
    users, offsets := ListUsers(store, limit);
    requests := |offsets|;
    RequestCountIsCeiling(500, limit);
  }
}
