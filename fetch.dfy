/** The page walk of `fetch_orders` (rust/src/main.rs:39-65), over an abstract store in
    place of HTTP. */
module Fetch {
  import opened Orders

  type Uri = string

  /** One response: its orders, and the URI of the link tagged `rel="next"`, if any. */
  datatype Page = Page(orders: seq<Order>, next: Option<Uri>)

  /** Why one request fails; each aborts the run. */
  datatype FetchError =
    | RequestFailed        // transport failure or an error status
    | MissingLinkHeader    // the response has no `link` header
    | MalformedLinkHeader  // the `link` header does not parse
    | MalformedBody        // the body is not a list of orders

  /** What the store answers for each URI; a URI it does not know fails the request. */
  type Server = map<Uri, Result<Page, FetchError>>

  function Request(server: Server, uri: Uri): Result<Page, FetchError>
  {
    if uri in server then server[uri] else Err(RequestFailed)
  }

  /** How a walk ends: with all orders, with the first failure, or never (a `next` link back
      to a page already read makes the loop request the same pages forever). */
  datatype Outcome = Fetched(orders: seq<Order>) | Failed(error: FetchError) | Diverges

  /** The outcome of a walk and the URIs it requests, in order. */
  datatype Trace = Trace(outcome: Outcome, requested: seq<Uri>)

  function Prepend(orders: seq<Order>, o: Outcome): Outcome
  {
    if o.Fetched? then Fetched(orders + o.orders) else o
  }

  /** The orders of the pages at `uris`, one page after the other. */
  function PagesOrders(server: Server, uris: seq<Uri>): seq<Order>
  {
    if uris == [] then []
    else
      var page := Request(server, uris[0]);
      (if page.Ok? then page.value.orders else []) + PagesOrders(server, uris[1..])
  }

  function PageSizes(server: Server, uris: seq<Uri>): nat
  {
    if uris == [] then 0
    else
      var page := Request(server, uris[0]);
      (if page.Ok? then |page.value.orders| else 0) + PageSizes(server, uris[1..])
  }

  lemma {:induction false} PagesOrdersLength(server: Server, uris: seq<Uri>)
    ensures |PagesOrders(server, uris)| == PageSizes(server, uris)
  {
    if uris != [] {
      PagesOrdersLength(server, uris[1..]);
    }
  }

  lemma Unvisited(keys: set<Uri>, visited: set<Uri>, uri: Uri)
    requires uri in keys && uri !in visited
    ensures |keys - (visited + {uri})| < |keys - visited|
  {
    var rest := keys - visited;
    assert keys - (visited + {uri}) == rest - {uri};
    assert rest == (rest - {uri}) + {uri};
    assert |rest| == |rest - {uri}| + 1;
  }

  /** The walk from `uri`, having already read the pages at `visited`. It requests `uri`,
      and then each page's `next` link in turn, stopping at the first page without one. */
  function Walk(server: Server, uri: Uri, visited: set<Uri>): (t: Trace)
    ensures |t.requested| >= 1 && t.requested[0] == uri
    ensures forall k :: 0 <= k < |t.requested| - 1 ==>
      Request(server, t.requested[k]).Ok? && Request(server, t.requested[k]).value.next == Some(t.requested[k + 1])
    ensures t.outcome.Fetched? ==>
      var last := Request(server, t.requested[|t.requested| - 1]);
      last.Ok? && last.value.next == None
    ensures t.outcome.Fetched? ==> t.outcome.orders == PagesOrders(server, t.requested)
    ensures t.outcome.Failed? ==> Request(server, t.requested[|t.requested| - 1]) == Err(t.outcome.error)
    ensures !t.outcome.Diverges? ==> forall k :: 0 <= k < |t.requested| ==> t.requested[k] !in visited
    ensures !t.outcome.Diverges? ==>
      forall j, k :: 0 <= j < k < |t.requested| ==> t.requested[j] != t.requested[k]
    decreases |server.Keys - visited|
  {
    if uri in visited then Trace(Diverges, [uri])
    else match Request(server, uri)
      case Err(e) => Trace(Failed(e), [uri])
      case Ok(page) =>
        match page.next
        case None => Trace(Fetched(page.orders), [uri])
        case Some(n) =>
          Unvisited(server.Keys, visited, uri);
          var rest := Walk(server, n, visited + {uri});
          FollowedShape(server, uri, page, visited, rest);
          Trace(Prepend(page.orders, rest.outcome), [uri] + rest.requested)
  }

  /** What `Walk` promises of its trace `t` from `uri` after reading `visited`, clause by
      clause as in its ensures. */
  predicate WalkShape(server: Server, uri: Uri, visited: set<Uri>, t: Trace)
  {
    && |t.requested| >= 1 && t.requested[0] == uri
    && (forall k :: 0 <= k < |t.requested| - 1 ==>
          Request(server, t.requested[k]).Ok? && Request(server, t.requested[k]).value.next == Some(t.requested[k + 1]))
    && (t.outcome.Fetched? ==>
          var last := Request(server, t.requested[|t.requested| - 1]);
          last.Ok? && last.value.next == None)
    && (t.outcome.Fetched? ==> t.outcome.orders == PagesOrders(server, t.requested))
    && (t.outcome.Failed? ==> Request(server, t.requested[|t.requested| - 1]) == Err(t.outcome.error))
    && (!t.outcome.Diverges? ==> forall k :: 0 <= k < |t.requested| ==> t.requested[k] !in visited)
    && (!t.outcome.Diverges? ==>
          forall j, k :: 0 <= j < k < |t.requested| ==> t.requested[j] != t.requested[k])
  }

  /** Putting an unread page with a `next` link in front of the walk from that link keeps
      the shape of a walk. */
  lemma FollowedShape(server: Server, uri: Uri, page: Page, visited: set<Uri>, rest: Trace)
    requires uri !in visited && Request(server, uri) == Ok(page) && page.next.Some?
    requires WalkShape(server, page.next.value, visited + {uri}, rest)
    ensures WalkShape(server, uri, visited, Trace(Prepend(page.orders, rest.outcome), [uri] + rest.requested))
  {
    var requested := [uri] + rest.requested;
    assert forall k :: 0 <= k < |rest.requested| ==> requested[k + 1] == rest.requested[k];
    assert requested[1..] == rest.requested;
  }

  /** An unread page with a `next` link: its orders, then the walk from the link. */
  lemma WalkFollows(server: Server, uri: Uri, visited: set<Uri>)
    requires uri !in visited && Request(server, uri).Ok? && Request(server, uri).value.next.Some?
    ensures
      var page := Request(server, uri).value;
      var rest := Walk(server, page.next.value, visited + {uri});
      Walk(server, uri, visited) == Trace(Prepend(page.orders, rest.outcome), [uri] + rest.requested)
  {
  }

  /** A chain of distinct, unread pages, each linking to the next and the last linking
      nowhere, is walked to its end: every page is requested once, in order, and the walk
      yields all their orders. */
  lemma {:induction false} WalkOfChain(server: Server, us: seq<Uri>, visited: set<Uri>)
    requires |us| >= 1
    requires forall k :: 0 <= k < |us| - 1 ==>
      Request(server, us[k]).Ok? && Request(server, us[k]).value.next == Some(us[k + 1])
    requires Request(server, us[|us| - 1]).Ok? && Request(server, us[|us| - 1]).value.next == None
    requires forall j, k :: 0 <= j < k < |us| ==> us[j] != us[k]
    requires forall k :: 0 <= k < |us| ==> us[k] !in visited
    ensures Walk(server, us[0], visited) == Trace(Fetched(PagesOrders(server, us)), us)
    decreases |us|
  {
    var page := Request(server, us[0]).value;
    if |us| == 1 {
      assert page.orders + [] == page.orders;
    } else {
      WalkOfChain(server, us[1..], visited + {us[0]});
      WalkFollows(server, us[0], visited);
      assert [us[0]] + us[1..] == us;
    }
  }

  /** A walk diverges only on coming back to a page: the last URI it requests was read
      before the walk began or earlier in the walk. */
  lemma {:induction false} DivergesOnlyOnRevisit(server: Server, uri: Uri, visited: set<Uri>)
    requires Walk(server, uri, visited).outcome.Diverges?
    ensures
      var rq := Walk(server, uri, visited).requested;
      rq[|rq| - 1] in visited || exists j :: 0 <= j < |rq| - 1 && rq[j] == rq[|rq| - 1]
    decreases |server.Keys - visited|
  {
    if uri !in visited {
      var page := Request(server, uri).value;
      var n := page.next.value;
      Unvisited(server.Keys, visited, uri);
      DivergesOnlyOnRevisit(server, n, visited + {uri});
      var rest := Walk(server, n, visited + {uri}).requested;
      var rq := Walk(server, uri, visited).requested;
      assert rq == [uri] + rest;
      assert rq[|rq| - 1] == rest[|rest| - 1];
      if rest[|rest| - 1] !in visited + {uri} {
        var j :| 0 <= j < |rest| - 1 && rest[j] == rest[|rest| - 1];
        assert rq[j + 1] == rest[j];
      } else if rest[|rest| - 1] == uri {
        assert rq[0] == uri;
      }
    }
  }

  /** Where the loop of `FetchOrders` stands: the orders so far, the URIs requested so far,
      and the walk still to come from the pending `next` link. */
  ghost function Pending(server: Server, orders: seq<Order>, requested: seq<Uri>,
                         next: Option<Uri>, visited: set<Uri>): Trace
  {
    match next
    case None => Trace(Fetched(orders), requested)
    case Some(n) =>
      var rest := Walk(server, n, visited);
      Trace(Prepend(orders, rest.outcome), requested + rest.requested)
  }

  /** One turn of the loop, on the response to the pending link `n`. */
  lemma PendingStep(server: Server, orders: seq<Order>, requested: seq<Uri>, n: Uri, visited: set<Uri>)
    requires !Pending(server, orders, requested, Some(n), visited).outcome.Diverges?
    ensures n !in visited
    ensures Request(server, n).Err? ==>
      Pending(server, orders, requested, Some(n), visited) == Trace(Failed(Request(server, n).error), requested + [n])
    ensures Request(server, n).Ok? ==>
      Pending(server, orders, requested, Some(n), visited) ==
      Pending(server, orders + Request(server, n).value.orders, requested + [n], Request(server, n).value.next, visited + {n})
  {
    if Request(server, n).Ok? {
      var page := Request(server, n).value;
      if page.next.Some? {
        var rest := Walk(server, page.next.value, visited + {n});
        assert requested + ([n] + rest.requested) == requested + [n] + rest.requested;
        if rest.outcome.Fetched? {
          assert orders + (page.orders + rest.outcome.orders) == orders + page.orders + rest.outcome.orders;
        }
      }
    }
  }

  /** `fetch_orders`: request the first page, then follow `next` links while there is one,
      appending each page's orders. The source loops forever on a cycle of links, so it is
      called only where the walk ends. `requested` lists the URIs requested, in order. */
  method FetchOrders(server: Server, first: Uri) returns (r: Result<seq<Order>, FetchError>, requested: seq<Uri>)
    requires !Walk(server, first, {}).outcome.Diverges?
    ensures Walk(server, first, {}) ==
      Trace(if r.Ok? then Fetched(r.value) else Failed(r.error), requested)
    ensures r.Ok? ==> r.value == PagesOrders(server, requested)
    ensures r.Ok? ==> |r.value| == PageSizes(server, requested)
  {
    requested := [first];
    var response := Request(server, first);
    if response.Err? {
      return Err(response.error), requested;
    }
    var next := response.value.next;
    var orders := response.value.orders;
    ghost var visited := {first};
    while next.Some?
      invariant Walk(server, first, {}) == Pending(server, orders, requested, next, visited)
      decreases |server.Keys - visited|
    {
      var n := next.value;
      PendingStep(server, orders, requested, n, visited);
      requested := requested + [n];
      response := Request(server, n);
      if response.Err? {
        return Err(response.error), requested;
      }
      Unvisited(server.Keys, visited, n);
      next := response.value.next;
      orders := orders + response.value.orders;
      visited := visited + {n};
    }
    r := Ok(orders);
    PagesOrdersLength(server, requested);
  }
}
