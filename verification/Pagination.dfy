/**
 Following cursors until they run out, over a server that may answer anything: its
 cursors may run in circles or never end.
 */
module Pagination {
  import opened Collections
  import opened Results

  datatype Page<+T> = Page(items: seq<T>, next: Option<string>)

  /** A deterministic server: the page it sends for a cursor, or for none. */
  type Server<T> = Option<string> -> Page<T>

  const MAX_PAGES: nat := 1000

  /** An empty cursor counts as none. */
  predicate Continues(next: Option<string>) {
    next.Some? && next.value != ""
  }

  /** Requests that start without a cursor, follow the server, and never repeat a cursor. */
  ghost predicate IsWalk<T>(server: Server<T>, requests: seq<Option<string>>) {
    && |requests| > 0 && requests[0] == None
    && (forall i :: 0 < i < |requests| ==>
          requests[i] == server(requests[i - 1]).next && Continues(requests[i]))
    && (forall i, j :: 0 <= i < j < |requests| ==> requests[i] != requests[j])
  }

  /** The server offers nothing new after the walk. */
  ghost predicate IsExhausted<T>(server: Server<T>, requests: seq<Option<string>>)
    requires |requests| > 0
  {
    var next := server(requests[|requests| - 1]).next;
    !Continues(next) || next in requests
  }

  function Items<T>(server: Server<T>, requests: seq<Option<string>>): seq<T> {
    if requests == [] then []
    else Items(server, requests[..|requests| - 1]) + server(requests[|requests| - 1]).items
  }

  lemma WalkGrows<T>(server: Server<T>, requests: seq<Option<string>>, cursor: Option<string>)
    requires requests == [] ==> cursor == None
    requires requests != [] ==> IsWalk(server, requests) && !IsExhausted(server, requests)
    requires requests != [] ==> cursor == server(requests[|requests| - 1]).next
    ensures IsWalk(server, requests + [cursor])
    ensures Items(server, requests + [cursor]) == Items(server, requests) + server(cursor).items
  {
    var longer, n := requests + [cursor], |requests|;
    assert longer[..n] == requests;
    forall i | 0 < i < |longer| ensures longer[i] == server(longer[i - 1]).next && Continues(longer[i]) {
      assert longer[i - 1] == requests[i - 1];
      if i < n {
        assert longer[i] == requests[i];
      }
    }
    forall i, j | 0 <= i < j < |longer| ensures longer[i] != longer[j] {
      assert longer[i] == requests[i] && longer[i] in requests;
      if j < n {
        assert longer[j] == requests[j];
      }
    }
  }

  /** finished is false where the loop gives up with an error; the items were yielded before that. */
  method IteratePages<T>(server: Server<T>) returns (items: seq<T>, requests: seq<Option<string>>, finished: bool)
    ensures IsWalk(server, requests) && |requests| <= MAX_PAGES
    ensures items == Items(server, requests)
    ensures finished ==> IsExhausted(server, requests)
    ensures !finished ==> |requests| == MAX_PAGES && !IsExhausted(server, requests)
  {
    var cursor: Option<string> := None;
    var seen: set<string> := {};
    items, requests := [], [];
    for n := 0 to MAX_PAGES
      invariant |requests| == n
      invariant n == 0 ==> cursor == None && seen == {}
      invariant n > 0 ==> IsWalk(server, requests) && !IsExhausted(server, requests)
      invariant n > 0 ==> Continues(cursor) && cursor == server(requests[n - 1]).next && cursor.value in seen
      invariant forall c :: c in seen <==> Some(c) in requests || (n > 0 && Some(c) == cursor)
      invariant items == Items(server, requests)
    {
      var page := server(cursor);
      WalkGrows(server, requests, cursor);
      requests := requests + [cursor];
      items := items + page.items;
      cursor := page.next;
      if !Continues(cursor) || cursor.value in seen {
        return items, requests, true;
      }
      seen := seen + {cursor.value};
    }
    finished := false;
  }

  /** Any two walks agree as far as the shorter one goes. */
  lemma {:induction false} WalksAgree<T>(server: Server<T>, a: seq<Option<string>>, b: seq<Option<string>>, i: nat)
    requires IsWalk(server, a) && IsWalk(server, b) && i < |a| && i < |b|
    ensures a[i] == b[i]
  {
    if i > 0 {
      WalksAgree(server, a, b, i - 1);
    }
  }

  /** Of two walks the shorter is a beginning of the longer, so the server had more to offer after it. */
  lemma WalksAreNested<T>(server: Server<T>, a: seq<Option<string>>, b: seq<Option<string>>)
    requires IsWalk(server, a) && IsWalk(server, b)
    ensures |a| < |b| ==> !IsExhausted(server, a)
    ensures |a| == |b| ==> a == b
  {
    forall i | 0 <= i < |a| && i < |b| ensures a[i] == b[i] {
      WalksAgree(server, a, b, i);
    }
    if |a| < |b| {
      assert b[|a|] == server(a[|a| - 1]).next;
    }
  }

  /**
   The iteration succeeds exactly on the servers whose cursors, followed from the start,
   run out or come back within MAX_PAGES requests; what it then returns is every page on
   the way, once, in order. On all others it raises.
   */
  lemma FinishesIffWalkIsShort<T>(server: Server<T>, requests: seq<Option<string>>, finished: bool)
    requires IsWalk(server, requests) && |requests| <= MAX_PAGES
    requires finished ==> IsExhausted(server, requests)
    requires !finished ==> |requests| == MAX_PAGES && !IsExhausted(server, requests)
    ensures finished <==> exists full :: IsWalk(server, full) && IsExhausted(server, full) && |full| <= MAX_PAGES
    ensures forall full :: finished && IsWalk(server, full) && IsExhausted(server, full) ==> full == requests
  {
    forall full | IsWalk(server, full)
      ensures IsExhausted(server, full) && finished ==> full == requests
      ensures IsExhausted(server, full) && |full| <= MAX_PAGES ==> finished
    {
      WalksAreNested(server, full, requests);
      WalksAreNested(server, requests, full);
    }
  }

  /** The cursor of the request that is answered with the i-th one: none at the start. */
  function Before(chain: seq<string>, i: nat): Option<string>
    requires i <= |chain|
  {
    if i == 0 then None else Some(chain[i - 1])
  }

  predicate Link<T>(server: Server<T>, chain: seq<string>, i: nat)
    requires i < |chain|
  {
    chain[i] != "" && server(Before(chain, i)).next == Some(chain[i])
  }

  /** The server links these cursors: it offers the first at the start and each next one with the one before. */
  predicate Links<T>(server: Server<T>, chain: seq<string>) {
    && (forall i :: 0 <= i < |chain| ==> Link(server, chain, i))
    && (forall i, j :: 0 <= i < j < |chain| ==> chain[i] != chain[j])
  }

  /** The chain stops: the last page has no cursor, an empty one, or one of the chain. */
  ghost predicate Stops<T>(server: Server<T>, chain: seq<string>) {
    var next := server(Before(chain, |chain|)).next;
    next == None || next.value == "" || next.value in chain
  }

  function Requests(chain: seq<string>): seq<Option<string>> {
    seq(|chain| + 1, i requires 0 <= i <= |chain| => Before(chain, i))
  }

  lemma RequestFollows<T>(server: Server<T>, chain: seq<string>, i: nat)
    requires Links(server, chain) && 0 < i <= |chain|
    ensures var full := Requests(chain);
            full[i] == server(full[i - 1]).next && Continues(full[i])
  {
    assert Link(server, chain, i - 1);
  }

  lemma RequestsDiffer<T>(server: Server<T>, chain: seq<string>, i: nat, j: nat)
    requires Links(server, chain) && i < j <= |chain|
    ensures Requests(chain)[i] != Requests(chain)[j]
  {
    if i > 0 {
      assert chain[i - 1] != chain[j - 1];
    }
  }

  lemma ChainIsAWalk<T>(server: Server<T>, chain: seq<string>)
    requires Links(server, chain)
    ensures IsWalk(server, Requests(chain))
  {
    var full := Requests(chain);
    forall i | 0 < i < |full| ensures full[i] == server(full[i - 1]).next && Continues(full[i]) {
      RequestFollows(server, chain, i);
    }
    forall i, j | 0 <= i < j < |full| ensures full[i] != full[j] {
      RequestsDiffer(server, chain, i, j);
    }
  }

  lemma StoppedChainIsExhausted<T>(server: Server<T>, chain: seq<string>)
    requires Stops(server, chain)
    ensures IsExhausted(server, Requests(chain))
  {
    var next := server(Before(chain, |chain|)).next;
    if Continues(next) {
      var i :| 0 <= i < |chain| && chain[i] == next.value;
      assert Requests(chain)[i + 1] == next;
    }
  }

  /**
   A chain of n cursors takes n + 1 requests, and it is read to its end exactly when these
   are at most a thousand; the requests are then none and the cursors in order. A longer
   chain raises after its first thousand pages.
   */
  lemma ChainIsReadIff<T>(server: Server<T>, chain: seq<string>, requests: seq<Option<string>>, finished: bool)
    requires Links(server, chain) && Stops(server, chain)
    requires IsWalk(server, requests) && |requests| <= MAX_PAGES
    requires finished ==> IsExhausted(server, requests)
    requires !finished ==> |requests| == MAX_PAGES && !IsExhausted(server, requests)
    ensures finished <==> |chain| + 1 <= 1000
    ensures |requests| == if |chain| + 1 <= 1000 then |chain| + 1 else 1000
    ensures forall i :: 0 <= i < |requests| ==> i <= |chain| && requests[i] == Before(chain, i)
  {
    var full := Requests(chain);
    ChainIsAWalk(server, chain);
    StoppedChainIsExhausted(server, chain);
    WalksAreNested(server, full, requests);
    WalksAreNested(server, requests, full);
    forall i | 0 <= i < |requests| ensures i <= |chain| && requests[i] == Before(chain, i) {
      assert |requests| <= |full|;
      WalksAgree(server, full, requests, i);
    }
  }

  /** The cursors a walk has used. */
  function Used(requests: seq<Option<string>>): set<string> {
    set r | r in requests && r.Some? :: r.value
  }

  lemma {:induction false} WalkUsesManyCursors<T>(server: Server<T>, requests: seq<Option<string>>)
    requires IsWalk(server, requests)
    ensures |Used(requests)| == |requests| - 1
  {
    if |requests| == 1 {
      assert Used(requests) == {};
    } else {
      var before, last := requests[..|requests| - 1], requests[|requests| - 1];
      WalkUsesManyCursors(server, before);
      assert requests == before + [last];
      assert last !in before;
      assert Used(requests) == Used(before) + {last.value};
    }
  }

  /** A server with fewer than MAX_PAGES cursors is always read to the end, however they are linked. */
  lemma FewCursorsAlwaysFinish<T>(server: Server<T>, cursors: set<string>, requests: seq<Option<string>>, finished: bool)
    requires |cursors| < MAX_PAGES
    requires forall r :: Continues(server(r).next) ==> server(r).next.value in cursors
    requires IsWalk(server, requests) && |requests| <= MAX_PAGES
    requires !finished ==> |requests| == MAX_PAGES && !IsExhausted(server, requests)
    ensures finished
  {
    if !finished {
      var next := server(requests[|requests| - 1]).next;
      var longer := requests + [next];
      assert IsWalk(server, longer);
      WalkUsesManyCursors(server, longer);
      forall c | c in Used(longer) ensures c in cursors {
        var i :| 0 <= i < |longer| && longer[i] == Some(c);
        assert longer[i] == server(longer[i - 1]).next;
      }
      SubsetSize(Used(longer), cursors);
    }
  }
}
