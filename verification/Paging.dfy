/** Walking a paged listing (allDropletList, allLoadBalancerList, filterFirewallList). */
module Paging {
  import opened Prelude

  /** The pagination links of a response: godo derives the current page from them. */
  datatype Links = NoPages | Pages(prev: Option<Result<int>>, hasNext: bool)

  /** `links` is None when the response carries none. */
  datatype Reply<T> = Fails | NoResponse | Page(items: seq<T>, links: Option<Links>)

  predicate IsLastPage(links: Links) {
    links.NoPages? || !links.hasNext
  }

  /** Links.CurrentPage: the page before plus one, page 1 when only a next page is
      known, and 0 when neither is. */
  function CurrentPage(links: Links): Result<int> {
    match links
    case NoPages => Ok(1)
    case Pages(prev, hasNext) =>
      match prev
      case None => Ok(if hasNext then 1 else 0)
      case Some(Ok(page)) => Ok(page + 1)
      case Some(Err(e)) => Err(e)
  }

  /** The loop can go on from this reply: it is a page, and if it is not the last one
      its links say which page it is. */
  predicate Usable<T>(reply: Reply<T>) {
    reply.Page? && (reply.links.None? || IsLastPage(reply.links.value) || CurrentPage(reply.links.value).Ok?)
  }

  /** A server with pages 1..n that marks page n, and no earlier one, as the last and
      whose links, where they can be read, name the page served. */
  ghost predicate Serves<T>(server: int -> Reply<T>, n: nat) {
    n >= 1 && forall p :: 1 <= p <= n && server(p).Page? ==> Labelled(server(p).links, p, n)
  }

  predicate Labelled(links: Option<Links>, p: int, n: nat) {
    if p == n then links.None? || IsLastPage(links.value)
    else links.Some? && !IsLastPage(links.value) && (CurrentPage(links.value).Ok? ==> CurrentPage(links.value).value == p)
  }

  /** The links that the API sends: to the page before, except on the first, and to the
      next, except on the last. A server that sends these is one to walk. */
  lemma UsualLinksServe<T>(server: int -> Reply<T>, n: nat)
    requires n >= 1
    requires forall p :: 1 <= p <= n && server(p).Page? ==> server(p).links == Some(Pages(if p > 1 then Some(Ok(p - 1)) else None, p < n))
    ensures Serves(server, n) && forall p :: 1 <= p <= n && server(p).Page? ==> Usable(server(p))
  {
  }

  /** Pages p..n one after the other. */
  ghost function Concat<T>(server: int -> Reply<T>, p: int, n: int): seq<T>
    decreases n - p
  {
    if p > n then [] else (if server(p).Page? then server(p).items else []) + Concat(server, p + 1, n)
  }

  lemma ConcatNext<T>(server: int -> Reply<T>, list: seq<T>, p: int, n: int)
    requires p <= n && server(p).Page?
    ensures list + Concat(server, p, n) == (list + server(p).items) + Concat(server, p + 1, n)
  {
  }

  /** The listing loop returns every page's items in order, or fails exactly when some
      page is unusable. */
  method ListAll<T>(server: int -> Reply<T>, ghost n: nat) returns (r: Result<seq<T>>)
    requires Serves(server, n)
    ensures r.Ok? <==> forall p :: 1 <= p <= n ==> Usable(server(p))
    ensures r.Ok? ==> r.value == Concat(server, 1, n)
  {
    var list: seq<T> := [];
    var page := 1;
    while true
      invariant 1 <= page <= n
      invariant forall q :: 1 <= q < page ==> Usable(server(q))
      invariant list + Concat(server, page, n) == Concat(server, 1, n)
      decreases n - page
    {
      var reply := server(page);
      if !reply.Page? {
        return Err(Failure);
      }
      ConcatNext(server, list, page, n);
      list := list + reply.items;
      assert Labelled(reply.links, page, n);
      if reply.links.None? || IsLastPage(reply.links.value) {
        assert page == n && Concat(server, page + 1, n) == [];
        return Ok(list);
      }
      var current := CurrentPage(reply.links.value);
      if current.Err? {
        return Err(Failure);
      }
      page := current.value + 1;
    }
  }

  /** The first element of `s` that matches. */
  function FirstMatch<T>(s: seq<T>, matches: T -> bool): Option<T> {
    if s == [] then None
    else if matches(s[0]) then Some(s[0])
    else FirstMatch(s[1..], matches)
  }

  lemma {:induction false} FirstMatchIsFirst<T>(s: seq<T>, matches: T -> bool, i: nat)
    requires i < |s| && forall j :: 0 <= j < i ==> !matches(s[j])
    ensures matches(s[i]) ==> FirstMatch(s, matches) == Some(s[i])
    ensures !matches(s[i]) && i + 1 == |s| ==> FirstMatch(s, matches) == None
  {
    if i > 0 {
      assert s[1..][i - 1] == s[i];
      FirstMatchIsFirst(s[1..], matches, i - 1);
    }
  }

  lemma {:induction false} FirstMatchAppend<T>(s: seq<T>, t: seq<T>, matches: T -> bool)
    ensures FirstMatch(s + t, matches) == if FirstMatch(s, matches).Some? then FirstMatch(s, matches) else FirstMatch(t, matches)
  {
    if s == [] {
      assert s + t == t;
    } else {
      FirstMatchAppend(s[1..], t, matches);
      assert (s + t)[1..] == s[1..] + t;
    }
  }

  method FindInPage<T>(items: seq<T>, matches: T -> bool) returns (r: Option<T>)
    ensures r == FirstMatch(items, matches)
  {
    for i := 0 to |items|
      invariant FirstMatch(items, matches) == FirstMatch(items[i..], matches)
    {
      if matches(items[i]) {
        return Some(items[i]);
      }
      assert items[i..][1..] == items[i + 1..];
    }
    return None;
  }

  /** The filtering loop returns the first match of the whole listing, or nothing when
      there is none; it fails only on an unusable page that no match precedes. */
  method FindFirst<T>(server: int -> Reply<T>, matches: T -> bool, ghost n: nat)
    returns (r: Result<Option<T>>)
    requires Serves(server, n)
    ensures r.Ok? ==> r.value == FirstMatch(Concat(server, 1, n), matches)
    ensures r.Err? <==> exists p :: 1 <= p <= n && FailsAt(server, matches, p)
  {
    var page := 1;
    while true
      invariant 1 <= page <= n
      invariant forall q :: 1 <= q < page ==> Usable(server(q)) && FirstMatch(server(q).items, matches).None?
      invariant FirstMatch(Concat(server, page, n), matches) == FirstMatch(Concat(server, 1, n), matches)
      decreases n - page
    {
      var reply := server(page);
      if !reply.Page? {
        assert FailsAt(server, matches, page);
        return Err(Failure);
      }
      var found := FindInPage(reply.items, matches);
      FirstMatchAppend(reply.items, Concat(server, page + 1, n), matches);
      if found.Some? {
        return Ok(found);
      }
      assert Labelled(reply.links, page, n);
      if reply.links.None? || IsLastPage(reply.links.value) {
        assert page == n;
        return Ok(None);
      }
      var current := CurrentPage(reply.links.value);
      if current.Err? {
        assert FailsAt(server, matches, page);
        return Err(Failure);
      }
      page := current.value + 1;
    }
  }

  /** Page p is the first unusable one, and neither it nor an earlier page has a match. */
  ghost predicate FailsAt<T>(server: int -> Reply<T>, matches: T -> bool, p: int) {
    && !Usable(server(p)) && (server(p).Page? ==> FirstMatch(server(p).items, matches).None?)
    && forall q :: 1 <= q < p ==> Usable(server(q)) && FirstMatch(server(q).items, matches).None?
  }
}
