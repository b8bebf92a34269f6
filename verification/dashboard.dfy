/**
  The dashboard's request gate and the arithmetic of its call list.

  The gate decides, from the path and whether the `voix-auth` cookie is
  present, whether a request goes through or is redirected. The call list
  reads `page` and `limit` from the query, skips the earlier pages and
  reports the page count next to the total.
 */
module Dashboard {
  import D = Dialog

  // ---------------------------------------------------------------------
  // The request gate
  // ---------------------------------------------------------------------

  const LoginPath: string := "/login"
  const CallsPath: string := "/calls"
  const WebhookPath: string := "/api/webhook"

  datatype Decision = Pass | Redirect(to: string)

  /** Framework files and the icon, by path prefix. */
  predicate IsStatic(path: string) {
    "/_next" <= path || "/favicon" <= path
  }

  /** The paths the gate is installed on: all but the framework's static and image files and the icon. */
  predicate Matched(path: string) {
    !("/_next/static" <= path || "/_next/image" <= path || "/favicon.ico" <= path)
  }

  /** The paths that need no cookie. */
  predicate Public(path: string) {
    IsStatic(path) || path == WebhookPath
  }

  /**
    The gate: static files first, then the webhook, then a request without the
    cookie goes to the login page and one with it is sent from the login page
    to the call list. A redirect never points at the requested path.
   */
  function Middleware(path: string, hasCookie: bool): (d: Decision)
    ensures d.Redirect? ==> d.to != path
    ensures d.Redirect? ==> d.to == (if hasCookie then CallsPath else LoginPath)
  {
    if IsStatic(path) then Pass
    else if path == WebhookPath then Pass
    else if !hasCookie && path != LoginPath then Redirect(LoginPath)
    else if hasCookie && path == LoginPath then Redirect(CallsPath)
    else Pass
  }

  /** A request as the framework routes it: the gate runs only on matched paths. */
  function Handle(path: string, hasCookie: bool): (d: Decision)
  {
    if Matched(path) then Middleware(path, hasCookie) else Pass
  }

  /** Static paths pass whatever the cookie, and the webhook passes without one. */
  lemma PublicPathsPass(path: string, hasCookie: bool)
    requires Public(path)
    ensures Middleware(path, hasCookie) == Pass
  {
  }

  /**
    The whole decision in one statement: a request goes to the login page
    exactly when it is not public, has no cookie and is not already there; it
    goes to the call list exactly when it has the cookie and asks for the
    login page; otherwise it passes.
   */
  lemma GateDecision(path: string, hasCookie: bool)
    ensures Middleware(path, hasCookie) == Redirect(LoginPath) <==> !Public(path) && !hasCookie && path != LoginPath
    ensures Middleware(path, hasCookie) == Redirect(CallsPath) <==> hasCookie && path == LoginPath
    ensures Middleware(path, hasCookie) == Pass
            <==> Public(path) || (hasCookie && path != LoginPath) || (!hasCookie && path == LoginPath)
  {
    // Neither redirect target is public: they differ from every public prefix at the second character.
    assert LoginPath[1] == 'l' && CallsPath[1] == 'c' && "/_next"[1] == '_' && "/favicon"[1] == 'f';
  }

  /** Following a redirect with the same cookie state passes: there is never a second hop. */
  lemma RedirectSettles(path: string, hasCookie: bool)
    requires Middleware(path, hasCookie).Redirect?
    ensures Middleware(Middleware(path, hasCookie).to, hasCookie) == Pass
  {
    // Neither redirect target is public: they differ from every public prefix at the second character.
    assert LoginPath[1] == 'l' && CallsPath[1] == 'c' && "/_next"[1] == '_' && "/favicon"[1] == 'f';
  }

  /** The paths the matcher leaves out would all pass the gate anyway, so routing agrees with the gate everywhere. */
  lemma MatcherAgrees(path: string, hasCookie: bool)
    ensures !Matched(path) ==> IsStatic(path)
    ensures Handle(path, hasCookie) == Middleware(path, hasCookie)
  {
    if "/_next/static" <= path {
      assert path[..6] == "/_next/static"[..6];
    } else if "/_next/image" <= path {
      assert path[..6] == "/_next/image"[..6];
    } else if "/favicon.ico" <= path {
      assert path[..8] == "/favicon.ico"[..8];
    }
  }

  // ---------------------------------------------------------------------
  // The call list
  // ---------------------------------------------------------------------

  const DefaultPage: int := 1
  const DefaultLimit: int := 20

  /**
    The query's `page` and `limit`, already read as numbers; `None` is a
    missing or empty parameter.
   */
  datatype Query = Query(page: D.Option<int>, limit: D.Option<int>)

  function PageOf(q: Query): (n: int)
  {
    if q.page.Some? then q.page.value else DefaultPage
  }

  function LimitOf(q: Query): (n: int)
  {
    if q.limit.Some? then q.limit.value else DefaultLimit
  }

  /** The numbers the list works with: a positive page and a positive page size. */
  predicate QueryOk(q: Query) {
    PageOf(q) >= 1 && LimitOf(q) > 0
  }

  /** Missing parameters give the first page of twenty. */
  lemma Defaults(q: Query)
    requires q.page.None? && q.limit.None?
    ensures PageOf(q) == 1 && LimitOf(q) == 20 && QueryOk(q)
  {
  }

  /** The rows before the requested page: page `page` is the block ending at `page * limit`. */
  function Skip(page: int, limit: int): (k: nat)
    requires page >= 1 && limit > 0
    ensures k + limit == page * limit
    ensures k == 0 <==> page == 1
  {
    (page - 1) * limit
  }

  /** `Math.ceil(total / limit)` on whole numbers. */
  function CeilDiv(total: nat, limit: int): (n: nat)
    requires limit > 0
    ensures n * limit >= total
    ensures total > 0 ==> (n - 1) * limit < total
    ensures total == 0 ==> n == 0
  {
    var q := (total + limit - 1) / limit;
    var r := (total + limit - 1) % limit;
    assert total + limit - 1 == q * limit + r && 0 <= r < limit;
    assert (q - 1) * limit == q * limit - limit;
    q
  }

  lemma MulMono(a: int, b: int, limit: int)
    requires a <= b && limit > 0
    ensures a * limit <= b * limit
  {
    assert b * limit - a * limit == (b - a) * limit;
  }

  /** The page count is the least number of pages of `limit` rows that hold `total` rows. */
  lemma CeilDivLeast(total: nat, limit: int, m: nat)
    requires limit > 0 && m * limit >= total
    ensures CeilDiv(total, limit) <= m
  {
    var n := CeilDiv(total, limit);
    if m < n {
      MulMono(m, n - 1, limit);
    }
  }

  datatype Pagination = Pagination(page: int, limit: int, total: nat, totalPages: nat)

  /** The pagination block: the request's page and size and the total, echoed, and the page count. */
  function Paginate(q: Query, total: nat): (p: Pagination)
    requires QueryOk(q)
    ensures p.page == PageOf(q) && p.limit == LimitOf(q) && p.total == total
    ensures p.totalPages * p.limit >= total
    ensures total > 0 ==> (p.totalPages - 1) * p.limit < total
    ensures total == 0 ==> p.totalPages == 0
  {
    Pagination(PageOf(q), LimitOf(q), total, CeilDiv(total, LimitOf(q)))
  }

  /** At most `take` rows starting at row `skip`; nothing when `skip` is past the end. */
  function Window<T>(rows: seq<T>, skip: nat, take: nat): (w: seq<T>)
    ensures |w| == if skip >= |rows| then 0 else if skip + take <= |rows| then take else |rows| - skip
    ensures forall i :: 0 <= i < |w| ==> w[i] == rows[skip + i]
  {
    if skip >= |rows| then []
    else if skip + take <= |rows| then rows[skip..skip + take]
    else rows[skip..]
  }

  datatype Response<T> = Listed(calls: seq<T>, pagination: Pagination) | Failed(status: nat, error: string)

  /**
    The call-list endpoint over the stored calls, newest first (`None` when
    the store fails): one page of them with the pagination block, or a 500
    with a fixed message.
   */
  function ListCalls<T>(q: Query, store: D.Option<seq<T>>): (r: Response<T>)
    requires QueryOk(q)
    ensures r.Failed? <==> store.None?
    ensures r.Failed? ==> r.status == 500 && r.error == "Failed to get calls"
    ensures r.Listed? ==>
      var rows := store.value;
      var skip := Skip(PageOf(q), LimitOf(q));
      r.pagination.total == |rows| && r.pagination.page == PageOf(q) && r.pagination.limit == LimitOf(q)
      && |r.calls| <= LimitOf(q) && (|r.calls| == 0 <==> skip >= |rows|)
      && (forall i :: 0 <= i < |r.calls| ==> skip + i < |rows| && r.calls[i] == rows[skip + i])
      && |r.calls| == (if skip >= |rows| then 0 else if skip + LimitOf(q) <= |rows| then LimitOf(q) else |rows| - skip)
  {
    if store.None? then Failed(500, "Failed to get calls")
    else
      var rows := store.value;
      var skip := Skip(PageOf(q), LimitOf(q));
      Listed(Window(rows, skip, LimitOf(q)), Paginate(q, |rows|))
  }

  /** Row `i` lies on page `i / limit + 1`, and that page is one of the reported pages. */
  lemma RowPage(total: nat, limit: int, i: nat)
    requires limit > 0 && i < total
    ensures var p := i / limit + 1;
      1 <= p <= CeilDiv(total, limit) && Skip(p, limit) <= i < Skip(p, limit) + limit
  {
    var p := i / limit + 1;
    assert i == (i / limit) * limit + i % limit;
    var n := CeilDiv(total, limit);
    if n < p {
      MulMono(n, p - 1, limit);
    }
  }

  /** No other page holds row `i`: pages are disjoint blocks. */
  lemma RowPageUnique(limit: int, i: nat, page: int)
    requires limit > 0 && page >= 1
    requires Skip(page, limit) <= i < Skip(page, limit) + limit
    ensures page == i / limit + 1
  {
    var p := i / limit + 1;
    assert i == (i / limit) * limit + i % limit;
    if page < p {
      MulMono(page, p - 1, limit);
    } else if page > p {
      MulMono(p, page - 1, limit);
    }
  }

  /**
    Every stored row is on exactly one page, and that page is one of the
    reported pages: row `i` is on page `i / limit + 1`, and on no other.
   */
  lemma RowOnOnePage(total: nat, limit: int, i: nat, page: int)
    requires limit > 0 && i < total && page >= 1
    ensures var p := i / limit + 1;
      1 <= p <= CeilDiv(total, limit) && Skip(p, limit) <= i < Skip(p, limit) + limit
    ensures Skip(page, limit) <= i < Skip(page, limit) + limit ==> page == i / limit + 1
  {
    RowPage(total, limit, i);
    if Skip(page, limit) <= i < Skip(page, limit) + limit {
      RowPageUnique(limit, i, page);
    }
  }

  /** A page past the last reported one is empty. */
  lemma PastLastPageEmpty<T>(rows: seq<T>, limit: int, page: int)
    requires limit > 0 && page > CeilDiv(|rows|, limit)
    ensures Window(rows, Skip(page, limit), limit) == []
  {
    MulMono(CeilDiv(|rows|, limit), page - 1, limit);
  }
}
