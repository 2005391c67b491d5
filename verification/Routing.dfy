/** The gateway's allowlist: which upstream service a path belongs to, if any. */
module Routing {
  import opened Common

  datatype Route = Route(prefix: string, upstream: string)

  const ALLOWLIST: seq<Route> := [
    Route("/.well-known/jwks.json", "auth_service_url"),
    Route("/api/v1/auth/register", "auth_service_url"),
    Route("/api/v1/auth/verify-email", "auth_service_url"),
    Route("/api/v1/auth/resend-verification", "auth_service_url"),
    Route("/api/v1/auth/login", "auth_service_url"),
    Route("/api/v1/auth/token", "auth_service_url"),
    Route("/api/v1/auth/refresh", "auth_service_url"),
    Route("/api/v1/auth/logout", "auth_service_url"),
    Route("/api/v1/auth/forgot-password", "auth_service_url"),
    Route("/api/v1/auth/reset-password", "auth_service_url"),
    Route("/api/v1/auth/change-password", "auth_service_url"),
    Route("/api/v1/auth/sessions", "auth_service_url"),
    Route("/api/v1/users/me", "auth_service_url"),
    Route("/api/v1/me", "user_service_url"),
    Route("/api/v1/sellers", "user_service_url"),
    Route("/api/v1/categories", "product_service_url"),
    Route("/api/v1/admin/categories", "product_service_url"),
    Route("/api/v1/products", "product_service_url"),
    Route("/api/v1/seller/products", "product_service_url"),
    Route("/api/v1/availability", "inventory_service_url"),
    Route("/api/v1/admin/warehouses", "inventory_service_url"),
    Route("/api/v1/seller/inventory", "inventory_service_url"),
    Route("/api/v1/reservations", "inventory_service_url"),
    Route("/api/v1/guest-carts", "cart_service_url"),
    Route("/api/v1/cart", "cart_service_url"),
    Route("/api/v1/orders", "order_service_url"),
    Route("/api/v1/payments", "payment_service_url"),
    Route("/api/v1/webhooks/stripe", "payment_service_url"),
    Route("/api/v1/shipments", "shipping_service_url"),
    Route("/api/v1/assistant", "assistant_service_url")
  ]

  /** The path is the prefix itself or lies below it. */
  predicate Matches(route: Route, path: string) {
    path == route.prefix || route.prefix + "/" <= path
  }

  /** What `resolve` should return: a longest matching route, the first of its length; None if none matches. */
  ghost predicate IsResolution(table: seq<Route>, path: string, r: Option<Route>) {
    match r
    case None => forall n :: 0 <= n < |table| ==> !Matches(table[n], path)
    case Some(route) =>
      exists n :: 0 <= n < |table| && table[n] == route && IsBest(table, path, n)
  }

  ghost predicate IsBest(table: seq<Route>, path: string, n: nat)
    requires n < |table|
  {
    && Matches(table[n], path)
    && (forall m :: 0 <= m < |table| && Matches(table[m], path) ==> |table[m].prefix| <= |table[n].prefix|)
    && (forall m :: 0 <= m < n && Matches(table[m], path) ==> |table[m].prefix| < |table[n].prefix|)
  }

  /** The scan of the table up to entry n. */
  function Best(table: seq<Route>, path: string, n: nat): Option<Route>
    requires n <= |table|
  {
    if n == 0 then None else
    var match_ := Best(table, path, n - 1);
    var route := table[n - 1];
    if Matches(route, path) && (match_.None? || |route.prefix| > |match_.value.prefix|) then Some(route) else match_
  }

  function ResolveIn(table: seq<Route>, path: string): Option<Route> {
    Best(table, path, |table|)
  }

  method Resolve(table: seq<Route>, path: string) returns (r: Option<Route>)
    ensures IsResolution(table, path, r)
    ensures r == ResolveIn(table, path)
  {
    r := None;
    var n := 0;
    ghost var at := 0;
    while n < |table|
      invariant n <= |table|
      invariant r == Best(table, path, n)
      invariant r.None? ==> forall m :: 0 <= m < n ==> !Matches(table[m], path)
      invariant r.Some? ==> at < n && table[at] == r.value && Matches(table[at], path)
      invariant r.Some? ==> forall m :: 0 <= m < n && Matches(table[m], path) ==> |table[m].prefix| <= |table[at].prefix|
      invariant r.Some? ==> forall m :: 0 <= m < at && Matches(table[m], path) ==> |table[m].prefix| < |table[at].prefix|
    {
      if Matches(table[n], path) && (r.None? || |table[n].prefix| > |r.value.prefix|) {
        r := Some(table[n]);
        at := n;
      }
      n := n + 1;
    }
    if r.Some? {
      assert IsBest(table, path, at);
    }
  }

  /** The answer is determined by the table: no path belongs to two services. */
  lemma ResolutionUnique(table: seq<Route>, path: string, a: Option<Route>, b: Option<Route>)
    requires IsResolution(table, path, a) && IsResolution(table, path, b)
    ensures a == b
  {
    if a.Some? && b.Some? {
      var m :| 0 <= m < |table| && table[m] == a.value && IsBest(table, path, m);
      var n :| 0 <= n < |table| && table[n] == b.value && IsBest(table, path, n);
      assert m == n;
    }
  }

  lemma {:induction false} BestIsLongest(table: seq<Route>, path: string, n: nat)
    requires n <= |table|
    ensures var r := Best(table, path, n);
            && (r.None? ==> forall m :: 0 <= m < n ==> !Matches(table[m], path))
            && (r.Some? ==> exists m :: 0 <= m < n && table[m] == r.value && Matches(table[m], path))
            && (r.Some? ==> forall m :: 0 <= m < n && Matches(table[m], path) ==> |table[m].prefix| <= |r.value.prefix|)
  {
    if n == 0 {
    } else {
      BestIsLongest(table, path, n - 1);
    }
  }

  const INTERNAL := "/api/v1/internal"

  lemma AllowlistEntry(n: nat)
    requires n < |ALLOWLIST|
    ensures |ALLOWLIST[n].prefix| > 8 && ALLOWLIST[n].prefix[8] != 'i'
  {
  }

  /** Nothing below /api/v1/internal is ever proxied. */
  lemma InternalPathsBlocked(path: string)
    requires INTERNAL <= path
    ensures ResolveIn(ALLOWLIST, path) == None
  {
    forall m | 0 <= m < |ALLOWLIST| ensures !Matches(ALLOWLIST[m], path) {
      AllowlistEntry(m);
      assert path[8] == INTERNAL[8];
    }
    BestIsLongest(ALLOWLIST, path, |ALLOWLIST|);
  }

  // ---------------------------------------------------------------- which paths are routed

  /** What may stand behind a prefix: nothing, or more of the path after a slash. */
  predicate GoesOn(rest: string) {
    rest == "" || rest[0] == '/'
  }

  predicate LiesAt(route: Route, path: string, rest: string) {
    path == route.prefix + rest && GoesOn(rest)
  }

  lemma MatchesIff(route: Route, path: string)
    ensures Matches(route, path) <==> exists rest :: LiesAt(route, path, rest)
  {
    if Matches(route, path) {
      var rest := path[|route.prefix|..];
      assert path == route.prefix + rest;
      if rest != "" {
        assert rest[0] == (route.prefix + "/")[|route.prefix|];
      }
      assert LiesAt(route, path, rest);
    }
    forall rest | LiesAt(route, path, rest) ensures Matches(route, path) {
      if rest == "" {
        assert path == route.prefix;
      } else {
        assert rest == "/" + rest[1..];
        assert path == route.prefix + "/" + rest[1..];
      }
    }
  }

  /** A path is routed exactly if it is a prefix of the table with nothing behind it, or with more of the path after a slash;
      a longer name that merely begins like a prefix is not. */
  lemma RoutedIff(table: seq<Route>, path: string)
    ensures ResolveIn(table, path).Some?
            <==> exists n, rest :: 0 <= n < |table| && LiesAt(table[n], path, rest)
  {
    BestIsLongest(table, path, |table|);
    hide Matches, Best, LiesAt;
    forall n | 0 <= n < |table| ensures Matches(table[n], path) <==> exists rest :: LiesAt(table[n], path, rest) {
      MatchesIff(table[n], path);
    }
  }

  /** Everything at or below an entry goes to its service, unless an entry with a longer prefix takes it. */
  lemma BelowIsRouted(table: seq<Route>, n: nat, rest: string)
    requires n < |table| && GoesOn(rest)
    ensures var path := table[n].prefix + rest;
            && ResolveIn(table, path).Some?
            && var route := ResolveIn(table, path).value;
               && route in table && |table[n].prefix| <= |route.prefix|
               && exists rest' :: LiesAt(route, path, rest')
  {
    var path := table[n].prefix + rest;
    assert LiesAt(table[n], path, rest);
    MatchesIff(table[n], path);
    BestIsLongest(table, path, |table|);
    var route := ResolveIn(table, path).value;
    MatchesIff(route, path);
  }
}
