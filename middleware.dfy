/**
 * The request middleware that guards the signed-in area, and the login page's choice of where to go
 * after signing in. Both act on a URL's path and its query parameters (`URLSearchParams`).
 */
module Middleware {
  import opened Wrappers
  import opened Text
  import opened Seqs

  /** A request URL: its path and its query parameters in order (origin and fragment are carried along untouched). */
  datatype Url = Url(pathname: string, search: seq<(string, string)>)

  datatype Response = PassThrough | Redirect(to: Url)

  const PROTECTED_PREFIXES: seq<string> := ["/app"]

  /** The pairs with the given name, and the pairs with any other name. */
  function Named(name: string): ((string, string)) -> bool { (p: (string, string)) => p.0 == name }
  function NotNamed(name: string): ((string, string)) -> bool { (p: (string, string)) => p.0 != name }

  /** `searchParams.get(name)`: the value of the first pair with that name. */
  function GetParam(ps: seq<(string, string)>, name: string): (r: Option<string>)
    ensures r.None? <==> forall k :: 0 <= k < |ps| ==> ps[k].0 != name
    ensures r.Some? ==> (name, r.value) in ps
    ensures r.Some? ==> exists k :: 0 <= k < |ps| && ps[k] == (name, r.value) && forall j :: 0 <= j < k ==> ps[j].0 != name
    decreases |ps|
  {
    if ps == [] then None
    else if ps[0].0 == name then Some(ps[0].1)
    else GetParam(ps[1..], name)
  }

  /** The pairs after the first one with `name` is replaced by `(name, value)` and the later ones dropped. */
  function ReplaceFirst(ps: seq<(string, string)>, name: string, value: string): seq<(string, string)>
  {
    if ps == [] then []
    else if ps[0].0 == name then [(name, value)] + Filter(ps[1..], NotNamed(name))
    else [ps[0]] + ReplaceFirst(ps[1..], name, value)
  }

  /** `searchParams.set(name, value)`: replace the first pair with that name and drop the others, or append. */
  function SetParam(ps: seq<(string, string)>, name: string, value: string): seq<(string, string)>
  {
    if GetParam(ps, name).Some? then ReplaceFirst(ps, name, value) else ps + [(name, value)]
  }

  /** After `set`, `get` returns the new value, every other parameter reads as before, and the name occurs once. */
  lemma {:induction false} SetThenGet(ps: seq<(string, string)>, name: string, value: string, other: string)
    requires other != name
    ensures GetParam(SetParam(ps, name, value), name) == Some(value)
    ensures GetParam(SetParam(ps, name, value), other) == GetParam(ps, other)
    ensures |Filter(SetParam(ps, name, value), Named(name))| == 1
  {
    if GetParam(ps, name).Some? {
      ReplaceFirstFacts(ps, name, value, other);
    } else {
      GetAppend(ps, name, value, other);
      FilterConcat(ps, [(name, value)], Named(name));
      FilterNone(ps, Named(name));
    }
  }

  lemma {:induction false} ReplaceFirstFacts(ps: seq<(string, string)>, name: string, value: string, other: string)
    requires GetParam(ps, name).Some? && other != name
    ensures GetParam(ReplaceFirst(ps, name, value), name) == Some(value)
    ensures GetParam(ReplaceFirst(ps, name, value), other) == GetParam(ps, other)
    ensures |Filter(ReplaceFirst(ps, name, value), Named(name))| == 1
    decreases |ps|
  {
    var r := ReplaceFirst(ps, name, value);
    if ps[0].0 == name {
      var rest := Filter(ps[1..], NotNamed(name));
      assert r == [(name, value)] + rest;
      assert r[1..] == rest;
      DropKeepsOthers(ps[1..], name, other);
      FilterNeverBoth(ps[1..], NotNamed(name), Named(name));
    } else {
      ReplaceFirstFacts(ps[1..], name, value, other);
      assert r == [ps[0]] + ReplaceFirst(ps[1..], name, value);
      assert r[1..] == ReplaceFirst(ps[1..], name, value);
    }
  }

  /** Dropping every pair named `name` leaves `get` of another name unchanged. */
  lemma {:induction false} DropKeepsOthers(ps: seq<(string, string)>, name: string, other: string)
    requires other != name
    ensures GetParam(Filter(ps, NotNamed(name)), other) == GetParam(ps, other)
    decreases |ps|
  {
    if ps != [] {
      var f := Filter(ps, NotNamed(name));
      var f' := Filter(ps[1..], NotNamed(name));
      if ps[0].0 == name {
        assert f == f';
        DropKeepsOthers(ps[1..], name, other);
      } else {
        assert f == [ps[0]] + f';
        assert f[0] == ps[0] && f[1..] == f';
        if ps[0].0 != other {
          DropKeepsOthers(ps[1..], name, other);
        }
      }
    }
  }

  lemma {:induction false} GetAppend(ps: seq<(string, string)>, name: string, value: string, other: string)
    requires GetParam(ps, name).None? && other != name
    ensures GetParam(ps + [(name, value)], name) == Some(value)
    ensures GetParam(ps + [(name, value)], other) == GetParam(ps, other)
    ensures forall x :: x in ps ==> x.0 != name
    decreases |ps|
  {
    if ps == [] {
    } else {
      assert (ps + [(name, value)])[1..] == ps[1..] + [(name, value)];
      GetAppend(ps[1..], name, value, other);
    }
  }

  /** `PROTECTED_PREFIXES.some((p) => pathname.startsWith(p))` */
  predicate IsProtected(pathname: string) {
    exists k :: 0 <= k < |PROTECTED_PREFIXES| && StartsWith(pathname, PROTECTED_PREFIXES[k])
  }

  lemma ProtectedIsAppArea(pathname: string)
    ensures IsProtected(pathname) <==> StartsWith(pathname, "/app")
    ensures IsProtected(pathname) ==> pathname != "" && pathname != "/login" && pathname != "/signup"
  {
    assert "/app"[1] == 'a' && "/login"[1] == 'l' && "/signup"[1] == 's';
    if StartsWith(pathname, "/app") { assert StartsWith(pathname, PROTECTED_PREFIXES[0]); }
  }

  /** The middleware's decision for a request, once it knows whether a user is signed in. */
  function Decide(req: Url, hasUser: bool): (r: Response)
    ensures r.Redirect? ==> r.to.pathname == "/login" || r.to.pathname == "/app"
    ensures (r.Redirect? && r.to.pathname == "/login") <==> IsProtected(req.pathname) && !hasUser
    ensures r.Redirect? && r.to.pathname == "/login" ==> r.to.search == SetParam(req.search, "next", req.pathname)
    ensures (r.Redirect? && r.to.pathname == "/app")
        <==> (req.pathname == "/login" || req.pathname == "/signup") && hasUser
    ensures r.Redirect? && r.to.pathname == "/app" ==> r.to.search == req.search
  {
    if IsProtected(req.pathname) && !hasUser then
      Redirect(Url("/login", SetParam(req.search, "next", req.pathname)))
    else if (req.pathname == "/login" || req.pathname == "/signup") && hasUser then
      Redirect(Url("/app", req.search))
    else
      PassThrough
  }

  /** The login and the signed-in redirects never apply to the same request. */
  lemma RedirectsExclusive(pathname: string, hasUser: bool)
    ensures !((IsProtected(pathname) && !hasUser) && ((pathname == "/login" || pathname == "/signup") && hasUser))
    ensures !(IsProtected(pathname) && (pathname == "/login" || pathname == "/signup"))
  {
    ProtectedIsAppArea(pathname);
  }

  /** Where the login page sends the user after signing in: `searchParams.get("next") || "/app"`. */
  function LoginDestination(search: seq<(string, string)>): (r: string)
    ensures r != ""
    ensures GetParam(search, "next").Some? && GetParam(search, "next").value != "" ==> r == GetParam(search, "next").value
    ensures GetParam(search, "next").None? || GetParam(search, "next").value == "" ==> r == "/app"
  {
    match GetParam(search, "next")
    case Some(v) => if v != "" then v else "/app"
    case None => "/app"
  }

  /** The round trip: a signed-out visit to a protected page is sent to the login page, which afterwards
      sends the user back to that very page, where the middleware now lets the request through. */
  lemma {:induction false} LoginRoundTrip(req: Url, laterSearch: seq<(string, string)>)
    requires IsProtected(req.pathname)
    ensures Decide(req, false).Redirect?
    ensures LoginDestination(Decide(req, false).to.search) == req.pathname
    ensures Decide(Url(req.pathname, laterSearch), true) == PassThrough
  {
    var to := Url("/login", SetParam(req.search, "next", req.pathname));
    assert Decide(req, false) == Redirect(to);
    SetThenGet(req.search, "next", req.pathname, "");
    ProtectedIsAppArea(req.pathname);
  }

  /** Without a `next` parameter the user lands on the dashboard, which lets a signed-in user through. */
  lemma DefaultDestination(search: seq<(string, string)>)
    requires GetParam(search, "next").None?
    ensures LoginDestination(search) == "/app"
    ensures Decide(Url(LoginDestination(search), search), true) == PassThrough
  {
    ProtectedIsAppArea("/app");
  }
}
