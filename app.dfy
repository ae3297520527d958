/** The application shell (App.tsx): the session check that runs whenever
    the path changes, the redirect it makes, the spinner shown until the
    first check has settled, and the four routes. */
module App {
  import opened Values
  import opened JsText

  /** The page a route renders; `NoMatch` when no route matches. */
  datatype Page = Welcome | Login | Register | HomePage | NoMatch

  /** The paths a signed-out visitor may stay on. */
  predicate IsPublic(path: string) {
    path == "/" || path == "/login" || path == "/register"
  }

  /** Where the session check sends the visitor, given whether
      `getProfile` succeeded: a signed-in visitor on a public page goes
      home, a signed-out visitor anywhere else goes to the welcome page,
      and nobody else moves. */
  function Redirect(path: string, signedIn: bool): (r: Option<string>)
    ensures signedIn ==> (r.Some? <==> IsPublic(path)) && (r.Some? ==> r.value == "/home")
    ensures !signedIn ==> (r.Some? <==> !IsPublic(path)) && (r.Some? ==> r.value == "/")
  {
    if signedIn then
      if IsPublic(path) then Some("/home") else None
    else
      if !IsPublic(path) then Some("/") else None
  }

  /** The four route patterns, lower-case and without a trailing slash. */
  predicate IsPattern(pattern: string) {
    pattern == "/" || pattern == "/login" || pattern == "/register" || pattern == "/home"
  }

  predicate AllSlashes(s: string) {
    forall i | 0 <= i < |s| :: s[i] == '/'
  }

  /** How a `<Route path=...>` without `caseSensitive` matches the whole
      location: the pattern, compared with ASCII letters case-folded,
      followed by any number of slashes. */
  predicate MatchesPattern(path: string, pattern: string) {
    |pattern| <= |path|
    && ToUpperAscii(path[..|pattern|]) == ToUpperAscii(pattern)
    && AllSlashes(path[|pattern|..])
  }

  /** A path equal to the pattern matches it. */
  lemma PatternMatchesItself(pattern: string)
    ensures MatchesPattern(pattern, pattern)
  {
    assert pattern[..|pattern|] == pattern;
  }

  /** No path matches two of the patterns: the route table is unambiguous.
      The patterns differ in length, and where the shorter one ends the
      longer one has a letter, not a slash. */
  lemma PatternsDisjoint(path: string, p: string, q: string)
    requires IsPattern(p) && IsPattern(q) && p != q
    requires MatchesPattern(path, p)
    ensures !MatchesPattern(path, q)
  {
    if |q| <= |path| {
      if |p| < |q| {
        assert path[|p|..][0] == '/';
        assert 'a' <= q[|p|] <= 'z';
        assert ToUpperAscii(path[..|q|])[|p|] != ToUpperAscii(q)[|p|];
      } else {
        assert 'a' <= p[|q|] <= 'z';
        assert ToUpperAscii(path[..|p|])[|q|] == ToUpperAscii(p)[|q|];
        assert path[|q|..][0] == path[..|p|][|q|];
      }
    }
  }

  /** The `<Routes>` table: the page whose pattern the path matches. */
  function Route(path: string): (p: Page)
    ensures p == Welcome <==> MatchesPattern(path, "/")
    ensures p == Login <==> MatchesPattern(path, "/login")
    ensures p == Register <==> MatchesPattern(path, "/register")
    ensures p == HomePage <==> MatchesPattern(path, "/home")
  {
    PatternsDisjointAt(path);
    if MatchesPattern(path, "/") then Welcome
    else if MatchesPattern(path, "/login") then Login
    else if MatchesPattern(path, "/register") then Register
    else if MatchesPattern(path, "/home") then HomePage
    else NoMatch
  }

  lemma PatternsDisjointAt(path: string)
    ensures MatchesPattern(path, "/login") || MatchesPattern(path, "/register") || MatchesPattern(path, "/home")
            ==> !MatchesPattern(path, "/")
    ensures MatchesPattern(path, "/register") || MatchesPattern(path, "/home") ==> !MatchesPattern(path, "/login")
    ensures MatchesPattern(path, "/home") ==> !MatchesPattern(path, "/register")
  {
    if MatchesPattern(path, "/login") {
      PatternsDisjoint(path, "/login", "/");
    }
    if MatchesPattern(path, "/register") {
      PatternsDisjoint(path, "/register", "/");
      PatternsDisjoint(path, "/register", "/login");
    }
    if MatchesPattern(path, "/home") {
      PatternsDisjoint(path, "/home", "/");
      PatternsDisjoint(path, "/home", "/login");
      PatternsDisjoint(path, "/home", "/register");
    }
  }

  /** Each of the paths the session check compares against renders its own
      page; in particular every public path renders a public page. */
  lemma ExactPathsRoute(path: string)
    ensures path == "/" ==> Route(path) == Welcome
    ensures path == "/login" ==> Route(path) == Login
    ensures path == "/register" ==> Route(path) == Register
    ensures path == "/home" ==> Route(path) == HomePage
  {
    PatternMatchesItself(path);
  }

  /** The session check compares paths exactly while the routes do not: a
      signed-in visitor at "/login/" (or "/LOGIN") is not redirected, and
      the login form is rendered. */
  lemma SignedInStaysOnLoginVariant()
    ensures Redirect("/login/", true) == None && Route("/login/") == Login
    ensures Redirect("/LOGIN", true) == None && Route("/LOGIN") == Login
  {
    assert "/login/"[..6] == "/login";
    assert "/login/"[6..] == "/";
    assert ToUpperAscii("/LOGIN") == ToUpperAscii("/login");
    assert "/LOGIN"[..6] == "/LOGIN";
  }

  /** The path the visitor is on once the check has settled. */
  function Landing(path: string, signedIn: bool): string {
    var r := Redirect(path, signedIn);
    if r.Some? then r.value else path
  }

  /** After the check, a signed-in visitor is never on a public page and a
      signed-out visitor always is; a redirect always leads to a page some
      route renders. */
  lemma LandingIsConsistent(path: string, signedIn: bool)
    ensures signedIn ==> !IsPublic(Landing(path, signedIn))
    ensures !signedIn ==> IsPublic(Landing(path, signedIn))
    ensures Redirect(path, signedIn).Some? ==> Route(Redirect(path, signedIn).value) != NoMatch
  {
    if Redirect(path, signedIn).Some? {
      ExactPathsRoute(Redirect(path, signedIn).value);
    }
  }

  /** The check that reruns on the new path with the same answer does not
      move the visitor again: the redirects cannot loop. */
  lemma RedirectSettles(path: string, signedIn: bool)
    ensures Redirect(Landing(path, signedIn), signedIn) == None
  {
    LandingIsConsistent(path, signedIn);
  }

  class AppShell {
    /** True until the first session check has settled; never set again. */
    var loading: bool
    var pathname: string
    /** The paths passed to `navigate`, oldest first. */
    var navigations: seq<string>

    constructor(pathname: string)
      ensures loading && this.pathname == pathname && navigations == []
    {
      loading := true;
      this.pathname := pathname;
      navigations := [];
    }

    /** What the shell renders: the spinner (`None`) while loading, else
        the route for the current path. */
    function View(): (r: Option<Page>)
      reads this
      ensures r.None? <==> loading
      ensures r.Some? ==> r.value == Route(pathname)
    {
      if loading then None else Some(Route(pathname))
    }

    /** `checkSession` once `getProfile` has settled: the redirect, if
        any, is made (and becomes the location), and loading ends. */
    method SessionChecked(signedIn: bool)
      modifies this
      ensures !loading
      ensures pathname == Landing(old(pathname), signedIn)
      ensures navigations == old(navigations) + (if Redirect(old(pathname), signedIn).Some? then [Redirect(old(pathname), signedIn).value] else [])
    {
      if signedIn {
        if pathname == "/" || pathname == "/login" || pathname == "/register" {
          navigations := navigations + ["/home"];
          pathname := "/home";
        }
      } else {
        if pathname != "/" && pathname != "/login" && pathname != "/register" {
          navigations := navigations + ["/"];
          pathname := "/";
        }
      }
      loading := false;
    }
  }

  /** The first load: the check runs, redirects at most once, and reruns on
      the new path without moving again. A signed-out visitor then sees a
      public page; a signed-in one is never left on one of the three public
      paths as the check spells them (but see `SignedInStaysOnLoginVariant`). */
  method FirstLoad(pathname: string, signedIn: bool) returns (shell: AppShell)
    ensures !shell.loading && |shell.navigations| <= 1
    ensures shell.pathname == Landing(pathname, signedIn)
    ensures signedIn ==> !IsPublic(shell.pathname)
    ensures !signedIn ==> shell.View() != Some(NoMatch) && shell.View() != Some(HomePage)
  {
    shell := new AppShell(pathname);
    shell.SessionChecked(signedIn);
    var moved := shell.navigations;
    RedirectSettles(pathname, signedIn);
    shell.SessionChecked(signedIn);
    assert shell.navigations == moved;
    LandingIsConsistent(pathname, signedIn);
    ExactPathsRoute(shell.pathname);
  }
}
