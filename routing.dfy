/**
  The application shell: the route is read from the location hash and picks
  the page to render. Listening for hash changes re-runs the same reading.
*/
module Routing {

  import opened Wrappers
  import opened Js

  datatype Page = SignInScreen | SignUpScreen

  /** `hash.replace('#', '') || '/signin'`: only the first `#` is removed, and an empty result means sign-in. */
  function RouteFromHash(hash: string): (route: string)
    ensures route != ""
    ensures |route| <= |hash| || route == "/signin"
  {
    var stripped := RemoveFirst(hash, '#');
    RemoveFirstSpec(hash, '#');
    if stripped == "" then "/signin" else stripped
  }

  /** Any route starting with `/signup` shows the sign-up page; every other route the sign-in page. */
  function SelectPage(route: string): Page {
    if StartsWith(route, "/signup") then SignUpScreen else SignInScreen
  }

  /** The page the application renders for a location hash. */
  function PageForHash(hash: string): Page {
    SelectPage(RouteFromHash(hash))
  }

  /** The route is the hash without its first `#`, unless that leaves nothing. */
  lemma RouteStripsFirstHash(hash: string)
    ensures IndexOf(hash, '#').None? && hash != "" ==> RouteFromHash(hash) == hash
    ensures forall i :: IndexOf(hash, '#') == Some(i) && |hash| > 1 ==>
      RouteFromHash(hash) == hash[..i] + hash[i + 1..]
    ensures hash == "" || hash == "#" ==> RouteFromHash(hash) == "/signin"
  {
    RemoveFirstSpec(hash, '#');
  }

  /** A second `#` is kept: `#/signup#x` routes to `/signup#x`, which still shows the sign-up page. */
  lemma SecondHashKept()
    ensures RouteFromHash("#/signup#x") == "/signup#x"
    ensures PageForHash("#/signup#x") == SignUpScreen
  {
    RemoveFirstSpec("#/signup#x", '#');
    assert IndexOf("#/signup#x", '#') == Some(0);
    assert "#/signup#x"[1..] == "/signup#x";
    assert "/signup#x"[..|"/signup"|] == "/signup";
  }

  /** The two links of the pages lead where they say, and an empty hash to sign-in. */
  lemma KnownHashes()
    ensures PageForHash("#/signup") == SignUpScreen
    ensures PageForHash("#/signin") == SignInScreen
    ensures PageForHash("") == SignInScreen
  {
    RemoveFirstSpec("#/signup", '#');
    assert IndexOf("#/signup", '#') == Some(0);
    assert "#/signup"[1..] == "/signup";
    RemoveFirstSpec("#/signin", '#');
    assert IndexOf("#/signin", '#') == Some(0);
    assert "#/signin"[1..] == "/signin";
    assert "/signin"[5] != "/signup"[5];
  }

  /** The sign-up page is shown exactly for routes that begin with `/signup`, e.g. `/signup/extra` too. */
  lemma SignUpPrefix(route: string)
    ensures SelectPage(route) == SignUpScreen <==> |route| >= 7 && route[..7] == "/signup"
  {
  }
}
