/** The budgeted recursive file listing (contexthydrate.go, listAllFiles).
    A directory is what the tree endpoint answers for it; a failed fetch has no entries. */
module Listing {

  datatype Fetch = Failed | Listed(entries: seq<Entry>)

  datatype Entry = File(path: string) | Dir(path: string, content: Fetch)

  /** The plain depth-first listing. */
  function Walk(f: Fetch): seq<string>
    decreases f
  {
    if f.Failed? then [] else WalkAll(f.entries)
  }

  function WalkAll(es: seq<Entry>): seq<string>
    decreases es
  {
    if es == [] then []
    else WalkAll(es[..|es| - 1]) + WalkEntry(es[|es| - 1])
  }

  function WalkEntry(e: Entry): seq<string>
    decreases e
  {
    match e
    case File(path) => [path]
    case Dir(_, content) => Walk(content)
  }

  function Take(s: seq<string>, n: int): seq<string> {
    if n <= 0 then [] else if n < |s| then s[..n] else s
  }

  lemma {:induction false} TakePrefix(a: seq<string>, b: seq<string>, n: int)
    requires a <= b && |a| >= n
    ensures Take(b, n) == Take(a, n)
  {
    if 0 < n { assert b[..n] == a[..n]; }
  }

  lemma {:induction false} WalkGrows(es: seq<Entry>, i: nat)
    requires i <= |es|
    ensures WalkAll(es[..i]) <= WalkAll(es)
    decreases |es| - i
  {
    if i == |es| {
      assert es[..i] == es;
    } else {
      WalkGrows(es, i + 1);
      assert es[..i + 1][..i] == es[..i];
    }
  }

  // ---- what is listed ------------------------------------------------------

  /** The way to a file: the position to take in each directory. */
  type Route = seq<nat>

  ghost predicate FileAt(f: Fetch, route: Route, path: string)
    decreases |route|
  {
    && f.Listed? && route != [] && route[0] < |f.entries|
    && match f.entries[route[0]]
       case File(p) => |route| == 1 && p == path
       case Dir(_, content) => FileAt(content, route[1..], path)
  }

  /** Where the routes part, `r` takes the earlier entry. */
  ghost predicate Precedes(r: Route, s: Route)
    decreases |r|
  {
    r != [] && s != [] && (r[0] < s[0] || (r[0] == s[0] && Precedes(r[1..], s[1..])))
  }

  /** A route to a file is among `routes`. */
  ghost predicate Covers(f: Fetch, routes: seq<Route>, r: Route) {
    (exists p :: FileAt(f, r, p)) ==> r in routes
  }

  /** `paths` are the files of the tree, each once for every way to it, in the order of entries. */
  ghost predicate Enumerates(f: Fetch, routes: seq<Route>, paths: seq<string>) {
    && |routes| == |paths|
    && (forall i :: 0 <= i < |routes| ==> FileAt(f, routes[i], paths[i]))
    && (forall i, j :: 0 <= i < j < |routes| ==> Precedes(routes[i], routes[j]))
    && (forall r :: Covers(f, routes, r))
  }

  ghost predicate CoversTo(es: seq<Entry>, n: nat, routes: seq<Route>, r: Route) {
    (exists p :: FileAt(Listed(es), r, p)) && r[0] < n ==> r in routes
  }

  /** A route that starts at entry `n` goes on along one of `inner`. */
  ghost predicate GoesOn(es: seq<Entry>, n: nat, inner: seq<Route>, r: Route) {
    (exists p :: FileAt(Listed(es), r, p)) && r[0] == n ==> r[1..] in inner
  }

  /** The same for the first `n` entries. */
  ghost predicate EnumeratesTo(es: seq<Entry>, n: nat, routes: seq<Route>, paths: seq<string>) {
    && |routes| == |paths|
    && (forall i :: 0 <= i < |routes| ==> FileAt(Listed(es), routes[i], paths[i]) && routes[i][0] < n)
    && (forall i, j :: 0 <= i < j < |routes| ==> Precedes(routes[i], routes[j]))
    && (forall r :: CoversTo(es, n, routes, r))
  }

  function Through(n: nat, routes: seq<Route>): (r: seq<Route>)
    ensures |r| == |routes| && forall i :: 0 <= i < |r| ==> r[i] == [n] + routes[i]
  {
    seq(|routes|, i requires 0 <= i < |routes| => [n] + routes[i])
  }

  lemma {:induction false} ThroughPrecedes(n: nat, r: Route, s: Route)
    requires Precedes(r, s)
    ensures Precedes([n] + r, [n] + s)
  {
    assert ([n] + r)[1..] == r && ([n] + s)[1..] == s;
  }

  /** One entry more, given the routes within it. */
  lemma {:induction false} OneEntryMore(es: seq<Entry>, n: nat, routes: seq<Route>, paths: seq<string>,
                                        inner: seq<Route>, found: seq<string>)
    requires n < |es| && EnumeratesTo(es, n, routes, paths) && |inner| == |found|
    requires forall i :: 0 <= i < |inner| ==> FileAt(Listed(es), [n] + inner[i], found[i])
    requires forall i, j :: 0 <= i < j < |inner| ==> Precedes([n] + inner[i], [n] + inner[j])
    requires forall r :: GoesOn(es, n, inner, r)
    ensures EnumeratesTo(es, n + 1, routes + Through(n, inner), paths + found)
  {
    var more, all := Through(n, inner), routes + Through(n, inner);
    forall i, j | 0 <= i < j < |all| ensures Precedes(all[i], all[j]) {
      if i < |routes| <= j { assert all[i] == routes[i]; }
    }
    var above := n + 1;
    forall r ensures CoversTo(es, above, all, r) {
      assert CoversTo(es, n, routes, r) && GoesOn(es, n, inner, r);
      if (exists p :: FileAt(Listed(es), r, p)) && r[0] == n {
        var i :| 0 <= i < |inner| && inner[i] == r[1..];
        assert r == [n] + r[1..] && more[i] == r && all[|routes| + i] == r;
      }
    }
    forall i | 0 <= i < |all| ensures FileAt(Listed(es), all[i], (paths + found)[i]) && all[i][0] < n + 1 {
      if i >= |routes| { assert all[i] == more[i - |routes|]; }
    }
  }

  lemma {:induction false} DirEntry(es: seq<Entry>, n: nat, content: Fetch, r: Route, p: string)
    requires n < |es| && es[n].Dir? && es[n].content == content
    ensures FileAt(Listed(es), [n] + r, p) <==> FileAt(content, r, p)
  {
    assert ([n] + r)[1..] == r;
  }

  lemma {:induction false} WalkAllEnumerates(es: seq<Entry>, n: nat, paths: seq<string>) returns (routes: seq<Route>)
    requires n <= |es| && paths == WalkAll(es[..n])
    ensures EnumeratesTo(es, n, routes, paths)
    decreases es, n
  {
    routes := [];
    if n == 0 {
      assert es[..0] == [] && WalkAll([]) == [];
    } else {
      assert es[..n][..n - 1] == es[..n - 1];
      var earlier := WalkAllEnumerates(es, n - 1, WalkAll(es[..n - 1]));
      var inner: seq<Route> := [[]];
      var last := n - 1;
      assert WalkAll(es[..n]) == WalkAll(es[..last]) + WalkEntry(es[last]);
      match es[n - 1] {
        case File(path) =>
          assert [n - 1] + [] == [n - 1];
          forall r ensures GoesOn(es, last, inner, r) {
            if (exists p :: FileAt(Listed(es), r, p)) && r[0] == n - 1 { assert r[1..] == inner[0]; }
          }
        case Dir(_, content) =>
          inner := WalkEnumerates(content);
          forall i | 0 <= i < |inner| ensures FileAt(Listed(es), [n - 1] + inner[i], Walk(content)[i]) {
            DirEntry(es, n - 1, content, inner[i], Walk(content)[i]);
          }
          forall i, j | 0 <= i < j < |inner| ensures Precedes([n - 1] + inner[i], [n - 1] + inner[j]) {
            ThroughPrecedes(n - 1, inner[i], inner[j]);
          }
          forall r ensures GoesOn(es, last, inner, r) {
            if (exists p :: FileAt(Listed(es), r, p)) && r[0] == n - 1 {
              var p :| FileAt(Listed(es), r, p);
              assert FileAt(content, r[1..], p) && Covers(content, inner, r[1..]);
            }
          }
      }
      OneEntryMore(es, n - 1, earlier, WalkAll(es[..n - 1]), inner, WalkEntry(es[n - 1]));
      routes := earlier + Through(n - 1, inner);
    }
  }

  /** The plain listing is such an enumeration. */
  lemma {:induction false} WalkEnumerates(f: Fetch) returns (routes: seq<Route>)
    ensures Enumerates(f, routes, Walk(f))
    decreases f
  {
    routes := [];
    if f.Listed? {
      assert f.entries[..|f.entries|] == f.entries && Listed(f.entries) == f;
      routes := WalkAllEnumerates(f.entries, |f.entries|, Walk(f));
    }
    forall r ensures Covers(f, routes, r) {
      assert f.Listed? ==> CoversTo(f.entries, |f.entries|, routes, r);
    }
  }

  /** There is only one enumeration. */
  lemma {:induction false} OneEnumeration(f: Fetch, routes: seq<Route>, paths: seq<string>, routes': seq<Route>,
                                          paths': seq<string>)
    requires Enumerates(f, routes, paths) && Enumerates(f, routes', paths')
    ensures routes == routes' && paths == paths'
  {
    SamePrefix(f, routes, paths, routes', paths', |routes|);
    SamePrefix(f, routes', paths', routes, paths, |routes'|);
    forall i | 0 <= i < |routes| ensures paths[i] == paths'[i] { OnePath(f, routes[i], paths[i], paths'[i]); }
  }

  lemma {:induction false} OnePath(f: Fetch, r: Route, p: string, p': string)
    requires FileAt(f, r, p) && FileAt(f, r, p')
    ensures p == p'
    decreases |r|
  {
    if |r| > 1 { OnePath(f.entries[r[0]].content, r[1..], p, p'); }
  }

  lemma {:induction false} NotBoth(r: Route, s: Route)
    requires Precedes(r, s)
    ensures !Precedes(s, r) && r != s
    decreases |r|
  {
    if r[0] == s[0] { NotBoth(r[1..], s[1..]); }
  }

  lemma {:induction false} SamePrefix(f: Fetch, routes: seq<Route>, paths: seq<string>, routes': seq<Route>,
                                      paths': seq<string>, n: nat)
    requires Enumerates(f, routes, paths) && Enumerates(f, routes', paths') && n <= |routes|
    ensures n <= |routes'| && routes[..n] == routes'[..n]
  {
    if n > 0 {
      var i := n - 1;
      SamePrefix(f, routes, paths, routes', paths', i);
      assert FileAt(f, routes[i], paths[i]) && Covers(f, routes', routes[i]);
      var j := Position(routes, routes', routes[i], i);
      assert FileAt(f, routes'[i], paths'[i]) && Covers(f, routes, routes'[i]);
      var k := Position(routes', routes, routes'[i], i);
      assert k > i ==> Precedes(routes[i], routes'[i]);
      if j > i { NotBoth(routes'[i], routes[i]); }
      assert routes[..n] == routes[..i] + [routes[i]] && routes'[..n] == routes'[..i] + [routes'[i]];
    }
  }

  /** Where a route that comes after a common beginning stands in the other enumeration. */
  lemma {:induction false} Position(routes: seq<Route>, routes': seq<Route>, r: Route, i: nat) returns (j: nat)
    requires i < |routes| && routes[i] == r && r in routes' && i <= |routes'| && routes[..i] == routes'[..i]
    requires forall m, n :: 0 <= m < n < |routes| ==> Precedes(routes[m], routes[n])
    ensures i <= j < |routes'| && routes'[j] == r
  {
    j :| 0 <= j < |routes'| && routes'[j] == r;
    if j < i {
      assert routes[j] == routes[..i][j] == routes'[..i][j] == r;
      NotBoth(routes[j], routes[i]);
    }
  }

  /** Some file of the tree has the path. */
  ghost predicate IsFile(f: Fetch, path: string) {
    exists r :: FileAt(f, r, path)
  }

  /** With enough budget a path is listed exactly when some file of the tree has it. */
  lemma {:induction false} ListedExactly(f: Fetch, routes: seq<Route>, paths: seq<string>, path: string)
    requires Enumerates(f, routes, paths)
    ensures path in paths <==> IsFile(f, path)
  {
    if path in paths {
      var i :| 0 <= i < |paths| && paths[i] == path;
      assert FileAt(f, routes[i], path);
    } else {
      forall r ensures !FileAt(f, r, path) {
        if FileAt(f, r, path) {
          assert Covers(f, routes, r);
          var i :| 0 <= i < |routes| && routes[i] == r;
          OnePath(f, r, path, paths[i]);
        }
      }
    }
  }

  /** How many files there are in a tree. */
  function Files(f: Fetch): nat
    decreases f
  {
    if f.Failed? then 0 else FilesIn(f.entries)
  }

  function FilesIn(es: seq<Entry>): nat
    decreases es
  {
    if es == [] then 0
    else
      FilesIn(es[..|es| - 1]) + match es[|es| - 1] case File(_) => 1 case Dir(_, content) => Files(content)
  }

  lemma {:induction false} WalkAllCounts(es: seq<Entry>)
    ensures |WalkAll(es)| == FilesIn(es)
    decreases es
  {
    if es != [] {
      var last := es[|es| - 1];
      WalkAllCounts(es[..|es| - 1]);
      if last.Dir? { WalkCounts(last.content); }
    }
  }

  lemma {:induction false} WalkCounts(f: Fetch)
    ensures |Walk(f)| == Files(f)
    decreases f
  {
    if f.Listed? { WalkAllCounts(f.entries); }
  }

  /** The listing under a budget is the beginning of the files in their order, as many as the
      budget allows; directories are neither listed nor counted. */
  method ListAllFiles(content: Fetch, maxFiles: int) returns (paths: seq<string>)
    ensures exists routes, all :: Enumerates(content, routes, all)
              && paths == if maxFiles <= 0 then [] else if maxFiles < |all| then all[..maxFiles] else all
    ensures |paths| == if maxFiles <= 0 then 0 else if maxFiles < Files(content) then maxFiles else Files(content)
  {
    paths := ListUpTo(content, maxFiles);
    ghost var routes := WalkEnumerates(content);
    WalkCounts(content);
    assert Enumerates(content, routes, Walk(content));
  }

  method ListUpTo(content: Fetch, maxFiles: int) returns (paths: seq<string>)
    ensures paths == Take(Walk(content), maxFiles)
    decreases content
  {
    paths := [];
    if content.Failed? {
      return;
    }
    var entries := content.entries;
    for i := 0 to |entries|
      invariant paths == Take(WalkAll(entries[..i]), maxFiles)
    {
      WalkGrows(entries, i);
      if |paths| >= maxFiles {
        TakePrefix(WalkAll(entries[..i]), WalkAll(entries), maxFiles);
        return;
      }
      assert entries[..i + 1][..i] == entries[..i];
      match entries[i]
      case File(path) =>
        paths := paths + [path];
      case Dir(_, sub) =>
        var inner := ListUpTo(sub, maxFiles - |paths|);
        paths := paths + inner;
    }
    assert entries[..|entries|] == entries;
  }
}
