/** The scratch directory the Garmin fetchers download TCX files into, and the
    wipe both of them run before and after a fetch: POSIX path joining and
    normalisation, the guard that refuses any directory whose normalised last
    component is not `.fitcache`, and the wipe itself over a directory map. */
module ScratchDir {

  import opened Text

  const CacheDirName := ".fitcache"

  /** `os.path.join(a, b)` on POSIX. */
  function JoinPath(a: string, b: string): string {
    if StartsWith(b, "/") then b
    else if a == "" || a[|a| - 1] == '/' then a + b
    else a + "/" + b
  }

  /** The `/` that `os.path.normpath` keeps at the front: two exactly when the
      path starts with exactly two, otherwise one when it is absolute. */
  function LeadingSlashes(p: string): nat {
    if StartsWith(p, "//") && !StartsWith(p, "///") then 2
    else if StartsWith(p, "/") then 1
    else 0
  }

  function Slashes(n: nat): (s: string)
    ensures |s| == n && forall k :: 0 <= k < n ==> s[k] == '/'
  {
    if n == 0 then "" else Slashes(n - 1) + "/"
  }

  /** One step of `normpath` over a path component: empty and `.` components
      vanish, `..` removes the previous component unless there is none to remove
      (then it stays in a relative path and vanishes in an absolute one). */
  function NormStep(acc: seq<string>, comp: string, rooted: bool): seq<string> {
    if comp == "" || comp == "." then acc
    else if comp != ".." || (!rooted && acc == []) || (acc != [] && acc[|acc| - 1] == "..") then
      acc + [comp]
    else if acc != [] then acc[..|acc| - 1]
    else acc
  }

  /** `normpath`'s loop over all components, left to right. */
  function NormComponents(comps: seq<string>, rooted: bool): (r: seq<string>)
    ensures forall i :: 0 <= i < |r| ==> r[i] in comps
  {
    if comps == [] then []
    else NormStep(NormComponents(comps[..|comps| - 1], rooted), comps[|comps| - 1], rooted)
  }

  /** The normalised components of a path. */
  function PathComponents(p: string): seq<string> {
    NormComponents(SplitOn(p, '/'), LeadingSlashes(p) > 0)
  }

  /** `os.path.normpath(p)` on POSIX. */
  function NormPath(p: string): string {
    if p == "" then "."
    else
      var r := Slashes(LeadingSlashes(p)) + Join(PathComponents(p), "/");
      if r == "" then "." else r
  }

  /** `os.path.basename(p)`: everything after the last `/`. */
  function Basename(p: string): (r: string)
    ensures '/' !in r
  {
    if p == [] || p[|p| - 1] == '/' then [] else Basename(p[..|p| - 1]) + [p[|p| - 1]]
  }

  /** The guard of the wipe: a non-empty path whose normalised base name is
      `.fitcache`. */
  predicate MayWipe(p: string) {
    p != "" && Basename(NormPath(p)) == CacheDirName
  }

  /** `d` is the directory `child` or lies below it. */
  predicate Below(d: string, child: string) {
    d == child || StartsWith(d, child + "/")
  }

  /** The directory map after the entries `gone` of directory `path` are
      removed, each with every directory below it (`unlink` of a file leaves
      the map's keys alone, `shutil.rmtree` of a directory drops its subtree). */
  function RemoveEntries(dirs: map<string, set<string>>, path: string, gone: set<string>)
    : (r: map<string, set<string>>)
    requires path in dirs
    ensures path in r && r[path] == dirs[path] - gone
    ensures forall d :: d != path ==>
      (d in r <==> d in dirs && forall e :: e in gone ==> !Below(d, JoinPath(path, e)))
    ensures forall d :: d in r && d != path ==> r[d] == dirs[d]
  {
    map d | d in dirs && (d == path || forall e :: e in gone ==> !Below(d, JoinPath(path, e)))
      :: if d == path then dirs[path] - gone else dirs[d]
  }

  /** The entries of `path` that a wipe removes: those whose removal does not
      fail. */
  function Removable(dirs: map<string, set<string>>, stuck: set<(string, string)>, path: string)
    : set<string>
    requires path in dirs
  {
    set e | e in dirs[path] && (path, e) !in stuck
  }

  /** Directory `d` lies below an entry of `path` that the wipe removes. */
  predicate RemovedBy(dirs: map<string, set<string>>, stuck: set<(string, string)>, path: string, d: string) {
    path in dirs && exists e :: e in dirs[path] && (path, e) !in stuck && Below(d, JoinPath(path, e))
  }

  /** What the wipe does to the directory map: nothing when the guard refuses;
      creates the directory empty when it does not exist; otherwise removes
      every entry of it, with everything below, except those whose removal
      fails. */
  function WipeEffect(dirs: map<string, set<string>>, stuck: set<(string, string)>, path: string)
    : (r: map<string, set<string>>)
    ensures !MayWipe(path) ==> r == dirs
    ensures MayWipe(path) ==> path in r && r[path] <= (if path in dirs then dirs[path] else {})
    ensures MayWipe(path) ==> forall e :: e in r[path] <==> path in dirs && e in dirs[path] && (path, e) in stuck
    ensures MayWipe(path) ==> forall d :: d != path ==> (d in r <==> d in dirs && !RemovedBy(dirs, stuck, path, d))
    ensures forall d :: d in r && d != path ==> d in dirs && r[d] == dirs[d]
  {
    if !MayWipe(path) then dirs
    else if path !in dirs then dirs[path := {}]
    else RemoveEntries(dirs, path, Removable(dirs, stuck, path))
  }

  /** The file system as the wipe sees it: directories by path, each with the
      names of its entries. */
  class ScratchFs {

    var dirs: map<string, set<string>>

    /** Entries whose removal fails; the wipe logs each and goes on. */
    const stuck: set<(string, string)>

    constructor(initial: map<string, set<string>>, failing: set<(string, string)>)
      ensures dirs == initial && stuck == failing
    {
      dirs := initial;
      stuck := failing;
    }

    /** Delete every entry of the scratch directory, one entry at a time in
        listing order, but only when the guard allows it; a missing directory
        is created instead. */
    method Wipe(path: string)
      modifies this
      ensures dirs == WipeEffect(old(dirs), stuck, path)
    {
      if path == "" {
        return;
      }
      if Basename(NormPath(path)) != CacheDirName {
        return;
      }
      if path !in dirs {
        dirs := dirs[path := {}];
        return;
      }
      ghost var before := dirs;
      var pending := dirs[path];
      RemoveNothing(before, path);
      assert Removable(before, stuck, path) - pending == {};
      while pending != {}
        invariant pending <= before[path]
        invariant dirs == RemoveEntries(before, path, Removable(before, stuck, path) - pending)
        decreases pending
      {
        var entry :| entry in pending;
        ghost var gone := Removable(before, stuck, path) - pending;
        if (path, entry) !in stuck {
          var entryPath := JoinPath(path, entry);
          dirs := map d | d in dirs && (d == path || !Below(d, entryPath))
                    :: if d == path then dirs[path] - {entry} else dirs[d];
          RemoveEntriesStep(before, path, gone, entry);
          assert Removable(before, stuck, path) - (pending - {entry}) == gone + {entry};
        } else {
          assert Removable(before, stuck, path) - (pending - {entry}) == gone;
        }
        pending := pending - {entry};
      }
      assert Removable(before, stuck, path) - pending == Removable(before, stuck, path);
    }
  }

  // ----- lemmas -----

  /** Removing one more entry from a partly wiped directory is removing it with
      the others at once. */
  lemma RemoveEntriesStep(dirs: map<string, set<string>>, path: string, gone: set<string>, x: string)
    requires path in dirs
    ensures var m := RemoveEntries(dirs, path, gone);
      (map d | d in m && (d == path || !Below(d, JoinPath(path, x)))
         :: if d == path then m[path] - {x} else m[d])
      == RemoveEntries(dirs, path, gone + {x})
  {
    var m := RemoveEntries(dirs, path, gone);
    var l := map d | d in m && (d == path || !Below(d, JoinPath(path, x)))
               :: if d == path then m[path] - {x} else m[d];
    var r := RemoveEntries(dirs, path, gone + {x});
    forall d | d != path
      ensures d in l <==> d in r
    {
      if d in dirs && (forall e :: e in gone ==> !Below(d, JoinPath(path, e))) && !Below(d, JoinPath(path, x)) {
        assert forall e :: e in gone + {x} ==> !Below(d, JoinPath(path, e));
      }
    }
    assert l.Keys == r.Keys;
    assert l[path] == r[path];
    assert forall d :: d in l ==> l[d] == r[d];
  }

  /** Removing no entry changes nothing. */
  lemma RemoveNothing(dirs: map<string, set<string>>, path: string)
    requires path in dirs
    ensures RemoveEntries(dirs, path, {}) == dirs
  {
    var r := RemoveEntries(dirs, path, {});
    assert r.Keys == dirs.Keys;
    assert forall d :: d in r ==> r[d] == dirs[d];
  }

  /** Wiping twice is wiping once. */
  lemma WipeIdempotent(dirs: map<string, set<string>>, stuck: set<(string, string)>, path: string)
    ensures WipeEffect(WipeEffect(dirs, stuck, path), stuck, path) == WipeEffect(dirs, stuck, path)
  {
    var once := WipeEffect(dirs, stuck, path);
    if MayWipe(path) {
      assert Removable(once, stuck, path) == {};
      RemoveNothing(once, path);
    }
  }

  /** A subdirectory of the scratch directory is removed with everything in
      it, as `shutil.rmtree` does, and the scratch directory stays, empty. */
  lemma WipeRemovesSubtree(root: string, sub: string, inner: set<string>)
    requires sub != "" && '/' !in sub
    ensures var p := JoinPath(root, CacheDirName);
      WipeEffect(map[p := {sub}, p + "/" + sub := inner], {}, p) == map[p := {}]
  {
    var p := JoinPath(root, CacheDirName);
    CacheDirMayBeWiped(root);
    CacheDirLastChar(root);
    JoinPlainName(p, sub);
    SubtreeGone(p, sub, inner);
  }

  /** Joining a plain name to a path that does not end in `/` puts one `/`
      between them. */
  lemma JoinPlainName(p: string, sub: string)
    requires p != "" && p[|p| - 1] != '/'
    requires sub != "" && '/' !in sub
    ensures JoinPath(p, sub) == p + "/" + sub
  {
    assert sub[0] != '/';
  }

  lemma SubtreeGone(p: string, sub: string, inner: set<string>)
    requires MayWipe(p) && JoinPath(p, sub) == p + "/" + sub
    ensures WipeEffect(map[p := {sub}, p + "/" + sub := inner], {}, p) == map[p := {}]
  {
    var dirs := map[p := {sub}, p + "/" + sub := inner];
    var child := p + "/" + sub;
    assert Below(child, JoinPath(p, sub));
    assert RemovedBy(dirs, {}, p, child);
    var r := WipeEffect(dirs, {}, p);
    assert child != p by {
      assert |child| > |p|;
    }
    assert r[p] == {};
    assert r.Keys == {p};
  }

  /** The cache directory joined to any root ends with the last letter of its
      name, never with `/`. */
  lemma CacheDirLastChar(root: string)
    ensures var p := JoinPath(root, CacheDirName); p != "" && p[|p| - 1] == 'e'
  {
    CacheDirNamePlain();
    var p := JoinPath(root, CacheDirName);
    if root == "" || root[|root| - 1] == '/' {
      assert p == root + CacheDirName;
    } else {
      assert p == root + "/" + CacheDirName;
    }
    assert p[|p| - 1] == CacheDirName[|CacheDirName| - 1];
  }

  /** The scratch directory the fetchers use, `.fitcache` inside any cache root,
      always passes the guard. */
  lemma CacheDirMayBeWiped(root: string)
    ensures MayWipe(JoinPath(root, CacheDirName))
  {
    var p := JoinPath(root, CacheDirName);
    var parts := SplitOn(p, '/');
    assert parts[|parts| - 1] == CacheDirName by {
      CacheDirLastPart(root);
    }
    var init := parts[..|parts| - 1];
    assert init + [CacheDirName] == parts;
    assert PathComponents(p) == NormComponents(init, LeadingSlashes(p) > 0) + [CacheDirName];
    MayWipeByComponents(p);
  }

  /** The cache directory's name is a single relative component. */
  lemma CacheDirNamePlain()
    ensures '/' !in CacheDirName && !StartsWith(CacheDirName, "/")
  {
    assert CacheDirName[0] == '.';
    assert CacheDirName == ".fit" + "cache";
  }

  /** The last `/`-separated part of a path joined with the cache directory is
      the cache directory. */
  lemma CacheDirLastPart(root: string)
    ensures var parts := SplitOn(JoinPath(root, CacheDirName), '/');
      parts[|parts| - 1] == CacheDirName
  {
    var p := JoinPath(root, CacheDirName);
    var fit := CacheDirName;
    CacheDirNamePlain();
    SplitOnNone(fit, '/');
    if root == "" {
      assert p == fit;
    } else if root[|root| - 1] == '/' {
      var a := root[..|root| - 1];
      assert p == a + ['/'] + fit by {
        assert root == a + ['/'];
      }
      SplitOnSnoc(a, '/', fit);
      var parts := SplitOn(a, '/') + [fit];
      assert parts[|parts| - 1] == fit;
    } else {
      assert p == root + ['/'] + fit;
      SplitOnSnoc(root, '/', fit);
      var parts := SplitOn(root, '/') + [fit];
      assert parts[|parts| - 1] == fit;
    }
  }

  /** The guard in terms of components: a path may be wiped exactly when it is
      not empty and its last normalised component is `.fitcache`. */
  lemma MayWipeByComponents(p: string)
    requires p != ""
    ensures MayWipe(p) <==> PathComponents(p) != [] && PathComponents(p)[|PathComponents(p)| - 1] == CacheDirName
  {
    var comps := PathComponents(p);
    var prefix := Slashes(LeadingSlashes(p));
    NormComponentsClean(SplitOn(p, '/'), LeadingSlashes(p) > 0);
    if comps == [] {
      assert prefix + Join(comps, "/") == prefix;
      if prefix != "" {
        assert Basename(prefix) == [];
      } else {
        assert NormPath(p) == ".";
        assert Basename(".") == Basename("") + ".";
      }
    } else {
      BasenameOfJoin(prefix, comps);
    }
  }

  /** Normalised components are never empty and hold no `/`. */
  lemma {:induction false} NormComponentsClean(comps: seq<string>, rooted: bool)
    requires forall i :: 0 <= i < |comps| ==> '/' !in comps[i]
    ensures forall i :: 0 <= i < |NormComponents(comps, rooted)| ==>
      NormComponents(comps, rooted)[i] != "" && '/' !in NormComponents(comps, rooted)[i]
  {
    if comps != [] {
      var init := comps[..|comps| - 1];
      assert forall i :: 0 <= i < |init| ==> init[i] == comps[i];
      NormComponentsClean(init, rooted);
    }
  }

  /** The base name of slashes followed by components joined with `/` is the last
      component. */
  lemma {:induction false} BasenameOfJoin(prefix: string, comps: seq<string>)
    requires forall k :: 0 <= k < |prefix| ==> prefix[k] == '/'
    requires |comps| >= 1
    requires forall i :: 0 <= i < |comps| ==> comps[i] != "" && '/' !in comps[i]
    ensures Basename(prefix + Join(comps, "/")) == comps[|comps| - 1]
  {
    var last := comps[|comps| - 1];
    if |comps| == 1 {
      BasenameAfterSlash(prefix, last);
    } else {
      var init := comps[..|comps| - 1];
      JoinSnoc(comps, "/");
      assert prefix + Join(comps, "/") == (prefix + Join(init, "/") + "/") + last;
      BasenameAfterSlash(prefix + Join(init, "/") + "/", last);
    }
  }

  /** Text after a `/` (or at the start) that holds no `/` is the base name. */
  lemma {:induction false} BasenameAfterSlash(x: string, w: string)
    requires x == [] || x[|x| - 1] == '/'
    requires '/' !in w
    ensures Basename(x + w) == w
    decreases |w|
  {
    if w != [] {
      var init := w[..|w| - 1];
      assert (x + w)[..|x + w| - 1] == x + init;
      BasenameAfterSlash(x, init);
      assert init + [w[|w| - 1]] == w;
    }
  }

  /** The guard refuses the empty path and the root. */
  lemma GuardRefusesRoot()
    ensures !MayWipe("")
    ensures !MayWipe("/")
  {
    SplitOnNone("", '/');
    SplitOnCons("", '/', "");
    assert "/" == "" + ['/'] + "";
    assert SplitOn("/", '/') == ["", ""];
    assert SplitOn("/", '/')[..1] == [""];
    assert [""][..0] == [];
    assert NormComponents([""], true) == [];
    assert NormComponents(["", ""], true) == NormComponents([""], true);
    assert PathComponents("/") == [];
    MayWipeByComponents("/");
  }

  /** The guard refuses a directory with another name. */
  lemma GuardRefusesOtherName()
    ensures !MayWipe("/tmp")
  {
    SplitOnNone("", '/');
    SplitOnNone("tmp", '/');
    SplitOnCons("", '/', "tmp");
    assert "/tmp" == "" + ['/'] + "tmp";
    assert SplitOn("/tmp", '/') == ["", "tmp"];
    assert SplitOn("/tmp", '/')[..1] == [""];
    assert [""][..0] == [];
    assert PathComponents("/tmp") == ["tmp"];
    MayWipeByComponents("/tmp");
  }

  /** A trailing slash does not change what the guard decides. */
  lemma TrailingSlashIgnored(p: string)
    requires p != ""
    ensures MayWipe(p + "/") <==> MayWipe(p)
  {
    ComponentsTrailingSlash(p);
    MayWipeByComponents(p);
    MayWipeByComponents(p + "/");
  }

  lemma ComponentsTrailingSlash(p: string)
    requires p != ""
    ensures PathComponents(p + "/") == PathComponents(p)
  {
    var parts := SplitOn(p, '/');
    var rooted := LeadingSlashes(p) > 0;
    SplitTrailingSlash(p);
    RootedTrailingSlash(p);
    assert (LeadingSlashes(p + "/") > 0) == rooted;
    NormEmptyLast(parts, rooted);
    calc {
      PathComponents(p + "/");
      NormComponents(parts + [""], rooted);
      NormComponents(parts, rooted);
    }
  }

  lemma SplitTrailingSlash(p: string)
    ensures SplitOn(p + "/", '/') == SplitOn(p, '/') + [""]
  {
    SplitOnNone("", '/');
    SplitOnSnoc(p, '/', "");
    assert p + "/" == p + ['/'] + "";
  }

  lemma RootedTrailingSlash(p: string)
    requires p != ""
    ensures LeadingSlashes(p + "/") > 0 <==> LeadingSlashes(p) > 0
  {
    assert (p + "/")[..1] == p[..1];
  }

  /** A final empty component vanishes. */
  lemma NormEmptyLast(parts: seq<string>, rooted: bool)
    ensures NormComponents(parts + [""], rooted) == NormComponents(parts, rooted)
  {
    assert (parts + [""])[..|parts|] == parts;
  }

  /** The guard refuses the parent of a cache directory reached with `..`. */
  lemma ParentRefused(dir: string)
    requires '/' !in dir && dir != "" && dir != "." && dir != ".." && dir != CacheDirName
    ensures !MayWipe("/" + dir + "/" + CacheDirName + "/..")
  {
    var p := "/" + dir + "/" + CacheDirName + "/..";
    ParentSplit(dir, CacheDirName);
    NormParent(dir, CacheDirName, LeadingSlashes(p) > 0);
    assert PathComponents(p) == [dir];
    MayWipeByComponents(p);
  }

  lemma ParentSplit(a: string, b: string)
    requires '/' !in a && '/' !in b
    ensures SplitOn("/" + a + "/" + b + "/..", '/') == ["", a, b, ".."]
  {
    var p1 := "/" + a;
    var p2 := p1 + "/" + b;
    assert SplitOn(p1, '/') == ["", a] by {
      SplitOnNone("", '/');
      assert p1 == "" + ['/'] + a;
      SplitOnSnoc("", '/', a);
    }
    assert SplitOn(p2, '/') == ["", a, b] by {
      assert p2 == p1 + ['/'] + b;
      SplitOnSnoc(p1, '/', b);
    }
    assert SplitOn(p2 + "/..", '/') == SplitOn(p2, '/') + [".."] by {
      assert p2 + "/.." == p2 + ['/'] + "..";
      SplitOnSnoc(p2, '/', "..");
    }
  }

  lemma NormParent(a: string, b: string, rooted: bool)
    requires a != "" && a != "." && a != ".." && b != "" && b != "." && b != ".."
    ensures NormComponents(["", a, b, ".."], rooted) == [a]
  {
    var parts := ["", a, b, ".."];
    assert parts[..3][..2][..1] == [""] && parts[..3][..2] == ["", a] && parts[..3] == ["", a, b];
    assert [""][..0] == [];
    assert NormComponents([""], rooted) == [];
    assert NormComponents(["", a], rooted) == [a];
    assert NormComponents(["", a, b], rooted) == [a, b];
  }
}
