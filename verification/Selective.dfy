/** The stored list of excluded folders, reduced to what is needed. */
module Selective {
  import opened Text

  type Path = string

  /* ---- cleaning an entry ---- */

  /** The characters str.strip() removes. */
  predicate IsSpace(c: char) {
    c in " \t\n\r\U{0B}\U{0C}\U{1C}\U{1D}\U{1E}\U{1F}\U{85}\U{A0}\U{1680}\U{2028}\U{2029}\U{202F}\U{205F}\U{3000}"
    || '\U{2000}' <= c <= '\U{200A}'
  }

  /** By code point: the separators and line ends of ASCII and Latin-1, and the spaces of
      the other blocks. */
  lemma SpacesExactly(c: char)
    ensures IsSpace(c) <==>
              var n := c as int;
              || 9 <= n <= 13 || 28 <= n <= 32 || n in {133, 160, 5760}
              || 8192 <= n <= 8202 || n in {8232, 8233, 8239, 8287, 12288}
  {
  }

  predicate IsSlash(c: char) {
    c == '/'
  }

  function Strip(s: string, drop: char -> bool): (r: string)
    ensures r == "" || (!drop(r[0]) && !drop(r[|r| - 1]))
    ensures |r| <= |s|
    ensures r == s <==> s == "" || (!drop(s[0]) && !drop(s[|s| - 1]))
  {
    if s == "" then ""
    else if drop(s[0]) then Strip(s[1..], drop)
    else if drop(s[|s| - 1]) then Strip(s[..|s| - 1], drop)
    else s
  }

  /** Outer whitespace off, then outer slashes off. */
  function Cleaned(raw: string): (r: Path)
    ensures |r| <= |raw|
    ensures r == "" || (r[0] != '/' && r[|r| - 1] != '/')
  {
    Strip(Strip(raw, IsSpace), IsSlash)
  }

  /* ---- the anchored rule ---- */

  /** The entry names the path or a folder above it. */
  predicate Covers(entry: Path, p: Path) {
    p == entry || entry + "/" <= p
  }

  ghost predicate Excludes(entries: set<Path>, p: Path) {
    exists e :: e in entries && Covers(e, p)
  }

  /** How a stored list is applied: every entry is cleaned again, empty ones are skipped. */
  ghost predicate StoredExcludes(raw: set<string>, p: Path) {
    exists e :: e in raw && Cleaned(e) != "" && Covers(Cleaned(e), p)
  }

  lemma CoversIsTransitive(a: Path, b: Path, c: Path)
    requires Covers(a, b) && Covers(b, c)
    ensures Covers(a, c)
  {
    if b != a && c != b {
      assert c[..|b|] == b;
      assert (a + "/") <= b;
    }
  }

  lemma CoversBothWays(a: Path, b: Path)
    requires Covers(a, b) && Covers(b, a)
    ensures a == b
  {
  }

  /* ---- the reduction ---- */

  function CleanedSet(raw: set<string>): set<Path> {
    set e | e in raw && Cleaned(e) != "" :: Cleaned(e)
  }

  /** An entry no other entry covers. */
  ghost predicate IsTop(entries: set<Path>, p: Path) {
    p in entries && forall e :: e in entries && Covers(e, p) ==> e == p
  }

  function Inserted(q: seq<Path>, x: Path): (r: seq<Path>)
    ensures forall y :: y in r <==> y in q || y == x
  {
    if q == [] then [x] else if AtMost(x, q[0]) then [x] + q else [q[0]] + Inserted(q[1..], x)
  }

  lemma {:induction false} InsertedAscends(q: seq<Path>, x: Path)
    requires Ascending(q) && x !in q
    ensures Ascending(Inserted(q, x))
  {
    if q != [] {
      AtMostIsTotalOrder(x, q[0], x);
      if AtMost(x, q[0]) {
        forall k | 0 <= k < |q| ensures AtMost(x, q[k]) {
          AtMostIsTotalOrder(x, q[0], q[k]);
        }
      } else {
        InsertedAscends(q[1..], x);
        var rest := Inserted(q[1..], x);
        forall k | 0 <= k < |rest| ensures AtMost(q[0], rest[k]) && q[0] != rest[k] {
          assert rest[k] in q[1..] || rest[k] == x;
        }
      }
    }
  }

  method SortPaths(paths: set<Path>) returns (q: seq<Path>)
    ensures Ascending(q) && forall p :: p in q <==> p in paths
  {
    q := [];
    var todo := paths;
    while todo != {}
      invariant todo <= paths && Ascending(q) && forall p :: p in q <==> p in paths && p !in todo
      decreases todo
    {
      var p :| p in todo;
      InsertedAscends(q, p);
      q := Inserted(q, p);
      todo := todo - {p};
    }
  }

  lemma {:induction false} TopCovers(entries: set<Path>, p: Path) returns (top: Path)
    requires p in entries
    ensures IsTop(entries, top) && Covers(top, p)
    decreases |p|
  {
    if IsTop(entries, p) {
      top := p;
    } else {
      var e :| e in entries && Covers(e, p) && e != p;
      top := TopCovers(entries, e);
      CoversIsTransitive(top, e, p);
    }
  }

  lemma AncestorIsEarlier(q: seq<Path>, i: nat, a: Path)
    requires Ascending(q) && i < |q| && a in q && Covers(a, q[i]) && a != q[i]
    ensures a in q[..i]
  {
    var k :| 0 <= k < |q| && q[k] == a;
    assert a <= q[i] by {
      assert a <= a + "/" && (a + "/") <= q[i];
    }
    PrefixIsAtMost(a, q[i]);
    if k >= i {
      AtMostIsTotalOrder(a, q[i], a);
    }
  }

  /** Looking at the kept entries is enough to know whether an entry is a top one. */
  lemma KeptDecides(entries: set<Path>, q: seq<Path>, i: nat, kept: seq<Path>)
    requires Ascending(q) && i < |q| && forall p :: p in q <==> p in entries
    requires forall p :: p in kept <==> p in q[..i] && IsTop(entries, p)
    ensures (exists k :: k in kept && Covers(k, q[i])) <==> !IsTop(entries, q[i])
    ensures forall k :: 0 <= k < |kept| ==> AtMost(kept[k], q[i]) && kept[k] != q[i]
  {
    forall k | k in kept ensures AtMost(k, q[i]) && k != q[i] {
      assert k in q[..i];
      var j :| 0 <= j < i && q[j] == k;
    }
    assert q[i] in q;
    if !IsTop(entries, q[i]) {
      var top := TopCovers(entries, q[i]);
      AncestorIsEarlier(q, i, top);
      assert top in kept;
    }
  }

  /** One pass over the sorted list, keeping what no kept entry covers: exactly the top
      entries, in order. A folder sorts before everything below it. */
  method MinimizeExcluded(raw: set<string>) returns (result: seq<Path>)
    ensures forall p :: p in result <==> IsTop(CleanedSet(raw), p)
    ensures Ascending(result)
  {
    hide Covers, Cleaned, AtMost, CleanedSet;
    var cleaned := SortPaths(CleanedSet(raw));
    result := [];
    for i := 0 to |cleaned|
      invariant forall p :: p in result <==> p in cleaned[..i] && IsTop(CleanedSet(raw), p)
      invariant Ascending(result)
    {
      var path := cleaned[i];
      KeptDecides(CleanedSet(raw), cleaned, i, result);
      if !exists kept :: kept in result && Covers(kept, path) {
        result := result + [path];
      }
      assert cleaned[..i + 1] == cleaned[..i] + [path];
    }
    assert cleaned[..|cleaned|] == cleaned;
  }

  /* ---- what the reduction keeps ---- */

  ghost predicate IsMinimized(raw: set<string>, kept: set<Path>) {
    forall p :: p in kept <==> IsTop(CleanedSet(raw), p)
  }

  lemma StoredAsCleaned(raw: set<string>, p: Path)
    ensures StoredExcludes(raw, p) <==> Excludes(CleanedSet(raw), p)
  {
    if StoredExcludes(raw, p) {
      var e :| e in raw && Cleaned(e) != "" && Covers(Cleaned(e), p);
      assert Cleaned(e) in CleanedSet(raw);
    }
  }

  /** The kept entries exclude exactly what the given ones do; none of them covers
      another; and without any one of them some path is no longer excluded. */
  lemma MinimizedIsEquivalent(raw: set<string>, kept: set<Path>)
    requires IsMinimized(raw, kept)
    ensures forall p :: Excludes(kept, p) <==> StoredExcludes(raw, p)
    ensures forall a, b :: a in kept && b in kept && Covers(a, b) ==> a == b
    ensures forall m :: m in kept ==> Excludes(kept, m) && !Excludes(kept - {m}, m)
  {
    forall p ensures Excludes(kept, p) <==> StoredExcludes(raw, p) {
      StoredAsCleaned(raw, p);
      if Excludes(CleanedSet(raw), p) {
        var e :| e in CleanedSet(raw) && Covers(e, p);
        var top := TopCovers(CleanedSet(raw), e);
        CoversIsTransitive(top, e, p);
        assert top in kept;
      }
    }
    forall m | m in kept ensures Excludes(kept, m) && !Excludes(kept - {m}, m) {
      assert Covers(m, m);
    }
  }

  /* ---- applying the stored list cleans it again ---- */

  /** A kept entry survives being cleaned again exactly when it has no outer whitespace. */
  lemma StableExactly(raw: string)
    requires Cleaned(raw) != ""
    ensures var m := Cleaned(raw); Cleaned(m) == m <==> !IsSpace(m[0]) && !IsSpace(m[|m| - 1])
  {
    hide Strip, IsSpace, IsSlash;
    var m := Cleaned(raw);
    var inner := Strip(m, IsSpace);
    if inner == m {
      StripIsIdempotent(Strip(raw, IsSpace), IsSlash);
    } else {
      CleanedIsShorter(m);
      StripShortens(m, IsSpace);
    }
  }

  lemma StripIsIdempotent(s: string, drop: char -> bool)
    ensures Strip(Strip(s, drop), drop) == Strip(s, drop)
  {
  }

  lemma CleanedIsShorter(m: Path)
    ensures Cleaned(m) != m ==> |Cleaned(m)| < |m|
  {
    StripShortens(m, IsSpace);
    StripShortens(Strip(m, IsSpace), IsSlash);
  }

  lemma {:induction false} StripShortens(s: string, drop: char -> bool)
    ensures Strip(s, drop) != s ==> |Strip(s, drop)| < |s|
  {
  }

  ghost function Longest(kept: set<Path>): (n: nat)
    ensures forall m :: m in kept ==> |m| <= n
  {
    if kept == {} then 0 else
      var m :| m in kept;
      var n := Longest(kept - {m});
      if |m| > n then |m| else n
  }

  /** What an equally excluding stored list turns into a kept entry is longer or equal. */
  lemma SourceOf(raw: set<string>, kept: set<Path>, m: Path) returns (e: Path)
    requires IsMinimized(raw, kept) && m in kept
    requires forall p :: StoredExcludes(kept, p) <==> StoredExcludes(raw, p)
    ensures e in kept && Cleaned(e) == m
  {
    hide Cleaned, Covers, IsMinimized, StoredExcludes, Excludes;
    MinimizedIsEquivalent(raw, kept);
    e := StoredBy(kept, m);
    var c := Cleaned(e);
    StoredSelf(kept, e);
    assert Excludes(kept, c);
    var k := ExcludedBy(kept, c);
    CoversIsTransitive(k, c, m);
    CoversBothWays(c, m);
  }

  lemma StoredBy(kept: set<Path>, m: Path) returns (e: Path)
    requires StoredExcludes(kept, m)
    ensures e in kept && Cleaned(e) != "" && Covers(Cleaned(e), m)
  {
    e :| e in kept && Cleaned(e) != "" && Covers(Cleaned(e), m);
  }

  lemma StoredSelf(kept: set<Path>, e: Path)
    requires e in kept && Cleaned(e) != ""
    ensures StoredExcludes(kept, Cleaned(e))
  {
    assert Covers(Cleaned(e), Cleaned(e));
  }

  lemma ExcludedBy(kept: set<Path>, p: Path) returns (k: Path)
    requires Excludes(kept, p)
    ensures k in kept && Covers(k, p)
  {
    k :| k in kept && Covers(k, p);
  }

  /** If the stored list excludes what the given one does, no kept entry changes when it
      is cleaned again: a changed one would have to be replaced by a longer changed one. */
  lemma {:induction false} NoneChanges(raw: set<string>, kept: set<Path>, m: Path)
    requires IsMinimized(raw, kept) && m in kept
    requires forall p :: StoredExcludes(kept, p) <==> StoredExcludes(raw, p)
    ensures Cleaned(m) == m
    decreases Longest(kept) - |m|
  {
    hide Cleaned, StoredExcludes, IsMinimized, Longest;
    var e := SourceOf(raw, kept, m);
    if e != m {
      CleanedIsShorter(e);
      NoneChanges(raw, kept, e);
    }
  }

  /** The stored list excludes the same paths as the given one exactly when no kept entry
      begins or ends with whitespace. */
  lemma StoredListIsExact(raw: set<string>, kept: set<Path>)
    requires IsMinimized(raw, kept)
    ensures (forall p :: StoredExcludes(kept, p) <==> StoredExcludes(raw, p))
            <==> forall m :: m in kept ==> !IsSpace(m[0]) && !IsSpace(m[|m| - 1])
  {
    MinimizedIsEquivalent(raw, kept);
    forall m | m in kept
      ensures m != "" && (Cleaned(m) == m <==> !IsSpace(m[0]) && !IsSpace(m[|m| - 1]))
    {
      var r :| r in raw && Cleaned(r) == m && m != "";
      StableExactly(r);
    }
    if forall m :: m in kept ==> Cleaned(m) == m {
      forall p ensures StoredExcludes(kept, p) <==> Excludes(kept, p) {
        if Excludes(kept, p) {
          var m :| m in kept && Covers(m, p);
          assert Cleaned(m) == m;
        }
      }
    }
    if forall p :: StoredExcludes(kept, p) <==> StoredExcludes(raw, p) {
      forall m | m in kept ensures Cleaned(m) == m {
        NoneChanges(raw, kept, m);
      }
    }
  }

  /** Minimizing again changes nothing under the same condition. */
  lemma MinimizingIsIdempotent(raw: set<string>, kept: set<Path>, again: set<Path>)
    requires IsMinimized(raw, kept) && IsMinimized(kept, again)
    requires forall m :: m in kept ==> !IsSpace(m[0]) && !IsSpace(m[|m| - 1])
    ensures again == kept
  {
    hide Cleaned, Covers, IsSpace;
    MinimizedIsEquivalent(raw, kept);
    forall n | n in kept ensures n != "" && Cleaned(n) == n {
      var r :| r in raw && Cleaned(r) == n && n != "";
      StableExactly(r);
    }
    assert CleanedSet(kept) == kept;
  }

  /** Such an entry: a folder whose name ends in a space. What is stored for it excludes
      another folder. */
  lemma TrailingSpaceExample()
    ensures Cleaned("/a /") == "a " && Cleaned("a ") == "a"
    ensures Covers("a ", "a /x") && !Covers("a", "a /x") && Covers("a", "a/x")
  {
    hide IsSpace;
    SpaceIsSpace();
    assert "/a /"[1..] == "a /" && "a /"[..2] == "a " && "a "[..1] == "a";
    assert "a /x"[..2] == "a " && "a" + "/" == "a/" && "a/x"[..2] == "a/";
    assert "a /x"[..3] == "a " + "/";
  }

  lemma SpaceIsSpace()
    ensures IsSpace(' ') && !IsSpace('/') && !IsSpace('a')
  {
  }

  /** An entry excludes its own path and what lies below it as a folder, not names that
      merely begin like it. */
  lemma CoversExactly(entry: Path, p: Path)
    ensures Covers(entry, p) <==> |entry| <= |p| && p[..|entry|] == entry && (|p| == |entry| || p[|entry|] == '/')
  {
  }
}
