/**
 * The file filter the packaging script of src/util/packager.ts hands to electron-packager:
 * `ignores(path)` says whether a path of the project (starting with a slash) stays out of the
 * packaged application. The packager call itself is not part of this model.
 */
module Packager {

  /** `needPaths`: the prefixes of the paths the application needs at run time. */
  const NeedPaths: seq<string> := [
    "/package.json",
    "/dist",
    "/LICENSE",
    "/node_modules/garoon",
    "/node_modules/electron-store",
    "/node_modules/googleapis",
    "/node_modules/cookie"
  ]

  /** `sub` occurs in `s` at `i`. */
  predicate OccursAt(s: string, sub: string, i: nat) {
    i + |sub| <= |s| && s[i..i + |sub|] == sub
  }

  /** JavaScript's `s.indexOf(sub, i)` for `i <= |s|`: the first occurrence from `i`, or -1. */
  function IndexFrom(s: string, sub: string, i: nat): (r: int)
    requires i <= |s|
    ensures r == -1 || (i <= r && OccursAt(s, sub, r))
    ensures r >= 0 ==> forall j :: i <= j < r ==> !OccursAt(s, sub, j)
    ensures r == -1 ==> forall j :: i <= j ==> !OccursAt(s, sub, j)
    decreases |s| - i
  {
    if i + |sub| > |s| then -1
    else if s[i..i + |sub|] == sub then i
    else IndexFrom(s, sub, i + 1)
  }

  /** JavaScript's `s.indexOf(sub)`. */
  function IndexOf(s: string, sub: string): (r: int)
    ensures r == -1 || (r >= 0 && OccursAt(s, sub, r))
    ensures r >= 0 ==> forall j :: 0 <= j < r ==> !OccursAt(s, sub, j)
    ensures r == -1 ==> forall j :: 0 <= j ==> !OccursAt(s, sub, j)
  {
    IndexFrom(s, sub, 0)
  }

  /** `indexOf` answers 0 exactly when `sub` is a prefix of `s`. */
  lemma IndexOfZeroIsPrefix(s: string, sub: string)
    ensures IndexOf(s, sub) == 0 <==> sub <= s
  {
    if sub <= s {
      assert OccursAt(s, sub, 0);
    }
  }

  /** `ignores(path)`. */
  predicate Ignores(path: string) {
    |path| > 0 && path != "/node_modules" && forall i :: 0 <= i < |NeedPaths| ==> IndexOf(path, NeedPaths[i]) != 0
  }

  /** A path is left out exactly when it is not empty, not `/node_modules` and starts with no needed prefix. */
  lemma IgnoresExactly(path: string)
    ensures Ignores(path) <==> |path| > 0 && path != "/node_modules" && forall i :: 0 <= i < |NeedPaths| ==> !(NeedPaths[i] <= path)
  {
    forall i | 0 <= i < |NeedPaths| {
      IndexOfZeroIsPrefix(path, NeedPaths[i]);
    }
  }

  /** The project root, the `node_modules` directory and everything under a needed prefix are kept. */
  lemma KeptPaths(path: string, i: nat)
    requires i < |NeedPaths| && NeedPaths[i] <= path
    ensures !Ignores("") && !Ignores("/node_modules") && !Ignores(path)
  {
    IndexOfZeroIsPrefix(path, NeedPaths[i]);
  }

  /** The test is a plain string prefix: `/distX` and `/node_modules/garoonfoo` are kept too. */
  lemma PrefixNotDirectory()
    ensures !Ignores("/distX") && !Ignores("/node_modules/garoonfoo")
  {
    KeptPaths("/distX", 1);
    KeptPaths("/node_modules/garoonfoo", 3);
  }

  /** A prefix that differs from `path` at position `k` is not a prefix of it. */
  lemma DiffersAt(prefix: string, path: string, k: nat)
    requires k < |prefix| && k < |path| && prefix[k] != path[k]
    ensures !(prefix <= path)
  {
  }

  /** A non-empty path other than `/node_modules` that starts with none of the needed prefixes is left out. */
  lemma IgnoredWithoutNeededPrefix(path: string)
    requires |path| > 0 && path != "/node_modules"
    requires !(NeedPaths[0] <= path) && !(NeedPaths[1] <= path) && !(NeedPaths[2] <= path)
    requires !(NeedPaths[3] <= path) && !(NeedPaths[4] <= path) && !(NeedPaths[5] <= path) && !(NeedPaths[6] <= path)
    ensures Ignores(path)
  {
    IgnoresExactly(path);
  }

  /** Another package and a file at the root are left out. */
  lemma OtherPathsIgnored()
    ensures Ignores("/node_modules/other") && Ignores("/README.md")
  {
    var other, readme := "/node_modules/other", "/README.md";
    assert |other| == 19 && other[1] == 'n' && other[14] == 'o';
    assert |readme| == 10 && readme[1] == 'R';
    DiffersAt(NeedPaths[0], other, 1);
    DiffersAt(NeedPaths[1], other, 1);
    DiffersAt(NeedPaths[2], other, 1);
    DiffersAt(NeedPaths[3], other, 14);
    DiffersAt(NeedPaths[4], other, 14);
    DiffersAt(NeedPaths[5], other, 14);
    DiffersAt(NeedPaths[6], other, 14);
    IgnoredWithoutNeededPrefix(other);
    DiffersAt(NeedPaths[0], readme, 1);
    DiffersAt(NeedPaths[1], readme, 1);
    DiffersAt(NeedPaths[2], readme, 1);
    DiffersAt(NeedPaths[3], readme, 1);
    DiffersAt(NeedPaths[4], readme, 1);
    DiffersAt(NeedPaths[5], readme, 1);
    DiffersAt(NeedPaths[6], readme, 1);
    IgnoredWithoutNeededPrefix(readme);
  }
}
