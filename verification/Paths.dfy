/**
 * Absolute slash-separated paths, as strings and as component lists.
 *
 * The helper keys every cache by the string form and compares paths with
 * string prefixes; the lemmas here say what those string tests mean in terms
 * of components.
 */
module Paths {

  predicate NoSlash(s: string) {
    '/' !in s
  }

  /** A component that survives `path.Clean`. */
  predicate IsName(s: string) {
    s != "" && NoSlash(s) && s != "." && s != ".."
  }

  predicate AllNames(c: seq<string>) {
    forall i | 0 <= i < |c| :: IsName(c[i])
  }

  predicate AllNoSlash(c: seq<string>) {
    forall i | 0 <= i < |c| :: NoSlash(c[i])
  }

  /** "/a/b" for ["a", "b"], and "" for no component. */
  function Tail(c: seq<string>): string {
    if c == [] then "" else "/" + c[0] + Tail(c[1..])
  }

  /** The clean absolute path with the given components. */
  function Render(c: seq<string>): string {
    if c == [] then "/" else Tail(c)
  }

  /** Go's `strings.Split(s, "/")`. */
  function Split(s: string): (parts: seq<string>)
    ensures parts != [] && AllNoSlash(parts)
  {
    if NoSlash(s) then [s]
    else
      var k := FirstSlash(s);
      [s[..k]] + Split(s[k + 1..])
  }

  function FirstSlash(s: string): (k: nat)
    requires !NoSlash(s)
    ensures k < |s| && s[k] == '/' && NoSlash(s[..k])
  {
    if s[0] == '/' then 0 else 1 + FirstSlash(s[1..])
  }

  /** The component rules of `path.Clean` on a rooted path. */
  function Normalize(parts: seq<string>, acc: seq<string>): (c: seq<string>)
    requires AllNoSlash(parts) && AllNames(acc)
    ensures AllNames(c)
  {
    if parts == [] then acc
    else if parts[0] == "" || parts[0] == "." then Normalize(parts[1..], acc)
    else if parts[0] == ".." then
      Normalize(parts[1..], if acc == [] then [] else acc[..|acc| - 1])
    else Normalize(parts[1..], acc + [parts[0]])
  }

  /** Go's `path.Clean("/" + p)`. */
  function Clean(p: string): string {
    Render(Normalize(Split(p), []))
  }

  /** `splitPath`: clean the path, drop the leading slash and split the rest. */
  function SplitPath(p: string): seq<string> {
    var q := Clean(p);
    if q == "/" || q == "" then [] else Split(q[1..])
  }

  predicate IsClean(p: string) {
    Render(SplitPath(p)) == p
  }

  /** Index just past the last slash, or 0 when there is none. */
  function AfterLastSlash(s: string): (k: nat)
    ensures k <= |s| && NoSlash(s[k..])
    ensures k == 0 ==> NoSlash(s)
    ensures k > 0 ==> s[k - 1] == '/'
  {
    if s == "" then 0
    else if s[|s| - 1] == '/' then |s|
    else
      var k := AfterLastSlash(s[..|s| - 1]);
      assert s[k..] == s[..|s| - 1][k..] + [s[|s| - 1]];
      k
  }

  /** Go's `path.Dir` on an absolute path. */
  function Dir(p: string): string {
    Clean(p[..AfterLastSlash(p)])
  }

  /** Go's `path.Base` on a clean absolute path other than the root. */
  function Base(p: string): string {
    p[AfterLastSlash(p)..]
  }

  /** Go's `strings.TrimRight(s, "/")`. */
  function TrimSlashes(s: string): string {
    if s != "" && s[|s| - 1] == '/' then TrimSlashes(s[..|s| - 1]) else s
  }

  /** The event poller's way of naming a child of a directory. */
  function ChildPath(dir: string, name: string): string {
    TrimSlashes(dir) + "/" + name
  }

  /** The test `Session.InvalidatePath(p)` applies to a cached key. */
  predicate AtOrUnder(p: string, key: string) {
    key == p || p + "/" <= key
  }

  // ----- rendering -----

  lemma {:induction false} TailAppend(c: seq<string>, d: seq<string>)
    ensures Tail(c + d) == Tail(c) + Tail(d)
  {
    if c == [] {
      assert c + d == d;
    } else {
      TailAppend(c[1..], d);
      assert (c + d)[1..] == c[1..] + d;
    }
  }

  lemma TailSnoc(c: seq<string>, n: string)
    ensures Tail(c + [n]) == Tail(c) + "/" + n
    ensures Render(c + [n]) == Tail(c) + "/" + n
  {
    TailAppend(c, [n]);
    assert [n][1..] == [];
  }

  lemma TailEmpty(c: seq<string>)
    ensures Tail(c) == "" <==> c == []
    ensures c != [] ==> Tail(c)[0] == '/'
  {
  }

  // ----- splitting -----

  lemma SplitAt(s: string, k: nat)
    requires k < |s| && s[k] == '/' && NoSlash(s[..k])
    ensures Split(s) == [s[..k]] + Split(s[k + 1..])
  {
    hide NoSlash;
    FirstSlashAt(s, k);
  }

  lemma {:induction false} SplitConcat(a: string, b: string)
    ensures Split(a + "/" + b) == Split(a) + Split(b)
    decreases |a|
  {
    hide NoSlash;
    var s := a + "/" + b;
    if NoSlash(a) {
      assert s[..|a|] == a && s[|a| + 1..] == b;
      SplitAt(s, |a|);
    } else {
      var k := FirstSlash(a);
      var rest := a[k + 1..];
      assert s[..k] == a[..k] && s[k + 1..] == rest + "/" + b;
      SplitAt(s, k);
      SplitConcat(rest, b);
      assert [a[..k]] + (Split(rest) + Split(b)) == ([a[..k]] + Split(rest)) + Split(b);
    }
  }

  lemma {:induction false} FirstSlashAt(s: string, k: nat)
    requires k < |s| && s[k] == '/' && NoSlash(s[..k])
    ensures !NoSlash(s) && FirstSlash(s) == k
  {
    if k > 0 {
      assert s[0] == s[..k][0];
      assert s[1..][..k - 1] == s[..k][1..];
      FirstSlashAt(s[1..], k - 1);
    }
  }

  lemma {:induction false} SplitTail(c: seq<string>)
    requires AllNoSlash(c)
    ensures Split(Tail(c)) == [""] + c
    decreases |c|
  {
    if c != [] {
      var front, last := c[..|c| - 1], c[|c| - 1];
      assert c == front + [last];
      TailSnoc(front, last);
      SplitConcat(Tail(front), last);
      SplitTail(front);
    }
  }

  // ----- cleaning -----

  lemma {:induction false} NormalizeNames(c: seq<string>, acc: seq<string>)
    requires AllNames(c) && AllNames(acc)
    ensures Normalize(c, acc) == acc + c
    decreases |c|
  {
    if c == [] {
      assert acc + c == acc;
    } else {
      NormalizeNames(c[1..], acc + [c[0]]);
      assert acc + [c[0]] + c[1..] == acc + c;
    }
  }

  lemma {:induction false} NormalizeAppend(a: seq<string>, b: seq<string>, acc: seq<string>)
    requires AllNoSlash(a) && AllNoSlash(b) && AllNames(acc)
    ensures Normalize(a + b, acc) == Normalize(b, Normalize(a, acc))
    decreases |a|
  {
    if a == [] {
      assert a + b == b;
    } else {
      assert (a + b)[1..] == a[1..] + b;
      if a[0] == "" || a[0] == "." {
        NormalizeAppend(a[1..], b, acc);
      } else if a[0] == ".." {
        NormalizeAppend(a[1..], b, if acc == [] then [] else acc[..|acc| - 1]);
      } else {
        NormalizeAppend(a[1..], b, acc + [a[0]]);
      }
    }
  }

  /** Empty strings around the components of a clean path are dropped. */
  lemma NormalizePadded(c: seq<string>)
    requires AllNames(c)
    ensures Normalize([""] + c, []) == c && Normalize([""] + c + [""], []) == c
  {
    NormalizeNames(c, []);
    assert ([""] + c)[1..] == c;
    NormalizeAppend([""] + c, [""], []);
    assert [""][1..] == [];
  }

  /** Cleaning a clean path changes nothing, whatever slashes are put around it. */
  lemma CleanRender(c: seq<string>)
    requires AllNames(c)
    ensures Normalize(Split(Render(c)), []) == c
    ensures Normalize(Split(Tail(c) + "/"), []) == c
    ensures Clean(Render(c)) == Render(c)
  {
    hide Normalize, Split;
    SplitTail(c);
    NormalizePadded(c);
    SplitConcat(Tail(c), "");
    assert Tail(c) + "/" + "" == Tail(c) + "/";
    SplitNoSlash("");
    if c == [] {
      assert Tail(c) + "/" == "/";
    }
  }

  lemma SplitNoSlash(s: string)
    requires NoSlash(s)
    ensures Split(s) == [s]
  {
  }

  /** `splitPath` yields exactly the components of the cleaned path. */
  lemma SplitPathComponents(p: string)
    ensures SplitPath(p) == Normalize(Split(p), [])
    ensures AllNames(SplitPath(p))
    ensures Clean(p) == Render(SplitPath(p))
    ensures IsClean(Clean(p))
  {
    var c := Normalize(Split(p), []);
    SplitPathOfRender(p, c);
    CleanRender(c);
    SplitPathOfRender(Render(c), c);
  }

  lemma SplitPathOfRender(p: string, c: seq<string>)
    requires AllNames(c) && Clean(p) == Render(c)
    ensures SplitPath(p) == c
  {
    TailEmpty(c);
    if c != [] {
      assert |Tail(c)| >= 2 by { assert c[0] != ""; }
      SplitTail(c);
      SplitConcat("", Tail(c)[1..]);
      assert "" + "/" + Tail(c)[1..] == Tail(c);
      assert [""] + Split(Tail(c)[1..]) == [""] + c;
      assert Split(Tail(c)[1..]) == ([""] + c)[1..] == c;
    }
  }

  /** Clean absolute paths and component lists correspond one to one. */
  lemma RenderInverse(c: seq<string>)
    requires AllNames(c)
    ensures SplitPath(Render(c)) == c && IsClean(Render(c))
  {
    CleanRender(c);
    SplitPathOfRender(Render(c), c);
  }

  lemma RenderInjective(c: seq<string>, d: seq<string>)
    requires AllNames(c) && AllNames(d) && Render(c) == Render(d)
    ensures c == d
  {
    RenderInverse(c);
    RenderInverse(d);
  }

  lemma CleanPathShape(p: string)
    requires IsClean(p)
    ensures AllNames(SplitPath(p)) && Render(SplitPath(p)) == p && Clean(p) == p
    ensures p != "" && p[0] == '/'
  {
    SplitPathComponents(p);
    CleanRender(SplitPath(p));
    TailEmpty(SplitPath(p));
  }

  /** Names, dots and double dots after a path mean what they mean in the shell. */
  lemma {:induction false} CleanSteps(p: string, n: string)
    requires NoSlash(n)
    ensures SplitPath(p + "/" + n) ==
      if n == "" || n == "." then SplitPath(p)
      else if n == ".." then (if SplitPath(p) == [] then [] else SplitPath(p)[..|SplitPath(p)| - 1])
      else SplitPath(p) + [n]
  {
    SplitPathComponents(p);
    SplitPathComponents(p + "/" + n);
    SplitConcat(p, n);
    SplitNoSlash(n);
    NormalizeAppend(Split(p), [n], []);
    assert [n][1..] == [];
  }

  /** What a path starts from: the root, whether or not the slash is written. */
  lemma CleanStart(n: string)
    requires NoSlash(n)
    ensures SplitPath(n) == if n == "" || n == "." || n == ".." then [] else [n]
  {
    SplitPathComponents(n);
    SplitNoSlash(n);
    assert [n][1..] == [];
  }

  // ----- parents and children -----

  lemma {:induction false} AfterLastSlashAt(a: string, n: string)
    requires NoSlash(n)
    ensures AfterLastSlash(a + "/" + n) == |a| + 1
    decreases |n|
  {
    var s := a + "/" + n;
    if n == "" {
      assert s[|s| - 1] == '/';
    } else {
      var m := n[..|n| - 1];
      assert s[|s| - 1] == n[|n| - 1] && n[|n| - 1] in n;
      assert s[..|s| - 1] == a + "/" + m;
      assert NoSlash(m);
      AfterLastSlashAt(a, m);
    }
  }

  /** `path.Dir` and `path.Base` undo appending one component. */
  lemma DirBaseOfChild(c: seq<string>, n: string)
    requires AllNames(c) && IsName(n)
    ensures Dir(Render(c + [n])) == Render(c)
    ensures Base(Render(c + [n])) == n
  {
    TailSnoc(c, n);
    AfterLastSlashAt(Tail(c), n);
    var s := Tail(c) + "/" + n;
    assert s[..|Tail(c)| + 1] == Tail(c) + "/";
    CleanRender(c);
  }

  /** The poller's string recipe names the child it means to name. */
  lemma ChildPathOfRender(c: seq<string>, n: string)
    requires AllNames(c) && IsName(n)
    ensures ChildPath(Render(c), n) == Render(c + [n])
  {
    TailSnoc(c, n);
    if c != [] {
      var front, last := c[..|c| - 1], c[|c| - 1];
      assert c == front + [last];
      TailSnoc(front, last);
      assert IsName(last) && last[|last| - 1] in last;
      assert TrimSlashes(Tail(c)) == Tail(c);
    } else {
      assert "/"[..0] == "";
      assert TrimSlashes("/") == "";
    }
  }

  // ----- what the prefix tests mean -----

  lemma TailStep(c: seq<string>)
    requires c != []
    ensures Tail(c) == "/" + (c[0] + Tail(c[1..]))
    ensures Tail(c) + "/" == "/" + (c[0] + (Tail(c[1..]) + "/"))
  {
    var t := Tail(c[1..]);
    assert ("/" + c[0]) + t == "/" + (c[0] + t);
    assert (("/" + c[0]) + t) + "/" == "/" + (c[0] + (t + "/"));
  }

  lemma {:induction false} PrefixMeansAncestor(c: seq<string>, d: seq<string>)
    requires AllNames(c) && AllNames(d) && Tail(c) + "/" <= Tail(d)
    ensures c < d
    decreases |c|
  {
    hide Tail;
    TailEmpty(c);
    TailEmpty(d);
    if c != [] {
      var u, v := Tail(c[1..]), Tail(d[1..]);
      TailStep(c);
      TailStep(d);
      TailEmpty(c[1..]);
      TailEmpty(d[1..]);
      PrefixCancel("/", c[0] + (u + "/"), d[0] + v);
      HeadsAgree(c[0], u + "/", d[0], v);
      PrefixCancel(c[0], u + "/", v);
      PrefixMeansAncestor(c[1..], d[1..]);
      assert c == [c[0]] + c[1..] && d == [d[0]] + d[1..];
    }
  }

  lemma {:induction false} AncestorMeansPrefix(c: seq<string>, d: seq<string>)
    requires c < d
    ensures Tail(c) + "/" <= Tail(d)
    decreases |c|
  {
    hide Tail;
    TailStep(d);
    if c == [] {
      TailEmpty(c);
      assert Tail(c) + "/" == "/";
    } else {
      TailStep(c);
      AncestorMeansPrefix(c[1..], d[1..]);
      PrefixCancel(c[0], Tail(c[1..]) + "/", Tail(d[1..]));
      PrefixCancel("/", c[0] + (Tail(c[1..]) + "/"), d[0] + Tail(d[1..]));
    }
  }

  /** A string prefix ending in a slash is a strict component ancestor. */
  lemma PrefixIsAncestor(c: seq<string>, d: seq<string>)
    requires AllNames(c) && AllNames(d)
    ensures Tail(c) + "/" <= Tail(d) <==> c < d
  {
    hide Tail;
    if Tail(c) + "/" <= Tail(d) {
      PrefixMeansAncestor(c, d);
    }
    if c < d {
      AncestorMeansPrefix(c, d);
    }
  }

  lemma PrefixCancel(h: string, a: string, b: string)
    ensures h + a <= h + b <==> a <= b
  {
    assert (h + a)[|h|..] == a && (h + b)[|h|..] == b;
    if h + a <= h + b {
      assert h + b == (h + a) + (h + b)[|h + a|..];
      assert b == a + (h + b)[|h + a|..];
    }
    if a <= b {
      assert h + b == (h + a) + b[|a|..];
    }
  }

  lemma HeadsAgree(x: string, u: string, y: string, v: string)
    requires NoSlash(x) && NoSlash(y)
    requires u != "" && u[0] == '/' && (v == "" || v[0] == '/')
    requires x + u <= y + v
    ensures x == y
  {
    var l, r := x + u, y + v;
    assert l[|x|] == '/' && r[|x|] == l[|x|];
    assert forall i | 0 <= i < |x| :: x[i] != '/' && l[i] == x[i];
    assert forall i | 0 <= i < |y| :: y[i] != '/' && r[i] == y[i];
    assert |x| >= |y|;
    assert |y| < |r| ==> r[|y|] == '/';
    assert |x| == |y|;
    assert x == l[..|x|] == r[..|x|] == y;
  }

  /**
   * `InvalidatePath(p)` tests a key by equality or by the prefix p + "/".
   * On clean paths this is the component-wise ancestor relation, except that
   * for p = "/" it matches the root alone, and for p = "" every key.
   */
  lemma AtOrUnderIsAncestor(p: string, key: string)
    requires IsClean(key) && (p == "" || IsClean(p))
    ensures p == "" ==> AtOrUnder(p, key)
    ensures p == "/" ==> (AtOrUnder(p, key) <==> key == "/")
    ensures p != "" && p != "/" ==> (AtOrUnder(p, key) <==> SplitPath(p) <= SplitPath(key))
  {
    CleanPathShape(key);
    var d := SplitPath(key);
    if p == "" {
      assert "" + "/" == "/";
    } else {
      CleanPathShape(p);
      var c := SplitPath(p);
      PrefixIsAncestor(c, d);
      if c == [] {
        assert p + "/" == "//";
        if d != [] {
          assert IsName(d[0]) && d[0][0] in d[0];
          assert Tail(d)[1] == d[0][0];
        }
      } else {
        TailEmpty(c);
        assert p == Tail(c);
        assert c <= d <==> (c == d || c < d);
        if d == [] {
          assert key == "/" && !(p + "/" <= key);
        }
      }
    }
  }
}
