/**
 * The parts of Go's `path/filepath` the upload service relies on, for a
 * system whose path separator is '/': `Ext`, `Clean` and a two-element `Join`.
 */
module FilePath {
  import Strings

  const Separator := '/'

  /** Neither a dot nor a separator occurs in `s`. */
  predicate NoDotOrSeparator(s: string)
  {
    forall k | 0 <= k < |s| :: s[k] != '.' && s[k] != Separator
  }

  /** `e` is a suffix of `p`. */
  predicate IsSuffix(e: string, p: string)
  {
    |e| <= |p| && p[|p| - |e|..] == e
  }

  /** Every dot of `p` is followed by a separator: the final element has no dot. */
  predicate FinalElementHasNoDot(p: string)
  {
    forall j | 0 <= j < |p| && p[j] == '.' :: Separator in p[j + 1..]
  }

  /** `e` is a well-formed extension of `p`: a suffix starting at a dot, with no dot or separator after it. */
  predicate IsExtensionOf(e: string, p: string)
  {
    IsSuffix(e, p) && |e| >= 1 && e[0] == '.' && NoDotOrSeparator(e[1..])
  }

  /**
   * The backward scan of `filepath.Ext` from position `i`: it stops with the
   * empty string at a separator or at the start, and returns the suffix from
   * the first dot it meets.
   */
  function ExtScan(path: string, i: nat): (e: string)
    requires i <= |path|
    requires NoDotOrSeparator(path[i..])
    ensures e == [] ==> FinalElementHasNoDot(path)
    ensures e != [] ==> IsExtensionOf(e, path)
    decreases i
  {
    if i == 0 then []
    else if path[i - 1] == Separator then []
    else if path[i - 1] == '.' then path[i - 1..]
    else
      assert path[i - 1..] == [path[i - 1]] + path[i..];
      ExtScan(path, i - 1)
  }

  /** `filepath.Ext(path)`. */
  function Ext(path: string): (e: string)
    ensures e == [] ==> FinalElementHasNoDot(path)
    ensures e != [] ==> IsExtensionOf(e, path)
  {
    ExtScan(path, |path|)
  }

  /**
   * Ext is the only suffix with the two properties above: whenever `e` is an
   * extension of `p` in the sense of IsExtensionOf, Ext returns it, and when
   * the final element has no dot it returns the empty string.
   */
  lemma ExtUnique(p: string, e: string)
    ensures IsExtensionOf(e, p) ==> Ext(p) == e
    ensures FinalElementHasNoDot(p) ==> Ext(p) == []
  {
    if IsExtensionOf(e, p) && Ext(p) != [] {
      // both suffixes start with the only dot of their tail
      assert |Ext(p)| == |e|;
    }
  }

  /** A dot in a directory name does not count: only the final element decides. */
  lemma ExtOfFinalElement(dir: string, name: string)
    requires Separator !in name
    ensures Ext(dir + [Separator] + name) == Ext(name)
  {
    var p := dir + [Separator] + name;
    var e := Ext(name);
    assert p[|p| - |name|..] == name;
    if e == [] {
      forall j | 0 <= j < |p| && p[j] == '.'
        ensures Separator in p[j + 1..]
      {
        assert p[j + 1..][|dir| - j - 1] == Separator;
      }
      ExtUnique(p, []);
    } else {
      ExtUnique(p, e);
    }
  }

  // ---------------------------------------------------------------------------
  // filepath.Clean and filepath.Join

  /**
   * One element of the rewriting of `Clean`, applied to the elements kept so
   * far: empty and "." elements vanish, ".." removes the element before it
   * when that is not "..", and a ".." that has nothing to remove is dropped
   * from a rooted path and kept in a relative one.
   */
  function CleanStep(done: seq<string>, e: string, rooted: bool): seq<string>
  {
    if e == [] || e == "." then done
    else if e == ".." then
      if |done| > 0 && done[|done| - 1] != ".." then done[..|done| - 1]
      else if rooted then done
      else done + [".."]
    else done + [e]
  }

  /** The element-by-element rewriting of `Clean`, from the first element to the last. */
  function CleanElements(elems: seq<string>, rooted: bool): (out: seq<string>)
    ensures forall k | 0 <= k < |out| :: out[k] != [] && out[k] != "."
    ensures rooted ==> forall k | 0 <= k < |out| :: out[k] != ".."
    decreases |elems|
  {
    if elems == [] then []
    else CleanStep(CleanElements(elems[..|elems| - 1], rooted), elems[|elems| - 1], rooted)
  }

  /** The cleaned elements put back together, with "." for an empty relative path. */
  function Assemble(rooted: bool, elems: seq<string>): (p: string)
    ensures p != []
  {
    var body := Strings.Join(elems, Separator);
    if rooted then [Separator] + body
    else if body == [] then "."
    else body
  }

  /** `filepath.Clean(p)`: the shortest lexically equivalent path. */
  function Clean(p: string): (c: string)
    ensures c != []
  {
    if p == [] then "."
    else
      var rooted := p[0] == Separator;
      Assemble(rooted, CleanElements(Strings.Split(p, Separator), rooted))
  }

  /**
   * The element rewriting is a left fold: what the elements after a prefix
   * do depends only on the rewriting of that prefix.
   */
  lemma {:induction false} CleanElementsFold(a: seq<string>, b: seq<string>, post: seq<string>, rooted: bool)
    requires CleanElements(a, rooted) == CleanElements(b, rooted)
    ensures CleanElements(a + post, rooted) == CleanElements(b + post, rooted)
    decreases |post|
  {
    if post == [] {
      assert a + post == a && b + post == b;
    } else {
      var init, e := post[..|post| - 1], post[|post| - 1];
      CleanElementsFold(a, b, init, rooted);
      assert (a + post)[..|a + post| - 1] == a + init && (a + post)[|a + post| - 1] == e;
      assert (b + post)[..|b + post| - 1] == b + init && (b + post)[|b + post| - 1] == e;
    }
  }

  /** Rule 3 of `Clean`: an inner ".." removes the plain element before it, together with itself. */
  lemma ParentRemovesPrevious(pre: seq<string>, x: string, post: seq<string>, rooted: bool)
    requires IsPlainName(x)
    ensures CleanElements(pre + [x, ".."] + post, rooted) == CleanElements(pre + post, rooted)
  {
    CleanElementsAppendPlain(pre, rooted, x);
    var a := pre + [x, ".."];
    assert a[..|a| - 1] == pre + [x];
    CleanElementsFold(a, pre, post, rooted);
  }

  /** The elements of `elems` other than the empty and "." ones, in their order. */
  function Kept(elems: seq<string>): (out: seq<string>)
    ensures |out| <= |elems|
  {
    if elems == [] then []
    else (if elems[0] == [] || elems[0] == "." then [] else [elems[0]]) + Kept(elems[1..])
  }

  lemma {:induction false} KeptAppend(a: seq<string>, e: string)
    ensures Kept(a + [e]) == Kept(a) + Kept([e])
  {
    if a != [] {
      assert (a + [e])[1..] == a[1..] + [e];
      KeptAppend(a[1..], e);
    }
  }

  /**
   * Without "..", cleaning keeps exactly the input's elements other than the
   * empty and "." ones, in their order.
   */
  lemma {:induction false} CleanElementsWithoutParent(elems: seq<string>, rooted: bool)
    requires forall k | 0 <= k < |elems| :: elems[k] != ".."
    ensures CleanElements(elems, rooted) == Kept(elems)
    decreases |elems|
  {
    if elems != [] {
      var init := elems[..|elems| - 1];
      var e := elems[|elems| - 1];
      CleanElementsWithoutParent(init, rooted);
      assert elems == init + [e];
      KeptAppend(init, e);
    }
  }

  /** Every element of `out` is one of `elems`, or a "..". */
  predicate ComesFrom(out: seq<string>, elems: seq<string>)
  {
    forall k | 0 <= k < |out| :: out[k] == ".." || out[k] in elems
  }

  /** Every element cleaning keeps is one of the input's, or a "..". */
  lemma {:induction false} CleanElementsFrom(elems: seq<string>, rooted: bool)
    ensures ComesFrom(CleanElements(elems, rooted), elems)
    decreases |elems|
  {
    if elems != [] {
      var init := elems[..|elems| - 1];
      CleanElementsFrom(init, rooted);
      var done := CleanElements(init, rooted);
      forall k | 0 <= k < |done| && done[k] != ".."
        ensures done[k] in elems
      {
        assert done[k] in init;
        var i :| 0 <= i < |init| && init[i] == done[k];
        assert elems[i] == done[k];
      }
    }
  }

  /**
   * A cleaned element list: no empty or "." element, ".." only in a leading
   * run, and no ".." at all in a rooted path.
   */
  predicate IsCleanList(elems: seq<string>, rooted: bool)
  {
    && (forall k | 0 <= k < |elems| :: elems[k] != [] && elems[k] != ".")
    && (forall j, k | 0 <= j < k < |elems| && elems[k] == ".." :: elems[j] == "..")
    && (rooted ==> forall k | 0 <= k < |elems| :: elems[k] != "..")
  }

  /** Cleaning always produces a cleaned element list. */
  lemma {:induction false} CleanElementsIsClean(elems: seq<string>, rooted: bool)
    ensures IsCleanList(CleanElements(elems, rooted), rooted)
    decreases |elems|
  {
    if elems != [] {
      var done := CleanElements(elems[..|elems| - 1], rooted);
      CleanElementsIsClean(elems[..|elems| - 1], rooted);
      var e := elems[|elems| - 1];
      if e == ".." && !(|done| > 0 && done[|done| - 1] != "..") && !rooted {
        var out := done + [".."];
        forall j, k | 0 <= j < k < |out| && out[k] == ".."
          ensures out[j] == ".."
        {
          if k < |done| {
            assert done[k] == "..";
          } else {
            assert done[|done| - 1] == "..";
          }
        }
      }
    }
  }

  /** A cleaned element list is left as it is. */
  lemma {:induction false} CleanListFixed(elems: seq<string>, rooted: bool)
    requires IsCleanList(elems, rooted)
    ensures CleanElements(elems, rooted) == elems
    decreases |elems|
  {
    if elems != [] {
      var init := elems[..|elems| - 1];
      assert IsCleanList(init, rooted);
      CleanListFixed(init, rooted);
      assert elems == init + [elems[|elems| - 1]];
      CleanStepKeepsClean(init, elems[|elems| - 1], rooted);
    }
  }

  /** One more element of a cleaned list is kept by the rewriting step. */
  lemma CleanStepKeepsClean(init: seq<string>, e: string, rooted: bool)
    requires IsCleanList(init + [e], rooted)
    ensures CleanStep(init, e, rooted) == init + [e]
  {
    var elems := init + [e];
    assert e == elems[|elems| - 1];
    if e == ".." && |init| > 0 {
      assert init[|init| - 1] == elems[|init| - 1];
    }
  }

  /** Cleaning the elements twice is cleaning them once. */
  lemma CleanElementsIdempotent(elems: seq<string>, rooted: bool)
    ensures CleanElements(CleanElements(elems, rooted), rooted) == CleanElements(elems, rooted)
  {
    CleanElementsIsClean(elems, rooted);
    CleanListFixed(CleanElements(elems, rooted), rooted);
  }

  /** "." cleans to itself. */
  lemma CleanDot()
    ensures Clean(".") == "."
  {
    Strings.SplitWithoutSeparator(".", Separator);
    assert ["."][..0] == [];
  }

  /** "/" cleans to itself. */
  lemma CleanRoot()
    ensures Clean("/") == "/"
  {
    var two: seq<string> := [[], []];
    assert "/" == [] + [Separator] + [];
    Strings.SplitAround([], Separator, []);
    assert Strings.Split("/", Separator) == two;
    assert two[..1] == [[]] && two[..1][..0] == [];
  }

  /** A cleaned rooted list of separator-free elements is read back from its assembled path. */
  lemma CleanAssembledRooted(out: seq<string>)
    requires out != [] && IsCleanList(out, true)
    requires forall k | 0 <= k < |out| :: Separator !in out[k]
    ensures Clean(Assemble(true, out)) == Assemble(true, out)
  {
    var body := Strings.Join(out, Separator);
    var c := [Separator] + body;
    assert c == [] + [Separator] + body;
    Strings.SplitAround([], Separator, body);
    Strings.SplitJoin(out, Separator);
    var empty: seq<string> := [[]];
    assert Strings.Split(c, Separator) == empty + out;
    assert empty[..0] == [];
    CleanElementsFold(empty, [], out, true);
    assert [] + out == out;
    CleanListFixed(out, true);
  }

  /** A cleaned relative list of separator-free elements is read back from its assembled path. */
  lemma CleanAssembledRelative(out: seq<string>)
    requires Strings.Join(out, Separator) != [] && IsCleanList(out, false)
    requires forall k | 0 <= k < |out| :: Separator !in out[k]
    ensures Clean(Assemble(false, out)) == Assemble(false, out)
  {
    var c := Strings.Join(out, Separator);
    assert out != [];
    Strings.SplitJoin(out, Separator);
    CleanListFixed(out, false);
    assert c[0] == out[0][0] by {
      if |out| > 1 {
        assert c == out[0] + [Separator] + Strings.Join(out[1..], Separator);
      }
    }
    assert out[0][0] in out[0];
  }

  /** A cleaned list of separator-free elements is read back from its assembled path. */
  lemma CleanAssembled(rooted: bool, out: seq<string>)
    requires IsCleanList(out, rooted)
    requires forall k | 0 <= k < |out| :: Separator !in out[k]
    ensures Clean(Assemble(rooted, out)) == Assemble(rooted, out)
  {
    if rooted && out == [] {
      assert Assemble(rooted, out) == "/";
      CleanRoot();
    } else if rooted {
      CleanAssembledRooted(out);
    } else if Strings.Join(out, Separator) == [] {
      CleanDot();
    } else {
      CleanAssembledRelative(out);
    }
  }

  /** `Clean` is idempotent: a cleaned path is clean. */
  lemma CleanIdempotent(p: string)
    ensures Clean(Clean(p)) == Clean(p)
  {
    if p == [] {
      CleanDot();
    } else {
      var rooted := p[0] == Separator;
      var parts := Strings.Split(p, Separator);
      var out := CleanElements(parts, rooted);
      CleanElementsIsClean(parts, rooted);
      CleanElementsFrom(parts, rooted);
      forall k | 0 <= k < |out|
        ensures Separator !in out[k]
      {
        if out[k] != ".." {
          assert out[k] in parts;
          var i :| 0 <= i < |parts| && parts[i] == out[k];
        }
      }
      CleanAssembled(rooted, out);
    }
  }

  /** On paths: `dir/x/../name` cleans to what `dir/name` cleans to, for a plain name `x`. */
  lemma CleanRemovesParent(dir: string, x: string, name: string)
    requires IsPlainName(x) && Separator !in name
    ensures Clean(dir + [Separator] + x + [Separator] + ".." + [Separator] + name) == Clean(dir + [Separator] + name)
  {
    var p := dir + [Separator] + x + [Separator] + ".." + [Separator] + name;
    var q := dir + [Separator] + name;
    var parts := Strings.Split(dir, Separator);
    SplitParentPath(dir, x, name);
    SplitDirectoryName(dir, name);
    assert p[0] == q[0];
    ParentRemovesPrevious(parts, x, [name], p[0] == Separator);
  }

  /** The pieces of `dir/x/../name`. */
  lemma SplitParentPath(dir: string, x: string, name: string)
    requires Separator !in x && Separator !in name
    ensures Strings.Split(dir + [Separator] + x + [Separator] + ".." + [Separator] + name, Separator)
            == Strings.Split(dir, Separator) + [x, ".."] + [name]
  {
    var withX := dir + [Separator] + x;
    var withParent := withX + [Separator] + "..";
    SplitDirectoryName(dir, x);
    assert Separator !in "..";
    SplitDirectoryName(withX, "..");
    SplitDirectoryName(withParent, name);
  }

  /** `filepath.Join(a, b)`: empty elements are ignored and the result is cleaned. */
  function Join(a: string, b: string): (r: string)
    ensures r == [] <==> a == [] && b == []
  {
    if a != [] then Clean(a + [Separator] + b)
    else if b != [] then Clean(b)
    else []
  }

  /** A plain file name: one path element that Clean leaves alone. */
  predicate IsPlainName(name: string)
  {
    name != [] && Separator !in name && name != "." && name != ".."
  }

  /** A plain name is appended unchanged by the element rewriting. */
  lemma CleanElementsAppendPlain(elems: seq<string>, rooted: bool, name: string)
    requires IsPlainName(name)
    ensures CleanElements(elems + [name], rooted) == CleanElements(elems, rooted) + [name]
  {
    assert (elems + [name])[..|elems|] == elems;
  }

  /** The pieces of `dir/name` are the pieces of `dir` followed by `name`. */
  lemma SplitDirectoryName(dir: string, name: string)
    requires Separator !in name
    ensures Strings.Split(dir + [Separator] + name, Separator) == Strings.Split(dir, Separator) + [name]
  {
    Strings.SplitAround(dir, Separator, name);
    Strings.SplitWithoutSeparator(name, Separator);
  }

  /** Assembling one more non-empty element adds a separator and that element. */
  lemma AssembleAppend(rooted: bool, elems: seq<string>, name: string)
    requires elems != [] && elems[0] != [] && name != []
    ensures Assemble(rooted, elems + [name]) == Assemble(rooted, elems) + [Separator] + name
  {
    Strings.JoinAppend(elems, name, Separator);
  }

  /**
   * Joining a clean directory (other than "." and "/") with a plain file name
   * is plain concatenation with one separator.
   */
  lemma JoinCleanDirectory(dir: string, name: string)
    requires dir != [] && Clean(dir) == dir && dir != "." && dir != "/"
    requires IsPlainName(name)
    ensures Join(dir, name) == dir + [Separator] + name
  {
    var p := dir + [Separator] + name;
    var rooted := dir[0] == Separator;
    var done := CleanElements(Strings.Split(dir, Separator), rooted);
    assert Assemble(rooted, done) == dir;
    assert done != [];
    SplitDirectoryName(dir, name);
    CleanElementsAppendPlain(Strings.Split(dir, Separator), rooted, name);
    AssembleAppend(rooted, done, name);
    assert p[0] == dir[0];
  }
}
