/**
 * A model of Go's `path/filepath.Join` and `path/filepath.Clean` with the
 * Unix separator '/'. Every location computed by the torcx path resolver is
 * produced by `Join`, so the properties proved here (the shape of a cleaned
 * path, idempotence of `Clean`, how nested joins flatten, and what joining
 * plain names under an absolute directory yields) are what the resolver's
 * own lemmas are built from.
 *
 * `Clean` is stated on path elements rather than characters: the path is
 * split at every separator, empty and "." elements are dropped, ".." is
 * resolved lexically against a stack (dropped at the root of an absolute
 * path, kept as a leading ".." of a relative one), and the stack is written
 * back with a leading separator when the path was absolute, or as "." when
 * nothing is left of a relative path.
 */
module FilePath {

  const Separator: char := '/'

  predicate IsAbs(p: string) {
    |p| > 0 && p[0] == Separator
  }

  /** An element that can survive cleaning: not empty, not ".", no separator. */
  predicate GoodName(e: string) {
    e != "" && e != "." && Separator !in e
  }

  /** A plain file or directory name: a good element that is not "..". */
  predicate SimpleName(e: string) {
    GoodName(e) && e != ".."
  }

  predicate AllGood(s: seq<string>) {
    forall i :: 0 <= i < |s| ==> GoodName(s[i])
  }

  predicate AllSimple(s: seq<string>) {
    forall i :: 0 <= i < |s| ==> SimpleName(s[i])
  }

  /** No separator is directly followed by another one. */
  predicate NoDoubleSeparator(p: string) {
    forall i, j :: 0 <= i < |p| && 0 <= j < |p| && j == i + 1 ==> !(p[i] == Separator && p[j] == Separator)
  }

  /** What Go promises of `Clean`'s result: never empty, no doubled separator,
      and no trailing separator unless the path is the root itself. */
  predicate IsClean(p: string) {
    && p != ""
    && NoDoubleSeparator(p)
    && (p == [Separator] || p[|p| - 1] != Separator)
  }

  /** `rel` placed below directory `dir`, with exactly one separator between them. */
  function Under(dir: string, rel: string): string {
    if dir == [Separator] then dir + rel else dir + [Separator] + rel
  }

  // ---------------------------------------------------------------------
  // Splitting and joining on the separator (Go's strings.Split / strings.Join)
  // ---------------------------------------------------------------------

  /** The pieces of `p` between separators; always at least one piece. */
  function Split(p: string): (parts: seq<string>)
    ensures |parts| >= 1
    ensures forall i :: 0 <= i < |parts| ==> Separator !in parts[i]
  {
    if p == [] then [[]]
    else
      var rest := Split(p[1..]);
      if p[0] == Separator then [[]] + rest
      else [[p[0]] + rest[0]] + rest[1..]
  }

  /** The pieces of `parts` with one separator between neighbours. */
  function JoinSep(parts: seq<string>): (p: string)
    ensures |parts| > 0 ==> |p| >= |parts[0]|
  {
    if |parts| == 0 then ""
    else if |parts| == 1 then parts[0]
    else parts[0] + [Separator] + JoinSep(parts[1..])
  }

  lemma {:induction false} SplitNoSeparator(a: string)
    requires Separator !in a
    ensures Split(a) == [a]
  {
    if a != [] {
      SplitNoSeparator(a[1..]);
      assert [a[0]] + a[1..] == a;
    }
  }

  /** Splitting distributes over a separator. */
  lemma {:induction false} SplitConcat(a: string, b: string)
    ensures Split(a + [Separator] + b) == Split(a) + Split(b)
  {
    if a == [] {
      assert a + [Separator] + b == [Separator] + b;
      assert ([Separator] + b)[1..] == b;
    } else {
      assert (a + [Separator] + b)[1..] == a[1..] + [Separator] + b;
      SplitConcat(a[1..], b);
    }
  }

  /** Joining the pieces of a split gives back the string. */
  lemma {:induction false} JoinSepSplit(p: string)
    ensures JoinSep(Split(p)) == p
  {
    if p != [] {
      JoinSepSplit(p[1..]);
      var rest := Split(p[1..]);
      if p[0] == Separator {
        assert ([[]] + rest)[1..] == rest;
      } else {
        var parts := [[p[0]] + rest[0]] + rest[1..];
        if |rest| > 1 {
          assert parts[1..] == rest[1..];
          assert JoinSep(rest) == rest[0] + [Separator] + JoinSep(rest[1..]);
        }
      }
    }
  }

  /** Splitting a join of separator-free pieces gives back the pieces. */
  lemma {:induction false} SplitJoinSep(parts: seq<string>)
    requires |parts| > 0
    requires forall i :: 0 <= i < |parts| ==> Separator !in parts[i]
    ensures Split(JoinSep(parts)) == parts
  {
    if |parts| == 1 {
      SplitNoSeparator(parts[0]);
    } else {
      SplitJoinSep(parts[1..]);
      SplitNoSeparator(parts[0]);
      SplitConcat(parts[0], JoinSep(parts[1..]));
    }
  }

  lemma {:induction false} JoinSepConcat(a: seq<string>, b: seq<string>)
    requires |a| > 0 && |b| > 0
    ensures JoinSep(a + b) == JoinSep(a) + [Separator] + JoinSep(b)
  {
    if |a| > 1 {
      assert (a + b)[1..] == a[1..] + b;
      JoinSepConcat(a[1..], b);
    } else {
      assert (a + b)[1..] == b;
    }
  }

  /** A join of good names neither starts nor ends with a separator and
      never doubles one. */
  lemma {:induction false} JoinSepShape(s: seq<string>)
    requires |s| > 0 && AllGood(s)
    ensures JoinSep(s) != "" && JoinSep(s)[0] != Separator
    ensures JoinSep(s)[|JoinSep(s)| - 1] != Separator
    ensures NoDoubleSeparator(JoinSep(s))
  {
    var x := s[0];
    assert x[0] in x;
    assert x[|x| - 1] in x;
    if |s| > 1 {
      JoinSepShape(s[1..]);
      var j := JoinSep(s[1..]);
      var p := x + [Separator] + j;
      assert JoinSep(s) == p;
      assert p[0] == x[0];
      assert p[|p| - 1] == j[|j| - 1];
      forall i, k | 0 <= i && k == i + 1 && k < |p|
        ensures !(p[i] == Separator && p[k] == Separator)
      {
        if i < |x| {
          assert p[i] == x[i] && x[i] in x;
        } else if i > |x| {
          assert p[i] == j[i - |x| - 1] && p[k] == j[k - |x| - 1];
        }
      }
    } else {
      forall i, k | 0 <= i && k == i + 1 && k < |x|
        ensures !(x[i] == Separator && x[k] == Separator)
      {
        assert x[i] in x;
      }
    }
  }

  // ---------------------------------------------------------------------
  // Elements of a path and lexical resolution of ".."
  // ---------------------------------------------------------------------

  /** The pieces that matter: empty pieces and "." are dropped. */
  function Names(parts: seq<string>): (r: seq<string>)
    requires forall i :: 0 <= i < |parts| ==> Separator !in parts[i]
    ensures AllGood(r)
    ensures |r| <= |parts|
  {
    if parts == [] then []
    else (if parts[0] == "" || parts[0] == "." then [] else [parts[0]]) + Names(parts[1..])
  }

  function Elements(p: string): (r: seq<string>)
    ensures AllGood(r)
  {
    Names(Split(p))
  }

  lemma {:induction false} NamesConcat(a: seq<string>, b: seq<string>)
    requires forall i :: 0 <= i < |a| ==> Separator !in a[i]
    requires forall i :: 0 <= i < |b| ==> Separator !in b[i]
    ensures Names(a + b) == Names(a) + Names(b)
  {
    if a != [] {
      assert (a + b)[1..] == a[1..] + b;
      NamesConcat(a[1..], b);
    } else {
      assert a + b == b;
    }
  }

  /** Good names pass through unchanged. */
  lemma {:induction false} NamesOfGood(s: seq<string>)
    requires AllGood(s)
    ensures Names(s) == s
  {
    if s != [] {
      NamesOfGood(s[1..]);
    }
  }

  lemma ElementsConcat(a: string, b: string)
    ensures Elements(a + [Separator] + b) == Elements(a) + Elements(b)
  {
    SplitConcat(a, b);
    NamesConcat(Split(a), Split(b));
  }

  /** A stack of resolved elements: good names, and ".." only in a relative
      path and only before every other name. */
  predicate Resolved(rooted: bool, s: seq<string>) {
    && AllGood(s)
    && forall i :: 0 <= i < |s| && s[i] == ".." ==>
         !rooted && forall j :: 0 <= j < i ==> s[j] == ".."
  }

  /** One element of Go's cleaning loop. */
  function Step(rooted: bool, stack: seq<string>, e: string): seq<string> {
    if e == ".." then
      if |stack| > 0 && stack[|stack| - 1] != ".." then stack[..|stack| - 1]
      else if rooted then stack
      else stack + [e]
    else stack + [e]
  }

  function Resolve(rooted: bool, stack: seq<string>, names: seq<string>): (r: seq<string>)
    requires Resolved(rooted, stack) && AllGood(names)
    ensures Resolved(rooted, r)
    decreases |names|
  {
    if names == [] then stack
    else
      var next := Step(rooted, stack, names[0]);
      assert |stack| > 0 && stack[|stack| - 1] == ".." ==>
        forall j :: 0 <= j < |stack| ==> stack[j] == "..";
      Resolve(rooted, next, names[1..])
  }

  lemma {:induction false} ResolveConcat(rooted: bool, stack: seq<string>, a: seq<string>, b: seq<string>)
    requires Resolved(rooted, stack) && AllGood(a) && AllGood(b)
    ensures Resolve(rooted, stack, a + b) == Resolve(rooted, Resolve(rooted, stack, a), b)
    decreases |a|
  {
    if a == [] {
      assert a + b == b;
    } else {
      assert (a + b)[1..] == a[1..] + b;
      assert |stack| > 0 && stack[|stack| - 1] == ".." ==>
        forall j :: 0 <= j < |stack| ==> stack[j] == "..";
      ResolveConcat(rooted, Step(rooted, stack, a[0]), a[1..], b);
    }
  }

  /** Resolving what is already resolved changes nothing. */
  lemma {:induction false} ResolveResolved(rooted: bool, stack: seq<string>, s: seq<string>)
    requires Resolved(rooted, stack + s)
    ensures Resolved(rooted, stack) && AllGood(s)
    ensures Resolve(rooted, stack, s) == stack + s
    decreases |s|
  {
    assert forall i :: 0 <= i < |stack| ==> stack[i] == (stack + s)[i];
    assert forall i :: 0 <= i < |s| ==> s[i] == (stack + s)[|stack| + i];
    if s != [] {
      if s[0] == ".." {
        assert (stack + s)[|stack|] == "..";
      }
      assert stack + [s[0]] + s[1..] == stack + s;
      ResolveResolved(rooted, stack + [s[0]], s[1..]);
    }
  }

  /** Writing a stack back as a path. */
  function Render(rooted: bool, s: seq<string>): string {
    if rooted then [Separator] + JoinSep(s)
    else if JoinSep(s) == "" then "."
    else JoinSep(s)
  }

  lemma RenderRooted(rooted: bool, s: seq<string>)
    requires AllGood(s)
    ensures Render(rooted, s) != ""
    ensures IsAbs(Render(rooted, s)) <==> rooted
  {
    if s != [] {
      JoinSepShape(s);
    }
  }

  lemma ElementsRender(rooted: bool, s: seq<string>)
    requires AllGood(s)
    ensures Elements(Render(rooted, s)) == s
  {
    var j := JoinSep(s);
    if s == [] {
      SplitNoSeparator(".");
    } else {
      SplitJoinSep(s);
      NamesOfGood(s);
      JoinSepShape(s);
    }
    if rooted {
      assert [Separator] + j == "" + [Separator] + j;
      ElementsConcat("", j);
      assert Elements("") == [];
    }
  }

  /** The elements of a join of good names are those names. */
  lemma ElementsOfJoinSep(names: seq<string>)
    requires AllGood(names)
    ensures Elements(JoinSep(names)) == names
  {
    if names != [] {
      SplitJoinSep(names);
      NamesOfGood(names);
    }
  }

  // ---------------------------------------------------------------------
  // Clean and Join
  // ---------------------------------------------------------------------

  /** The root stack resolution of `p` (the part that `Clean` writes back). */
  function Stack(p: string): (r: seq<string>)
    requires p != ""
    ensures Resolved(IsAbs(p), r)
  {
    Resolve(IsAbs(p), [], Elements(p))
  }

  /** Go's `filepath.Clean`: the shortest lexically equivalent path. */
  function Clean(p: string): (r: string)
    ensures r != ""
    ensures p != "" ==> (IsAbs(r) <==> IsAbs(p))
  {
    if p == "" then "."
    else
      var s := Stack(p);
      RenderRooted(IsAbs(p), s);
      Render(IsAbs(p), s)
  }

  /** Go's `filepath.Join`: leading empty elements are skipped; if nothing is
      left the result is empty, otherwise the rest is joined with the
      separator and cleaned. */
  function Join(elems: seq<string>): (r: string)
    ensures r == "" <==> forall i :: 0 <= i < |elems| ==> elems[i] == ""
  {
    if elems == [] then ""
    else if elems[0] == "" then Join(elems[1..])
    else Clean(JoinSep(elems))
  }

  /** Every cleaned path has the shape Go documents. */
  lemma CleanIsClean(p: string)
    ensures IsClean(Clean(p))
  {
    if p != "" {
      var s := Stack(p);
      if s != [] {
        JoinSepShape(s);
        var j := JoinSep(s);
        if IsAbs(p) {
          var r := [Separator] + j;
          forall i, k | 0 <= i && k == i + 1 && k < |r|
            ensures !(r[i] == Separator && r[k] == Separator)
          {
            if i > 0 {
              assert r[i] == j[i - 1] && r[k] == j[k - 1];
            }
          }
        }
      }
    }
  }

  /** Cleaning a clean path changes nothing. */
  lemma CleanIdempotent(p: string)
    ensures Clean(Clean(p)) == Clean(p)
  {
    if p == "" {
      SplitNoSeparator(".");
      assert Elements(".") == [];
    } else {
      var s := Stack(p);
      var c := Clean(p);
      ElementsRender(IsAbs(p), s);
      ResolveResolved(IsAbs(p), [], s);
      assert [] + s == s;
    }
  }

  /** Cleaning a prefix first does not change what a longer path cleans to. */
  lemma CleanAppend(p: string, q: string)
    requires p != ""
    ensures Clean(Clean(p) + [Separator] + q) == Clean(p + [Separator] + q)
  {
    var rooted := IsAbs(p);
    var s := Stack(p);
    var c := Clean(p);
    assert (c + [Separator] + q)[0] == c[0];
    assert (p + [Separator] + q)[0] == p[0];
    ElementsConcat(c, q);
    ElementsConcat(p, q);
    ElementsRender(rooted, s);
    ResolveConcat(rooted, [], s, Elements(q));
    ResolveResolved(rooted, [], s);
    assert [] + s == s;
    ResolveConcat(rooted, [], Elements(p), Elements(q));
  }

  /** A trailing separator makes no difference to `Clean`. */
  lemma CleanTrailingSeparator(p: string)
    requires p != ""
    ensures Clean(p + [Separator]) == Clean(p)
  {
    assert p + [Separator] == p + [Separator] + "";
    ElementsConcat(p, "");
    assert Split("") == [""];
    assert Elements(p) + Elements("") == Elements(p);
    assert (p + [Separator])[0] == p[0];
  }

  /** A trailing separator on the first element of a join makes no
      difference, whatever follows it. */
  lemma JoinTrailingSeparator(d: string, rest: seq<string>)
    requires d != ""
    ensures Join([d + [Separator]] + rest) == Join([d] + rest)
  {
    var e := [d + [Separator]] + rest;
    var f := [d] + rest;
    if rest == [] {
      assert e == [d + [Separator]] && f == [d];
      CleanTrailingSeparator(d);
    } else {
      var r := JoinSep(rest);
      assert e[1..] == rest && f[1..] == rest;
      var pe := d + [Separator] + [Separator] + r;
      var pf := d + [Separator] + r;
      assert JoinSep(e) == pe && JoinSep(f) == pf;
      assert d + [Separator] == d + [Separator] + "";
      ElementsConcat(d, "");
      ElementsConcat(d + [Separator], r);
      ElementsConcat(d, r);
      assert Split("") == [""];
      assert Elements(pe) == Elements(pf);
      assert pe[0] == d[0] && pf[0] == d[0];
      assert Stack(pe) == Stack(pf);
    }
  }

  /** Every non-empty join is clean. */
  lemma {:induction false} JoinIsClean(elems: seq<string>)
    requires Join(elems) != ""
    ensures IsClean(Join(elems))
  {
    if elems[0] == "" {
      JoinIsClean(elems[1..]);
    } else {
      CleanIsClean(JoinSep(elems));
    }
  }

  /** A join that starts with an absolute path is absolute. */
  lemma JoinIsAbs(elems: seq<string>)
    requires |elems| > 0 && IsAbs(elems[0])
    ensures IsAbs(Join(elems))
  {
    var j := JoinSep(elems);
    if |elems| > 1 {
      assert j == elems[0] + [Separator] + JoinSep(elems[1..]);
    }
    assert j[0] == elems[0][0];
  }

  /** Joining the result of a join with one more element is the same as one
      join of all the elements. */
  lemma {:induction false} JoinNested(xs: seq<string>, c: string)
    ensures Join([Join(xs), c]) == Join(xs + [c])
  {
    if xs == [] {
      assert ["", c][1..] == [c];
    } else if xs[0] == "" {
      assert (xs + [c])[1..] == xs[1..] + [c];
      JoinNested(xs[1..], c);
    } else {
      var j := JoinSep(xs);
      JoinSepConcat(xs, [c]);
      assert JoinSep([Clean(j), c]) == Clean(j) + [Separator] + c;
      CleanAppend(j, c);
    }
  }

  /** Plain names on top of a rooted stack keep it resolved. */
  lemma ResolvedAppendSimple(s: seq<string>, names: seq<string>)
    requires Resolved(true, s) && AllSimple(names)
    ensures Resolved(true, s + names)
  {
    var r := s + names;
    forall i | 0 <= i < |r|
      ensures GoodName(r[i]) && r[i] != ".."
    {
      if i < |s| {
        assert r[i] == s[i];
      } else {
        assert r[i] == names[i - |s|];
      }
    }
  }

  /** Resolving plain names after a clean absolute directory stacks them on
      top of that directory's own elements. */
  lemma StackUnder(base: string, names: seq<string>)
    requires IsAbs(base)
    requires AllSimple(names)
    ensures Stack(Clean(base) + [Separator] + JoinSep(names)) == Stack(base) + names
  {
    var c := Clean(base);
    var s := Stack(base);
    var p := c + [Separator] + JoinSep(names);
    assert p[0] == Separator;
    assert c == Render(true, s);
    ElementsConcat(c, JoinSep(names));
    ElementsRender(true, s);
    ElementsOfJoinSep(names);
    assert Elements(p) == s + names;
    ResolvedAppendSimple(s, names);
    ResolveResolved(true, [], s + names);
    assert [] + (s + names) == s + names;
  }

  lemma ConcatAssoc<T>(a: seq<T>, b: seq<T>, c: seq<T>)
    ensures a + (b + c) == (a + b) + c
  {
  }

  lemma RenderUnder(s: seq<string>, names: seq<string>)
    requires AllGood(s)
    requires |names| > 0
    ensures Render(true, s + names) == Under(Render(true, s), JoinSep(names))
  {
    var rel := JoinSep(names);
    if s == [] {
      assert s + names == names;
    } else {
      var j := JoinSep(s);
      JoinSepConcat(s, names);
      assert s[0] != "";
      calc {
        Render(true, s + names);
        [Separator] + JoinSep(s + names);
        [Separator] + (j + [Separator] + rel);
        { ConcatAssoc([Separator], j + [Separator], rel); ConcatAssoc([Separator], j, [Separator]); }
        ([Separator] + j) + [Separator] + rel;
        { assert |[Separator] + j| > 1; }
        Under([Separator] + j, rel);
      }
    }
  }

  /** Joining plain names below an absolute directory appends them to the
      cleaned directory with single separators. */
  lemma JoinUnder(base: string, names: seq<string>)
    requires IsAbs(base)
    requires |names| > 0 && AllSimple(names)
    ensures Join([base] + names) == Under(Clean(base), JoinSep(names))
  {
    var rel := JoinSep(names);
    var elems := [base] + names;
    assert elems[1..] == names;
    assert JoinSep(elems) == base + [Separator] + rel;
    CleanAppend(base, rel);
    StackUnder(base, names);
    RenderUnder(Stack(base), names);
  }

  /** The single-name case of `JoinUnder`. */
  lemma JoinName(base: string, name: string)
    requires IsAbs(base) && SimpleName(name)
    ensures Join([base, name]) == Under(Clean(base), name)
  {
    assert [base, name] == [base] + [name];
    assert JoinSep([name]) == name;
    JoinUnder(base, [name]);
  }

  /** A rendered rooted stack is already clean. */
  lemma CleanRendered(s: seq<string>)
    requires Resolved(true, s)
    ensures Clean(Render(true, s)) == Render(true, s)
  {
    var p := Render(true, s);
    assert p[0] == Separator;
    ElementsRender(true, s);
    ResolveResolved(true, [], s);
    assert [] + s == s;
  }

  /** An absolute directory written with a trailing separator cleans to the
      same directory without it. */
  lemma CleanDirectory(names: seq<string>)
    requires |names| > 0 && AllSimple(names)
    ensures Clean([Separator] + JoinSep(names) + [Separator]) == [Separator] + JoinSep(names)
  {
    var p := Render(true, names);
    ResolvedAppendSimple([], names);
    assert [] + names == names;
    CleanRendered(names);
    CleanTrailingSeparator(p);
  }
}
