/**
 Lexical path confinement (files/files.go, validatePath), on Unix, where ToSlash changes nothing.

 filepath.Clean is modelled as a stack of components. The check compares strings; what it decides is
 stated on components, and on the place a path names in a tree without links.
 */
module PathConfine {
  import opened Base

  // ---- Components ----

  /** The pieces of s between slashes; never empty, and no piece has a slash. */
  function Split(s: string): (r: seq<string>)
    ensures r != [] && forall c | c in r :: '/' !in c
  {
    if s == "" then [""]
    else
      var rest := Split(s[1..]);
      if s[0] == '/' then [""] + rest else [[s[0]] + rest[0]] + rest[1..]
  }

  function Join(cs: seq<string>): string
  {
    if cs == [] then "" else if |cs| == 1 then cs[0] else cs[0] + "/" + Join(cs[1..])
  }

  predicate Absolute(s: string)
  {
    s != "" && s[0] == '/'
  }

  /** A cleaned path: whether it starts at the root, and its components. */
  datatype Path = Path(rooted: bool, comps: seq<string>)

  function Push(rooted: bool, stack: seq<string>, c: string): seq<string>
  {
    if c == "" || c == "." then stack
    else if c != ".." then stack + [c]
    else if stack != [] && stack[|stack| - 1] != ".." then stack[..|stack| - 1]
    else if rooted then stack
    else stack + [".."]
  }

  function PushAll(rooted: bool, stack: seq<string>, parts: seq<string>): seq<string>
    decreases |parts|
  {
    if parts == [] then stack else PushAll(rooted, Push(rooted, stack, parts[0]), parts[1..])
  }

  function Parse(s: string): Path
  {
    Path(Absolute(s), PushAll(Absolute(s), [], Split(s)))
  }

  function Show(p: Path): string
  {
    if p.rooted then "/" + Join(p.comps) else if p.comps == [] then "." else Join(p.comps)
  }

  /** filepath.Clean */
  function Clean(s: string): string
  {
    Show(Parse(s))
  }

  // ---- Cleaned paths are in normal form ----

  predicate Name(c: string)
  {
    c != "" && c != "." && '/' !in c
  }

  predicate NormalComps(rooted: bool, cs: seq<string>)
  {
    && (forall c | c in cs :: Name(c))
    && (rooted ==> ".." !in cs)
    && (forall i, j | 0 <= i < j < |cs| && cs[j] == ".." :: cs[i] == "..")
  }

  predicate Normal(p: Path)
  {
    NormalComps(p.rooted, p.comps)
  }

  lemma {:induction false} PushAllNormal(rooted: bool, stack: seq<string>, parts: seq<string>)
    requires NormalComps(rooted, stack) && forall c | c in parts :: '/' !in c
    ensures NormalComps(rooted, PushAll(rooted, stack, parts))
    decreases |parts|
  {
    if parts != [] {
      PushAllNormal(rooted, Push(rooted, stack, parts[0]), parts[1..]);
    }
  }

  lemma ParseIsNormal(s: string)
    ensures Normal(Parse(s))
  {
    PushAllNormal(Parse(s).rooted, [], Split(s));
  }

  lemma {:induction false} PushNormal(rooted: bool, stack: seq<string>, parts: seq<string>)
    requires NormalComps(rooted, stack + parts)
    ensures PushAll(rooted, stack, parts) == stack + parts
    decreases |parts|
  {
    if parts == [] {
      assert stack + parts == stack;
    } else {
      var c := parts[0];
      assert (stack + parts)[|stack|] == c && c in stack + parts;
      if c == ".." && stack != [] {
        assert (stack + parts)[|stack| - 1] == "..";
      }
      assert Push(rooted, stack, c) == stack + [c];
      assert stack + [c] + parts[1..] == stack + parts;
      PushNormal(rooted, stack + [c], parts[1..]);
    }
  }

  lemma {:induction false} SplitOne(c: string)
    requires '/' !in c
    ensures Split(c) == [c]
  {
    if c != "" {
      SplitOne(c[1..]);
      assert [c[0]] + c[1..] == c;
    }
  }

  lemma {:induction false} SplitAtSlash(c: string, rest: string)
    requires '/' !in c
    ensures Split(c + "/" + rest) == [c] + Split(rest)
  {
    var s := c + "/" + rest;
    if c == "" {
      assert s[1..] == rest;
    } else {
      SplitAtSlash(c[1..], rest);
      assert s[1..] == c[1..] + "/" + rest;
      assert [c[0]] + c[1..] == c;
    }
  }

  lemma {:induction false} SplitJoin(cs: seq<string>)
    requires cs != [] && forall c | c in cs :: '/' !in c
    ensures Split(Join(cs)) == cs
  {
    if |cs| == 1 {
      SplitOne(cs[0]);
    } else {
      SplitAtSlash(cs[0], Join(cs[1..]));
      SplitJoin(cs[1..]);
    }
  }

  /** A cleaned path is read back as it was. */
  lemma ParseShow(p: Path)
    requires Normal(p)
    ensures Parse(Show(p)) == p
  {
    var cs := p.comps;
    assert [] + cs == cs;
    if cs == [] {
      assert Split("/") == ["", ""] by { SplitAtSlash("", ""); assert "" + "/" + "" == "/"; }
      assert Split(".") == ["."] by { SplitOne("."); }
      assert PushAll(true, [], ["", ""]) == PushAll(true, [], [""]) == [];
      assert PushAll(false, [], ["."]) == [];
    } else {
      SplitJoin(cs);
      PushNormal(p.rooted, [], cs);
      JoinStart(cs);
      if p.rooted {
        SplitAtSlash("", Join(cs));
        assert "" + "/" + Join(cs) == Show(p);
        assert ([""] + cs)[1..] == cs;
      }
    }
  }

  lemma JoinStart(cs: seq<string>)
    requires cs != [] && forall c | c in cs :: Name(c)
    ensures Join(cs) != "" && Join(cs)[0] != '/'
  {
    assert cs[0] in cs && cs[0][0] in cs[0];
  }

  /** Cleaning twice is cleaning once. */
  lemma CleanIdempotent(s: string)
    ensures Clean(Clean(s)) == Clean(s)
  {
    ParseIsNormal(s);
    ParseShow(Parse(s));
  }

  // ---- The place a path names ----

  /** One step of a walk from a directory, given by its components below the root. */
  function Step(dir: seq<string>, c: string): seq<string>
  {
    if c == "" || c == "." then dir
    else if c != ".." then dir + [c]
    else if dir == [] then []
    else dir[..|dir| - 1]
  }

  function Walk(dir: seq<string>, parts: seq<string>): seq<string>
    decreases |parts|
  {
    if parts == [] then dir else Walk(Step(dir, parts[0]), parts[1..])
  }

  /** Where s leads for a process whose working directory is cwd. */
  function Place(cwd: seq<string>, s: string): seq<string>
  {
    Walk(if Absolute(s) then [] else cwd, Split(s))
  }

  lemma {:induction false} WalkAppend(dir: seq<string>, a: seq<string>, b: seq<string>)
    ensures Walk(dir, a + b) == Walk(Walk(dir, a), b)
    decreases |a|
  {
    if a == [] {
      assert a + b == b;
    } else {
      assert (a + b)[1..] == a[1..] + b;
      WalkAppend(Step(dir, a[0]), a[1..], b);
    }
  }

  lemma WalkPush(dir: seq<string>, rooted: bool, stack: seq<string>, c: string)
    requires rooted ==> dir == []
    requires NormalComps(rooted, stack)
    ensures Walk(dir, Push(rooted, stack, c)) == Step(Walk(dir, stack), c)
  {
    WalkAppend(dir, stack, [c]);
    assert stack != [] ==> stack[|stack| - 1] in stack;
    assert Walk(Walk(dir, stack), [c]) == Step(Walk(dir, stack), c);
    if c == ".." && stack != [] && stack[|stack| - 1] != ".." {
      var init, last := stack[..|stack| - 1], stack[|stack| - 1];
      assert stack == init + [last] && last in stack;
      WalkAppend(dir, init, [last]);
      assert Walk(Walk(dir, init), [last]) == Walk(dir, init) + [last];
    }
  }

  lemma {:induction false} WalkPushAll(dir: seq<string>, rooted: bool, stack: seq<string>, parts: seq<string>)
    requires rooted ==> dir == []
    requires NormalComps(rooted, stack) && forall c | c in parts :: '/' !in c
    ensures Walk(dir, PushAll(rooted, stack, parts)) == Walk(Walk(dir, stack), parts)
    decreases |parts|
  {
    if parts != [] {
      WalkPush(dir, rooted, stack, parts[0]);
      PushAllNormal(rooted, stack, [parts[0]]);
      assert PushAll(rooted, Push(rooted, stack, parts[0]), []) == Push(rooted, stack, parts[0]);
      assert NormalComps(rooted, Push(rooted, stack, parts[0]));
      WalkPushAll(dir, rooted, Push(rooted, stack, parts[0]), parts[1..]);
    }
  }

  lemma {:induction false} WalkNames(dir: seq<string>, cs: seq<string>)
    requires forall c | c in cs :: Name(c) && c != ".."
    ensures Walk(dir, cs) == dir + cs
    decreases |cs|
  {
    if cs != [] {
      assert cs[0] in cs;
      WalkNames(Step(dir, cs[0]), cs[1..]);
    }
  }

  lemma PlaceOfParsed(cwd: seq<string>, s: string)
    ensures Place(cwd, s) == Walk(if Parse(s).rooted then [] else cwd, Parse(s).comps)
  {
    var p := Parse(s);
    var dir := if p.rooted then [] else cwd;
    WalkPushAll(dir, p.rooted, [], Split(s));
  }

  /** The cleaned path names the same place, from every working directory. */
  lemma CleanNamesTheSamePlace(cwd: seq<string>, s: string)
    ensures Place(cwd, Clean(s)) == Place(cwd, s)
  {
    ParseIsNormal(s);
    ParseShow(Parse(s));
    PlaceOfParsed(cwd, s);
    PlaceOfParsed(cwd, Clean(s));
  }

  /** A cleaned absolute path spells out its place. */
  lemma PlaceOfAbsolute(cwd: seq<string>, s: string)
    requires Absolute(s)
    ensures Place(cwd, s) == Parse(s).comps
  {
    ParseIsNormal(s);
    PlaceOfParsed(cwd, s);
    WalkNames([], Parse(s).comps);
  }

  // ---- The string comparison decides a component prefix ----

  /** strings.TrimRight(s, "/") */
  function TrimRight(s: string): string
  {
    if s != "" && s[|s| - 1] == '/' then TrimRight(s[..|s| - 1]) else s
  }

  predicate Admits(prefix: string, norm: string)
  {
    var p := TrimRight(Clean(prefix));
    norm == p || p + "/" <= norm
  }

  /** What the comparison means: the components of a extend to those of b. The prefix "." admits only itself. */
  predicate Extends(a: Path, b: Path)
  {
    && a.rooted == b.rooted
    && a.comps <= b.comps
    && (!a.rooted && a.comps == [] ==> b.comps == [])
  }

  /** Every component with its slash. */
  function Slashed(cs: seq<string>): string
  {
    if cs == [] then "" else cs[0] + "/" + Slashed(cs[1..])
  }

  lemma {:induction false} JoinSlashed(cs: seq<string>)
    requires cs != []
    ensures Join(cs) + "/" == Slashed(cs)
  {
    if |cs| > 1 {
      JoinSlashed(cs[1..]);
      assert Join(cs) + "/" == cs[0] + "/" + (Join(cs[1..]) + "/");
    } else {
      assert Slashed(cs) == cs[0] + "/" + "";
    }
  }

  /** The first slash of x + "/" + s is the one after x. */
  lemma SlashAt(x: string, s: string, i: nat)
    requires '/' !in x && i <= |x|
    ensures (x + "/" + s)[i] == '/' <==> i == |x|
  {
    assert i < |x| ==> (x + "/" + s)[i] == x[i];
  }

  lemma SameUpToSlash(x: string, s: string, y: string, t: string)
    requires '/' !in x && '/' !in y
    requires x + "/" + s <= y + "/" + t
    ensures x == y && s <= t
  {
    var a, b := x + "/" + s, y + "/" + t;
    var i := Min(|x|, |y|);
    SlashAt(x, s, i);
    SlashAt(y, t, i);
    assert x == a[..|x|] == b[..|x|] == y;
    assert a[|x| + 1..] == s && b[|x| + 1..] == t;
    assert forall j | 0 <= j < |s| :: s[j] == a[j + |x| + 1] == b[j + |x| + 1] == t[j];
  }

  lemma PrefixAtSlash(x: string, s: string, y: string, t: string)
    requires '/' !in x && '/' !in y
    ensures x + "/" + s <= y + "/" + t <==> x == y && s <= t
  {
    if x + "/" + s <= y + "/" + t {
      SameUpToSlash(x, s, y, t);
    }
  }

  lemma {:induction false} SlashedPrefix(a: seq<string>, b: seq<string>)
    requires forall c | c in a :: '/' !in c
    requires forall c | c in b :: '/' !in c
    ensures Slashed(a) <= Slashed(b) <==> a <= b
  {
    if a != [] && b != [] {
      PrefixAtSlash(a[0], Slashed(a[1..]), b[0], Slashed(b[1..]));
      SlashedPrefix(a[1..], b[1..]);
      assert a == [a[0]] + a[1..] && b == [b[0]] + b[1..];
    }
  }

  lemma CheckWithSlash(p: string, n: string)
    ensures (n == p || p + "/" <= n) <==> p + "/" <= n + "/"
  {
    if p + "/" <= n + "/" {
      if |p| == |n| {
        assert p == (p + "/")[..|p|] == (n + "/")[..|p|] == n;
      } else {
        assert (n + "/")[..|p| + 1] == n[..|p| + 1];
      }
    }
  }

  lemma {:induction false} JoinEnd(cs: seq<string>)
    requires cs != [] && forall c | c in cs :: Name(c)
    ensures Join(cs) != "" && Join(cs)[|Join(cs)| - 1] != '/'
  {
    if |cs| == 1 {
      assert cs[0] in cs;
      assert cs[0][|cs[0]| - 1] in cs[0];
    } else {
      JoinEnd(cs[1..]);
    }
  }

  /** Only the root is changed by the trimming. */
  lemma TrimmedClean(p: Path)
    requires Normal(p)
    ensures TrimRight(Show(p)) == if p == Path(true, []) then "" else Show(p)
  {
    if p.comps != [] {
      JoinEnd(p.comps);
    } else if p.rooted {
      assert TrimRight("/") == TrimRight("/"[..0]);
    }
  }

  lemma AdmitsRelative(a: Path, b: Path)
    requires Normal(a) && Normal(b) && !a.rooted && !b.rooted
    ensures Show(a) + "/" <= Show(b) + "/" <==> Extends(a, b)
  {
    // "." is no component, so it stands for itself in the comparison
    var x := if a.comps == [] then ["."] else a.comps;
    var y := if b.comps == [] then ["."] else b.comps;
    assert forall c | c in x :: '/' !in c;
    assert forall c | c in y :: '/' !in c;
    assert Show(a) == Join(x) && Show(b) == Join(y);
    JoinSlashed(x);
    JoinSlashed(y);
    SlashedPrefix(x, y);
    assert x[0] in x && y[0] in y;
  }

  lemma AdmitsRooted(a: Path, b: Path)
    requires Normal(a) && Normal(b) && a.rooted && b.rooted && a.comps != []
    ensures Show(a) + "/" <= Show(b) + "/" <==> Extends(a, b)
  {
    JoinStart(a.comps);
    JoinSlashed(a.comps);
    var s := Show(a) + "/";
    assert s == "/" + Slashed(a.comps);
    if b.comps == [] {
      assert s[1] == Join(a.comps)[0];
      assert (Show(b) + "/")[1] == '/';
    } else {
      JoinSlashed(b.comps);
      var t := Show(b) + "/";
      assert t == "/" + Slashed(b.comps);
      assert s[1..] == Slashed(a.comps) && t[1..] == Slashed(b.comps);
      SlashedPrefix(a.comps, b.comps);
    }
  }

  /** A rooted path starts with a slash, a relative one does not. */
  lemma ShowStart(p: Path)
    requires Normal(p)
    ensures Show(p) != "" && (Show(p)[0] == '/' <==> p.rooted)
  {
    if p.comps != [] {
      JoinStart(p.comps);
    }
  }

  /** The string comparison of validatePath is exactly the comparison of components. */
  lemma AdmitsIff(prefix: string, path: string)
    ensures Admits(prefix, Clean(path)) <==> Extends(Parse(prefix), Parse(path))
  {
    var a, b := Parse(prefix), Parse(path);
    ParseIsNormal(prefix);
    ParseIsNormal(path);
    TrimmedClean(a);
    ShowStart(a);
    ShowStart(b);
    CheckWithSlash(TrimRight(Show(a)), Show(b));
    if a == Path(true, []) {
      assert "" + "/" == "/";
      assert "/" <= Show(b) + "/" <==> Show(b)[0] == '/';
    } else if a.rooted != b.rooted {
      assert (Show(a) + "/")[0] == Show(a)[0] && (Show(b) + "/")[0] == Show(b)[0];
    } else if a.rooted {
      AdmitsRooted(a, b);
    } else {
      AdmitsRelative(a, b);
    }
  }

  // ---- validatePath ----

  datatype PathError = Blank | Traversal(path: string, resolved: string)

  /** unicode.IsSpace */
  predicate IsSpace(c: char)
  {
    var u := c as int;
    || 9 <= u <= 13 || u == 0x20 || u == 0x85 || u == 0xA0 || u == 0x1680 || 0x2000 <= u <= 0x200A
    || u == 0x2028 || u == 0x2029 || u == 0x202F || u == 0x205F || u == 0x3000
  }

  /** strings.TrimSpace(s) == "" */
  predicate IsBlank(s: string)
  {
    forall c | c in s :: IsSpace(c)
  }

  predicate Confined(path: string, allowed: seq<string>)
  {
    exists prefix | prefix in allowed :: Extends(Parse(prefix), Parse(path))
  }

  predicate Accepts(path: string, allowed: seq<string>)
  {
    !IsBlank(path) && Confined(path, allowed)
  }

  method ValidatePath(path: string, allowed: seq<string>) returns (r: Result<string, PathError>)
    ensures r.Ok? <==> Accepts(path, allowed)
    ensures r.Ok? ==> r.value == Clean(path)
    ensures r.Err? ==> r.error == if IsBlank(path) then Blank else Traversal(path, Clean(path))
  {
    if IsBlank(path) {
      return Err(Blank);
    }
    var norm := Clean(path);
    for i := 0 to |allowed|
      invariant forall j | 0 <= j < i :: !Extends(Parse(allowed[j]), Parse(path))
    {
      AdmitsIff(allowed[i], path);
      if Admits(allowed[i], norm) {
        return Ok(norm);
      }
    }
    return Err(Traversal(path, norm));
  }

  /**
   Checking an accepted result again gives it back, except that a blank result is now refused: cleaning
   can leave only white space of a relative path that had more.
   */
  lemma AcceptedAgainIff(path: string, allowed: seq<string>)
    requires Accepts(path, allowed)
    ensures Clean(Clean(path)) == Clean(path)
    ensures Accepts(Clean(path), allowed) <==> !IsBlank(Clean(path))
    ensures Absolute(path) ==> !IsBlank(Clean(path))
  {
    CleanIdempotent(path);
    ParseIsNormal(path);
    ParseShow(Parse(path));
    if Parse(path).rooted {
      assert '/' == Clean(path)[0] && '/' in Clean(path);
    }
  }

  lemma BlankParse()
    ensures Parse(" ") == Parse("./ ") == Path(false, [" "])
  {
    SplitOne(" ");
    SplitAtSlash(".", " ");
    assert "." + "/" + " " == "./ ";
    assert PushAll(false, [], [".", " "]) == PushAll(false, [], [" "]) == [" "];
  }

  lemma BlankResult()
    ensures Accepts("./ ", [" "]) && !Accepts(Clean("./ "), [" "])
  {
    BlankParse();
    assert "./ "[0] == '.' && '.' in "./ ";
    assert " " in [" "];
  }

  /**
   With absolute prefixes, a path is accepted exactly when it is absolute and its place lies at or below
   the place of a prefix, however many "..", "." and doubled slashes either is written with.
   */
  lemma ConfinedIff(path: string, allowed: seq<string>, cwd: seq<string>)
    requires forall prefix | prefix in allowed :: Absolute(prefix)
    ensures Confined(path, allowed) <==>
            Absolute(path) && exists prefix | prefix in allowed :: Place(cwd, prefix) <= Place(cwd, path)
  {
    if Absolute(path) {
      PlaceOfAbsolute(cwd, path);
    }
    forall prefix | prefix in allowed
      ensures Extends(Parse(prefix), Parse(path)) <==> Absolute(path) && Place(cwd, prefix) <= Place(cwd, path)
    {
      PlaceOfAbsolute(cwd, prefix);
    }
  }

  /** An accepted result is absolute and spells out its components: none is "..", "." or empty. */
  lemma ResultIsPlain(path: string, allowed: seq<string>)
    requires forall prefix | prefix in allowed :: Absolute(prefix)
    requires Confined(path, allowed)
    ensures Absolute(Clean(path))
    ensures Clean(path) == "/" ||
            (Split(Clean(path))[0] == "" && forall c | c in Split(Clean(path))[1..] :: Name(c) && c != "..")
  {
    var p := Parse(path);
    ParseIsNormal(path);
    if p.comps != [] {
      SplitJoin(p.comps);
      SplitAtSlash("", Join(p.comps));
      assert "" + "/" + Join(p.comps) == Clean(path);
    }
  }

  /** A sibling whose name only starts like the prefix is refused. */
  lemma SiblingRefused(prefix: string, path: string, tail: string)
    requires Clean(prefix) != "/"
    requires Clean(path) == Clean(prefix) + tail && tail != "" && tail[0] != '/'
    ensures !Accepts(path, [prefix])
  {
    ParseIsNormal(prefix);
    TrimmedClean(Parse(prefix));
    AdmitsIff(prefix, path);
    assert Clean(path)[|Clean(prefix)|] == tail[0];
    assert (Clean(prefix) + "/")[|Clean(prefix)|] == '/';
  }
}
