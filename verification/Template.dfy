/**
 Hook templates (hooks/template.go, renderAny in hooks/executor.go).

 strings.NewReplacer walks the text once from the left; where several old strings match it takes the
 first in argument order, and it never looks at what it has written. The arguments come from ranging
 over a map, so their order is arbitrary.
 */
module Template {
  import opened Base

  type Vars = map<string, string>
  type Pair = (string, string)   // old string, new string

  /** "{{" + k + "}}" */
  function Token(k: string): string
  {
    ['{', '{'] + k + ['}', '}']
  }

  /** The first pair, in argument order, whose old string is at the front of s. */
  function FirstMatch(pairs: seq<Pair>, s: string): (r: Option<Pair>)
    ensures r.Some? ==> r.value in pairs && r.value.0 <= s
    ensures r.None? ==> forall p | p in pairs :: !(p.0 <= s)
  {
    if pairs == [] then None
    else if pairs[0].0 <= s then Some(pairs[0])
    else FirstMatch(pairs[1..], s)
  }

  /** strings.NewReplacer(pairs...).Replace(s), for non-empty old strings. */
  function Replace(pairs: seq<Pair>, s: string): string
    decreases |s|
  {
    if s == "" then ""
    else
      match FirstMatch(pairs, s)
      case Some(p) => if p.0 == "" then [s[0]] + Replace(pairs, s[1..]) else p.1 + Replace(pairs, s[|p.0|..])
      case None => [s[0]] + Replace(pairs, s[1..])
  }

  ghost predicate FromMap(p: Pair, vars: Vars)
  {
    exists k :: k in vars && p == (Token(k), vars[k])
  }

  /** pairs lists the map, each key once, in some order. */
  ghost predicate Lists(pairs: seq<Pair>, vars: Vars)
  {
    && |pairs| == |vars|
    && (forall p | p in pairs :: FromMap(p, vars))
    && (forall k | k in vars :: (Token(k), vars[k]) in pairs)
  }

  /** What Render may give, as the order of the map is arbitrary each time. */
  ghost predicate Renders(tmpl: string, vars: Vars, out: string)
  {
    exists pairs :: Lists(pairs, vars) && out == Replace(pairs, tmpl)
  }

  method Render(tmpl: string, vars: Vars) returns (out: string)
    ensures Renders(tmpl, vars, out)
    ensures PrefixFree(vars.Keys) ==> out == Rendered(vars, tmpl)
  {
    var pairs: seq<Pair> := [];
    if |vars| == 0 {
      NothingToReplace(tmpl);
      assert Lists([], vars);
      if PrefixFree(vars.Keys) {
        AnyOrderRenders([], vars, tmpl);
      }
      return tmpl;
    }
    var todo := vars.Keys;
    while todo != {}
      invariant todo <= vars.Keys && |pairs| + |todo| == |vars|
      invariant forall p | p in pairs :: FromMap(p, vars)
      invariant forall k | k in vars && k !in todo :: (Token(k), vars[k]) in pairs
    {
      var k :| k in todo;
      todo := todo - {k};
      pairs := pairs + [(Token(k), vars[k])];
    }
    assert Lists(pairs, vars);
    out := Replace(pairs, tmpl);
    if PrefixFree(vars.Keys) {
      AnyOrderRenders(pairs, vars, tmpl);
    }
  }

  lemma {:induction false} NothingToReplace(s: string)
    ensures Replace([], s) == s
    decreases |s|
  {
    if s != "" {
      NothingToReplace(s[1..]);
    }
  }

  // ---- What rendering means, without any order ----

  /** No token is a proper prefix of another: tokens of different keys are never equal. */
  ghost predicate PrefixFree(keys: set<string>)
  {
    forall k, l | k in keys && l in keys && Token(k) <= Token(l) :: k == l
  }

  /** Some known token starts s. */
  ghost predicate StartsWithToken(keys: set<string>, s: string)
  {
    exists k :: k in keys && Token(k) <= s
  }

  /** One pass from the left: a known token becomes its value, anything else stays. */
  ghost function Rendered(vars: Vars, s: string): string
    decreases |s|
  {
    if s == "" then ""
    else if StartsWithToken(vars.Keys, s) then
      var k :| k in vars.Keys && Token(k) <= s;
      vars[k] + Rendered(vars, s[|Token(k)|..])
    else [s[0]] + Rendered(vars, s[1..])
  }

  lemma PrefixesOfOne(a: string, b: string, s: string)
    requires a <= s && b <= s
    ensures a <= b || b <= a
  {
    if |a| <= |b| {
      assert a == b[..|a|];
    } else {
      assert b == a[..|b|];
    }
  }

  lemma TokenInjective(k: string, l: string)
    ensures Token(k) == Token(l) ==> k == l
  {
    if Token(k) == Token(l) {
      assert k == Token(k)[2..|Token(k)| - 2];
      assert l == Token(l)[2..|Token(l)| - 2];
    }
  }

  lemma OnlyOneToken(keys: set<string>, k: string, l: string, s: string)
    requires PrefixFree(keys) && k in keys && l in keys && Token(k) <= s && Token(l) <= s
    ensures k == l
  {
    PrefixesOfOne(Token(k), Token(l), s);
  }

  /** There is no choice in Rendered: a token at the front is the only one there. */
  lemma RenderedAtToken(vars: Vars, k: string, s: string)
    requires PrefixFree(vars.Keys) && k in vars && Token(k) <= s
    ensures Rendered(vars, s) == vars[k] + Rendered(vars, s[|Token(k)|..])
  {
    assert StartsWithToken(vars.Keys, s);
    var l :| l in vars.Keys && Token(l) <= s && Rendered(vars, s) == vars[l] + Rendered(vars, s[|Token(l)|..]);
    OnlyOneToken(vars.Keys, k, l, s);
  }

  /** What Replace does at the front of s, in terms of the map. */
  lemma FrontToken(pairs: seq<Pair>, vars: Vars, s: string) returns (k: Option<string>)
    requires Lists(pairs, vars) && s != ""
    ensures k.Some? ==> k.value in vars && Token(k.value) <= s &&
                        Replace(pairs, s) == vars[k.value] + Replace(pairs, s[|Token(k.value)|..])
    ensures k.None? ==> !StartsWithToken(vars.Keys, s) && Replace(pairs, s) == [s[0]] + Replace(pairs, s[1..])
  {
    match FirstMatch(pairs, s) {
      case Some(p) =>
        assert FromMap(p, vars);
        var l :| l in vars && p == (Token(l), vars[l]);
        k := Some(l);
      case None =>
        k := None;
    }
  }

  /** For prefix-free tokens the order of the map does not matter: every order renders the same string. */
  lemma {:induction false} AnyOrderRenders(pairs: seq<Pair>, vars: Vars, s: string)
    requires Lists(pairs, vars) && PrefixFree(vars.Keys)
    ensures Replace(pairs, s) == Rendered(vars, s)
    decreases |s|
  {
    if s != "" {
      var k := FrontToken(pairs, vars, s);
      match k {
        case Some(key) =>
          RenderedAtToken(vars, key, s);
          AnyOrderRenders(pairs, vars, s[|Token(key)|..]);
        case None =>
          AnyOrderRenders(pairs, vars, s[1..]);
      }
    }
  }

  /** A shorter token at the front of a longer one leaves its closing brace inside the longer key. */
  lemma BraceInside(k: string, l: string)
    requires Token(k) <= Token(l)
    ensures |k| < |l| ==> '}' in l
    ensures |k| <= |l|
  {
    assert |Token(k)| == |k| + 4 && |Token(l)| == |l| + 4;
    if |k| < |l| {
      assert Token(l)[|k| + 2] == Token(k)[|k| + 2] == '}';
      assert l[|k|] == '}';
    }
  }

  /** Keys without a closing brace, such as the five of buildVars, give prefix-free tokens. */
  lemma PlainKeysArePrefixFree(keys: set<string>)
    requires forall k | k in keys :: '}' !in k
    ensures PrefixFree(keys)
  {
    forall k, l | k in keys && l in keys && Token(k) <= Token(l) ensures k == l {
      BraceInside(k, l);
      assert Token(l) == Token(l)[..|Token(k)|];
      TokenInjective(k, l);
    }
  }

  const BUILD_VARS: set<string> := {"event", "hostname", "status", "timestamp", "enrolled_at"}

  lemma BuildVarsArePrefixFree()
    ensures PrefixFree(BUILD_VARS)
  {
    PlainKeysArePrefixFree(BUILD_VARS);
  }

  /** Repeat a character. */
  function Fill(n: nat): string
  {
    seq(n, _ => 'a')
  }

  lemma {:induction false} ReplaceShrinks(pairs: seq<Pair>, s: string)
    requires forall p | p in pairs && |p.0| <= |s| :: p.1 == ""
    ensures |Replace(pairs, s)| <= |s|
    decreases |s|
  {
    if s != "" {
      match FirstMatch(pairs, s) {
        case Some(p) =>
          if p.0 == "" {
            ReplaceShrinks(pairs, s[1..]);
          } else {
            ReplaceShrinks(pairs, s[|p.0|..]);
          }
        case None => ReplaceShrinks(pairs, s[1..]);
      }
    }
  }

  /** Every template renders to one string, whatever the values and the iteration order. */
  ghost predicate Deterministic(keys: set<string>)
  {
    forall vars: Vars, p, q, tmpl | vars.Keys == keys && Lists(p, vars) && Lists(q, vars) ::
      Replace(p, tmpl) == Replace(q, tmpl)
  }

  /** A listing of some of the keys. */
  lemma {:induction false} SomeListing(vars: Vars, keys: set<string>) returns (pairs: seq<Pair>)
    requires keys <= vars.Keys
    ensures |pairs| == |keys|
    ensures forall p | p in pairs :: FromMap(p, vars)
    ensures forall k | k in keys :: (Token(k), vars[k]) in pairs
  {
    if keys == {} {
      pairs := [];
    } else {
      var k :| k in keys;
      pairs := SomeListing(vars, keys - {k});
      pairs := [(Token(k), vars[k])] + pairs;
    }
  }

  /** A listing of the whole map that starts with a chosen key. */
  lemma ListingFrom(vars: Vars, k: string) returns (pairs: seq<Pair>)
    requires k in vars
    ensures Lists(pairs, vars) && pairs[0] == (Token(k), vars[k])
  {
    pairs := SomeListing(vars, vars.Keys - {k});
    pairs := [(Token(k), vars[k])] + pairs;
  }

  /** Where one token is a proper prefix of another, the order of the two decides what is rendered. */
  lemma OverlappingTokens(keys: set<string>, k: string, l: string)
    requires k in keys && l in keys && k != l && Token(k) <= Token(l)
    ensures !Deterministic(keys)
  {
    var tmpl := Token(l);
    var long := Fill(|tmpl| + 1);
    var vars: Vars := map x | x in keys :: if x == l then long else "";
    var p := ListingFrom(vars, k);
    var q := ListingFrom(vars, l);
    if |Token(k)| == |Token(l)| {
      assert Token(l) == Token(l)[..|Token(k)|];
      TokenInjective(k, l);
    }
    assert |Replace(p, tmpl)| < |tmpl| by {
      // the short token eats the front, and the rest is too short for the long one
      assert FirstMatch(p, tmpl) == Some(p[0]);
      var rest := tmpl[|Token(k)|..];
      forall e | e in p && |e.0| <= |rest| ensures e.1 == "" {
        assert FromMap(e, vars);
      }
      ReplaceShrinks(p, rest);
    }
    assert |Replace(q, tmpl)| >= |long| by {
      assert FirstMatch(q, tmpl) == Some(q[0]);
    }
    assert vars.Keys == keys;
  }

  /** So the rendering is independent of the map's order exactly when no token is a prefix of another. */
  lemma DeterministicIff(keys: set<string>)
    ensures Deterministic(keys) <==> PrefixFree(keys)
  {
    if PrefixFree(keys) {
      forall vars: Vars, p, q, tmpl | vars.Keys == keys && Lists(p, vars) && Lists(q, vars)
        ensures Replace(p, tmpl) == Replace(q, tmpl)
      {
        AnyOrderRenders(p, vars, tmpl);
        AnyOrderRenders(q, vars, tmpl);
      }
    } else {
      var k, l :| k in keys && l in keys && Token(k) <= Token(l) && k != l;
      OverlappingTokens(keys, k, l);
    }
  }

  // ---- Templates as segments ----

  datatype Segment = Lit(text: string) | Var(key: string)

  function Source(segs: seq<Segment>): string
  {
    if segs == [] then "" else (match segs[0] case Lit(t) => t case Var(k) => Token(k)) + Source(segs[1..])
  }

  function Substituted(vars: Vars, segs: seq<Segment>): string
    requires forall g | g in segs && g.Var? :: g.key in vars
  {
    if segs == [] then "" else (match segs[0] case Lit(t) => t case Var(k) => vars[k]) + Substituted(vars, segs[1..])
  }

  /** No known token starts inside the literal, even one that runs on into the text after it. */
  ghost predicate CleanLiteral(keys: set<string>, text: string, after: string)
  {
    forall i | 0 <= i < |text| :: !StartsWithToken(keys, (text + after)[i..])
  }

  ghost predicate CleanSegments(keys: set<string>, segs: seq<Segment>)
  {
    segs == [] ||
    ((segs[0].Lit? ==> CleanLiteral(keys, segs[0].text, Source(segs[1..]))) && CleanSegments(keys, segs[1..]))
  }

  lemma {:induction false} RenderLiteral(vars: Vars, text: string, after: string)
    requires CleanLiteral(vars.Keys, text, after)
    ensures Rendered(vars, text + after) == text + Rendered(vars, after)
    decreases |text|
  {
    var s := text + after;
    if text == "" {
      assert s == after;
    } else {
      assert s[0..] == s && s[1..] == text[1..] + after;
      forall i | 0 <= i < |text[1..]| ensures !StartsWithToken(vars.Keys, (text[1..] + after)[i..]) {
        assert (text[1..] + after)[i..] == s[i + 1..];
      }
      RenderLiteral(vars, text[1..], after);
      assert !StartsWithToken(vars.Keys, s);
      assert [text[0]] + (text[1..] + Rendered(vars, after)) == text + Rendered(vars, after);
    }
  }

  lemma RenderVariable(vars: Vars, k: string, after: string)
    requires PrefixFree(vars.Keys) && k in vars
    ensures Rendered(vars, Token(k) + after) == vars[k] + Rendered(vars, after)
  {
    var s := Token(k) + after;
    RenderedAtToken(vars, k, s);
    assert s[|Token(k)|..] == after;
  }

  /**
   A template of literals and variables renders to the literals and the values, whatever the values
   contain: substituted text is never expanded again.
   */
  lemma {:induction false} RenderSegments(vars: Vars, segs: seq<Segment>)
    requires PrefixFree(vars.Keys) && CleanSegments(vars.Keys, segs)
    requires forall g | g in segs && g.Var? :: g.key in vars
    ensures Rendered(vars, Source(segs)) == Substituted(vars, segs)
  {
    if segs != [] {
      RenderSegments(vars, segs[1..]);
      match segs[0]
      case Lit(t) => RenderLiteral(vars, t, Source(segs[1..]));
      case Var(k) => RenderVariable(vars, k, Source(segs[1..]));
    }
  }

  /** An unknown token is left as it is. */
  lemma UnknownTokenStays(vars: Vars, u: string, after: string)
    requires u !in vars && '{' !in u && '}' !in u && forall k | k in vars :: '}' !in k && '{' !in k
    ensures Rendered(vars, Token(u) + after) == Token(u) + Rendered(vars, after)
  {
    var s := Token(u) + after;
    forall i | 0 <= i < |Token(u)| ensures !StartsWithToken(vars.Keys, s[i..]) {
      forall k | k in vars ensures !(Token(k) <= s[i..]) {
        if Token(k) <= s[i..] {
          NoOtherToken(u, k, after, i);
        }
      }
    }
    RenderLiteral(vars, Token(u), after);
  }

  lemma NoOtherToken(u: string, k: string, after: string, i: nat)
    requires '{' !in u && '}' !in u && '}' !in k && '{' !in k && i < |Token(u)|
    requires Token(k) <= (Token(u) + after)[i..]
    ensures i == 0 && k == u
  {
    var s := Token(u) + after;
    BracesOf(u, i);
    assert s[i] == Token(k)[0] == '{' && s[i] == Token(u)[i];
    assert s[i + 1] == Token(k)[1] == '{';
    if i == 1 {
      BracesOf(u, 2);
    }
    assert s[i..] == s;
    FirstClosingBrace(k, |u| + 2);
    FirstClosingBrace(u, |k| + 2);
    assert s[|k| + 2] == Token(k)[|k| + 2];
    assert k == s[2..|k| + 2] == u;
  }

  lemma FirstClosingBrace(k: string, i: nat)
    requires '}' !in k
    ensures i < |k| + 2 ==> Token(k)[i] != '}'
    ensures Token(k)[|k| + 2] == '}'
  {
    if 2 <= i < |k| + 2 {
      assert Token(k)[i] == k[i - 2];
    }
  }

  /** Where the opening braces of a token are. */
  lemma BracesOf(u: string, i: nat)
    requires '{' !in u && i < |Token(u)|
    ensures Token(u)[i] == '{' <==> i < 2
  {
    if 2 <= i < |u| + 2 {
      assert Token(u)[i] == u[i - 2];
    }
  }

  // ---- renderAny ----

  /** What a decoded JSON value is to renderAny: other leaves are numbers, booleans and null. */
  datatype Json = Text(text: string) | Object(fields: map<string, Json>) | List(items: seq<Json>) | Other(id: nat)

  /** The same value with every string leaf rendered; the order of the map plays no part. */
  ghost function RenderedJson(v: Json, vars: Vars): Json
  {
    match v
    case Text(t) => Text(Rendered(vars, t))
    case Object(fs) => Object(map k | k in fs :: RenderedJson(fs[k], vars))
    case List(vs) => List(seq(|vs|, i requires 0 <= i < |vs| => RenderedJson(vs[i], vars)))
    case Other(_) => v
  }

  /**
   Same nesting, same map keys, same list lengths, same non-string leaves, and every string leaf is a
   rendering of the one in its place.
   */
  ghost predicate RendersJson(v: Json, vars: Vars, w: Json)
  {
    match v
    case Text(t) => w.Text? && Renders(t, vars, w.text)
    case Object(fs) =>
      w.Object? && w.fields.Keys == fs.Keys && forall k | k in fs :: RendersJson(fs[k], vars, w.fields[k])
    case List(vs) =>
      w.List? && |w.items| == |vs| && forall i | 0 <= i < |vs| :: RendersJson(vs[i], vars, w.items[i])
    case Other(_) => w == v
  }

  /** For prefix-free tokens there is only one rendering. */
  lemma {:induction false} RendersJsonOnce(v: Json, vars: Vars, w: Json)
    requires RendersJson(v, vars, w) && PrefixFree(vars.Keys)
    ensures w == RenderedJson(v, vars)
    decreases v
  {
    match v
    case Text(t) =>
      var pairs :| Lists(pairs, vars) && w.text == Replace(pairs, t);
      AnyOrderRenders(pairs, vars, t);
    case Object(fs) =>
      forall k | k in fs ensures w.fields[k] == RenderedJson(fs[k], vars) {
        RendersJsonOnce(fs[k], vars, w.fields[k]);
      }
    case List(vs) =>
      forall i | 0 <= i < |vs| ensures w.items[i] == RenderedJson(vs[i], vars) {
        RendersJsonOnce(vs[i], vars, w.items[i]);
      }
    case Other(_) =>
  }

  method RenderAny(v: Json, vars: Vars) returns (out: Json)
    ensures RendersJson(v, vars, out)
    ensures PrefixFree(vars.Keys) ==> out == RenderedJson(v, vars)
    decreases v, 1
  {
    match v {
      case Text(t) =>
        var r := Render(t, vars);
        out := Text(r);
      case Object(_) =>
        out := RenderObject(v, vars);
      case List(_) =>
        out := RenderList(v, vars);
      case Other(_) =>
        out := v;
    }
    if PrefixFree(vars.Keys) {
      RendersJsonOnce(v, vars, out);
    }
  }

  method RenderObject(v: Json, vars: Vars) returns (out: Json)
    requires v.Object?
    ensures RendersJson(v, vars, out)
    decreases v, 0
  {
    var fields: map<string, Json> := map[];
    var todo := v.fields.Keys;
    while todo != {}
      invariant todo <= v.fields.Keys && fields.Keys == v.fields.Keys - todo
      invariant forall k | k in fields :: RendersJson(v.fields[k], vars, fields[k])
    {
      var k :| k in todo;
      var r := RenderAny(v.fields[k], vars);
      fields := fields[k := r];
      todo := todo - {k};
    }
    out := Object(fields);
  }

  method RenderList(v: Json, vars: Vars) returns (out: Json)
    requires v.List?
    ensures RendersJson(v, vars, out)
    decreases v, 0
  {
    var items: seq<Json> := [];
    for i := 0 to |v.items|
      invariant |items| == i
      invariant forall j | 0 <= j < i :: RendersJson(v.items[j], vars, items[j])
    {
      var r := RenderAny(v.items[i], vars);
      items := items + [r];
    }
    out := List(items);
  }
}
