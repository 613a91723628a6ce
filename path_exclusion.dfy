/** `TrackerManager.isExcluded` of src/session/TrackerManager.ts on string
    patterns. A pattern without `:` must equal the path. A pattern with `:` is
    turned into an anchored regular expression in which every `:name` run (a
    colon and the non-`/` characters after it) stands for one or more non-`/`
    characters; every other character of the pattern stands for itself. */
module PathExclusion {

  /** A compiled route template: a literal character or a parameter. */
  datatype Token = Lit(c: char) | Param

  predicate NoSlash(s: string)
  {
    forall k :: 0 <= k < |s| ==> s[k] != '/'
  }

  /** The length of the longest prefix of `s` without `/`. */
  function RunLength(s: string): (n: nat)
    ensures n <= |s| && NoSlash(s[..n])
    ensures n < |s| ==> s[n] == '/'
  {
    if s == [] || s[0] == '/' then 0
    else
      var n := RunLength(s[1..]);
      assert s[..n + 1] == [s[0]] + s[1..][..n];
      n + 1
  }

  /** `pattern.replace(/:[^/]+/g, '[^/]+')`: a colon followed by at least one
      non-`/` character, together with all the non-`/` characters that follow,
      becomes a parameter; a colon at the end or before a `/` stays literal. */
  function Compile(p: string): seq<Token>
    decreases |p|
  {
    if p == [] then []
    else if p[0] == ':' && |p| > 1 && p[1] != '/' then
      [Param] + Compile(p[1 + RunLength(p[1..])..])
    else
      [Lit(p[0])] + Compile(p[1..])
  }

  /** Whether the whole of `s` matches the compiled template: a literal matches
      its own character, a parameter one or more non-`/` characters. */
  predicate Matches(toks: seq<Token>, s: string)
    decreases |toks|
  {
    if toks == [] then s == []
    else match toks[0]
      case Lit(c) => s != [] && s[0] == c && Matches(toks[1..], s[1..])
      case Param => exists k :: 1 <= k <= |s| && NoSlash(s[..k]) && Matches(toks[1..], s[k..])
  }

  /** One entry of `excludePaths` against the path. */
  predicate PatternMatches(pattern: string, path: string)
  {
    if ':' in pattern then Matches(Compile(pattern), path) else path == pattern
  }

  /** `excludePaths.some(...)`: some pattern matches the path. */
  function IsExcluded(patterns: seq<string>, path: string): (r: bool)
    ensures r <==> exists i :: 0 <= i < |patterns| && PatternMatches(patterns[i], path)
    ensures patterns == [] ==> !r
  {
    if patterns == [] then false
    else
      var r := PatternMatches(patterns[0], path) || IsExcluded(patterns[1..], path);
      assert forall i :: 1 <= i < |patterns| ==> patterns[i] == patterns[1..][i - 1];
      r
  }

  /** The template of a colon-free string: one literal per character. */
  function Lits(p: string): (toks: seq<Token>)
    ensures |toks| == |p| && forall k :: 0 <= k < |p| ==> toks[k] == Lit(p[k])
  {
    if p == [] then [] else [Lit(p[0])] + Lits(p[1..])
  }

  /** A colon-free prefix compiles to literals. */
  lemma {:induction false} CompilePrefix(p: string, rest: string)
    requires ':' !in p
    ensures Compile(p + rest) == Lits(p) + Compile(rest)
  {
    if p != [] {
      assert (p + rest)[0] == p[0] && (p + rest)[1..] == p[1..] + rest;
      assert ':' !in p[1..] by {
        forall k | 0 <= k < |p| - 1 ensures p[1..][k] != ':' {
          assert p[1..][k] == p[k + 1];
        }
      }
      CompilePrefix(p[1..], rest);
      assert Compile(p + rest) == [Lit(p[0])] + Compile(p[1..] + rest);
      assert Lits(p) + Compile(rest) == [Lit(p[0])] + (Lits(p[1..]) + Compile(rest));
    } else {
      assert p + rest == rest;
    }
  }

  /** Literals match exactly their own characters, followed by whatever the rest matches. */
  lemma {:induction false} MatchesLits(p: string, toks: seq<Token>, s: string)
    ensures Matches(Lits(p) + toks, s) <==> |s| >= |p| && s[..|p|] == p && Matches(toks, s[|p|..])
  {
    if p == [] {
      assert Lits(p) + toks == toks && s[..0] == [] && s[0..] == s;
    } else {
      var ts := Lits(p) + toks;
      assert ts[0] == Lit(p[0]) && ts[1..] == Lits(p[1..]) + toks;
      if s != [] {
        MatchesLits(p[1..], toks, s[1..]);
        if |s| >= |p| {
          assert s[..|p|] == [s[0]] + s[1..][..|p| - 1];
          assert s[|p|..] == s[1..][|p| - 1..];
          assert s[..|p|] == p <==> s[0] == p[0] && s[1..][..|p| - 1] == p[1..];
        }
      }
    }
  }

  /** A colon-free pattern compiled as a template would match the same paths as
      the equality it is checked by, so the two branches of `isExcluded` agree. */
  lemma LiteralTemplateIsEquality(p: string, path: string)
    requires ':' !in p
    ensures Matches(Compile(p), path) <==> path == p
    ensures PatternMatches(p, path) <==> path == p
  {
    CompilePrefix(p, []);
    assert p + [] == p;
    MatchesLits(p, [], path);
  }

  /** A lone parameter matches exactly the non-empty paths without `/`. */
  lemma MatchesParam(s: string)
    ensures Matches([Param], s) <==> s != [] && NoSlash(s)
  {
    assert [Param][1..] == [];
    if s != [] && NoSlash(s) {
      assert s[..|s|] == s && s[|s|..] == [];
    }
  }

  /** `prefix/:name` with a colon-free `prefix`: the path must start with
      `prefix` and continue with one or more non-`/` characters to its end. */
  lemma TrailingParam(prefix: string, name: string, path: string)
    requires ':' !in prefix && name != [] && NoSlash(name)
    ensures PatternMatches(prefix + [':'] + name, path) <==>
            |path| > |prefix| && path[..|prefix|] == prefix && NoSlash(path[|prefix|..])
  {
    var p := prefix + [':'] + name;
    assert p[|prefix|] == ':';
    assert p == prefix + ([':'] + name);
    var tail := [':'] + name;
    assert tail[1..] == name;
    assert RunLength(name) == |name|;
    assert tail[1 + |name|..] == [];
    assert Compile(tail) == [Param];
    CompilePrefix(prefix, tail);
    MatchesLits(prefix, [Param], path);
    if |path| >= |prefix| {
      MatchesParam(path[|prefix|..]);
    }
  }

  /** `/users/:id` excludes `/users/42` but neither `/users/` nor `/users/42/edit`. */
  lemma UsersExample()
    ensures PatternMatches("/users/:id", "/users/42")
    ensures !PatternMatches("/users/:id", "/users/")
    ensures !PatternMatches("/users/:id", "/users/42/edit")
  {
    assert "/users/:id" == "/users/" + [':'] + "id";
    assert ':' !in "/users/";
    TrailingParam("/users/", "id", "/users/42");
    TrailingParam("/users/", "id", "/users/");
    TrailingParam("/users/", "id", "/users/42/edit");
    assert "/users/42/edit"[7..][2] == '/';
  }

  /** A colon before a `/` or at the end is an ordinary character. */
  lemma BareColonIsLiteral(a: string, b: string)
    requires b == [] || b[0] == '/'
    requires ':' !in a
    ensures Compile(a + [':'] + b) == Lits(a) + [Lit(':')] + Compile(b)
  {
    assert a + [':'] + b == a + ([':'] + b);
    CompilePrefix(a, [':'] + b);
    assert ([':'] + b)[1..] == b;
  }
}
