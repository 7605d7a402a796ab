/**
 * The path-template normaliser of `CalmApp._normalize_uri`: colon-style
 * templates such as `/users/:id` become regular-expression strings with a
 * named capture per placeholder, `/users/(?P<id>[^\/\?]*)/?`.
 *
 * The rewrite is modelled as the source performs it: every placeholder name
 * found is substituted with a whole-string replace, one name after another.
 */
module UriTemplate {

  /** A character that may appear in a placeholder name: anything but `/`, `?` and `:`. */
  predicate IsNameChar(c: char)
  {
    c != '/' && c != '?' && c != ':'
  }

  predicate IsName(n: string)
  {
    forall i :: 0 <= i < |n| ==> IsNameChar(n[i])
  }

  /** No placeholder name is a prefix of a different one (this also rules out an empty name beside others). */
  ghost predicate PrefixFree(names: set<string>)
  {
    forall a, b :: a in names && b in names && a <= b ==> a == b
  }

  // ---------------------------------------------------------------------------
  // Joining and stripping the fragments
  // ---------------------------------------------------------------------------

  /** `s.lstrip('/')` */
  function StripLeading(s: string): (r: string)
    ensures |r| <= |s| && r == s[|s| - |r|..]
    ensures r == [] || r[0] != '/'
  {
    if |s| > 0 && s[0] == '/' then
      var r := StripLeading(s[1..]);
      assert s[1..][|s| - 1 - |r|..] == s[|s| - |r|..];
      r
    else s
  }

  /** `s.rstrip('/')` */
  function StripTrailing(s: string): (r: string)
    ensures |r| <= |s| && r == s[..|r|]
    ensures r == [] || r[|r| - 1] != '/'
  {
    if |s| > 0 && s[|s| - 1] == '/' then
      var r := StripTrailing(s[..|s| - 1]);
      assert s[..|s| - 1][..|r|] == s[..|r|];
      r
    else s
  }

  /** What `lstrip('/')` removes is slashes only. */
  lemma {:induction false} StripLeadingRemovesSlashes(s: string)
    ensures forall i :: 0 <= i < |s| - |StripLeading(s)| ==> s[i] == '/'
  {
    if |s| > 0 && s[0] == '/' {
      StripLeadingRemovesSlashes(s[1..]);
      forall i | 1 <= i < |s| - |StripLeading(s)| ensures s[i] == '/' {
        assert s[i] == s[1..][i - 1];
      }
    }
  }

  /** What `rstrip('/')` removes is slashes only. */
  lemma {:induction false} StripTrailingRemovesSlashes(s: string)
    ensures forall i :: |StripTrailing(s)| <= i < |s| ==> s[i] == '/'
  {
    if |s| > 0 && s[|s| - 1] == '/' {
      StripTrailingRemovesSlashes(s[..|s| - 1]);
      forall i | |StripTrailing(s)| <= i < |s| - 1 ensures s[i] == '/' {
        assert s[i] == s[..|s| - 1][i];
      }
    }
  }

  /** `s.strip('/')` */
  function Strip(s: string): (r: string)
    ensures r == [] || (r[0] != '/' && r[|r| - 1] != '/')
  {
    StripTrailing(StripLeading(s))
  }

  /** `'/'.join(parts)` */
  function Join(parts: seq<string>): string
  {
    if |parts| == 0 then ""
    else if |parts| == 1 then parts[0]
    else parts[0] + "/" + Join(parts[1..])
  }

  function StrippedAll(fragments: seq<string>): (r: seq<string>)
    ensures |r| == |fragments|
  {
    seq(|fragments|, i requires 0 <= i < |fragments| => Strip(fragments[i]))
  }

  /** The template before placeholders are rewritten: `'/' + '/'.join(...) + '/?'`. */
  function Wrapped(fragments: seq<string>): string
  {
    "/" + Join(StrippedAll(fragments)) + "/?"
  }

  // ---------------------------------------------------------------------------
  // Finding placeholders (`URI_REGEX.findall`, pattern `:([^\/\?:]*)`)
  // ---------------------------------------------------------------------------

  /** The longest prefix of `t` made of name characters. */
  function NameRun(t: string): (n: string)
    ensures IsName(n) && n <= t
    ensures |n| < |t| ==> !IsNameChar(t[|n|])
  {
    if t == [] || !IsNameChar(t[0]) then [] else [t[0]] + NameRun(t[1..])
  }

  /** The names `findall` returns: one per `:`, the name run that follows it. */
  function PlaceholderNames(s: string): (names: seq<string>)
    ensures forall i :: 0 <= i < |names| ==> IsName(names[i])
    decreases |s|
  {
    if s == [] then []
    else if s[0] == ':' then
      var n := NameRun(s[1..]);
      [n] + PlaceholderNames(s[1 + |n|..])
    else PlaceholderNames(s[1..])
  }

  /** Reference for `findall`: every `:` of `s`, in order, contributes the name run that follows it. */
  function NamesAtColons(s: string): seq<string>
  {
    if s == [] then []
    else (if s[0] == ':' then [NameRun(s[1..])] else []) + NamesAtColons(s[1..])
  }

  /**
   * `findall` misses no colon: since a name never contains `:`, the scan that
   * skips over each name still meets every `:`. So there is one name per
   * colon, in order, and none at all exactly when the text has no `:`.
   */
  lemma {:induction false} PlaceholderNamesAtColons(s: string)
    ensures PlaceholderNames(s) == NamesAtColons(s)
    ensures |PlaceholderNames(s)| == multiset(s)[':']
    ensures PlaceholderNames(s) == [] <==> ColonFree(s)
    decreases |s|
  {
    if s != [] {
      if s[0] == ':' {
        var n := NameRun(s[1..]);
        var rest := s[1 + |n|..];
        PlaceholderNamesAtColons(rest);
        assert s[1..] == n + rest;
        assert ColonFree(n);
        NamesAtColonsSkip(n, rest);
      } else {
        PlaceholderNamesAtColons(s[1..]);
      }
    }
    NamesAtColonsCount(s);
  }

  lemma {:induction false} NamesAtColonsSkip(p: string, x: string)
    requires ColonFree(p)
    ensures NamesAtColons(p + x) == NamesAtColons(x)
  {
    if p != [] {
      assert (p + x)[0] == p[0] && (p + x)[1..] == p[1..] + x;
      NamesAtColonsSkip(p[1..], x);
    } else {
      assert p + x == x;
    }
  }

  lemma {:induction false} NamesAtColonsCount(s: string)
    ensures |NamesAtColons(s)| == multiset(s)[':']
    ensures NamesAtColons(s) == [] <==> ColonFree(s)
  {
    if s != [] {
      NamesAtColonsCount(s[1..]);
      assert s == [s[0]] + s[1..];
      assert multiset(s) == multiset([s[0]]) + multiset(s[1..]);
      assert ColonFree(s) <==> s[0] != ':' && ColonFree(s[1..]);
    }
  }

  /** The named capture a placeholder becomes: `(?P<name>[^\/\?]*)`. */
  function Capture(name: string): string
  {
    "(?P<" + name + ">[^\\/\\?]*)"
  }

  // ---------------------------------------------------------------------------
  // The rewrite as written: `uri = uri.replace(':' + name, Capture(name))` per name
  // ---------------------------------------------------------------------------

  /** `s.replace(pat, rep)`: every non-overlapping occurrence, scanning left to right. */
  function ReplaceAll(s: string, pat: string, rep: string): string
    requires |pat| > 0
    decreases |s|
  {
    if s == [] then []
    else if pat <= s then rep + ReplaceAll(s[|pat|..], pat, rep)
    else [s[0]] + ReplaceAll(s[1..], pat, rep)
  }

  /** The loop of lines 126-130: one replace per name found, in order. */
  function Rewrite(s: string, names: seq<string>): string
    decreases |names|
  {
    if names == [] then s
    else Rewrite(ReplaceAll(s, ":" + names[0], Capture(names[0])), names[1..])
  }

  /** What `_normalize_uri(*fragments)` returns. */
  function NormalizedUri(fragments: seq<string>): string
  {
    var w := Wrapped(fragments);
    Rewrite(w, PlaceholderNames(w))
  }

  /** `CalmApp._normalize_uri`: join, wrap, then rewrite each placeholder found. */
  method NormalizeUri(fragments: seq<string>) returns (uri: string)
    ensures uri == NormalizedUri(fragments)
    ensures Framed(uri)
  {
    uri := "/" + Join(StrippedAll(fragments)) + "/?";
    var pathParams := PlaceholderNames(uri);
    var i := 0;
    while i < |pathParams|
      invariant 0 <= i <= |pathParams|
      invariant Rewrite(uri, pathParams[i..]) == NormalizedUri(fragments)
    {
      assert pathParams[i..][1..] == pathParams[i + 1..];
      uri := ReplaceAll(uri, ":" + pathParams[i], Capture(pathParams[i]));
      i := i + 1;
    }
    NormalizedIsFramed(fragments);
  }

  // ---------------------------------------------------------------------------
  // The output always starts with `/` and ends with `/?`
  // ---------------------------------------------------------------------------

  predicate Framed(u: string)
  {
    |u| >= 3 && u[0] == '/' && u[|u| - 2] == '/' && u[|u| - 1] == '?'
  }

  /** Text without `:` passes through a replace of `:name` untouched. */
  lemma {:induction false} ReplaceSkipsColonFree(p: string, x: string, pat: string, rep: string)
    requires |pat| > 0 && pat[0] == ':'
    requires ColonFree(p)
    ensures ReplaceAll(p + x, pat, rep) == p + ReplaceAll(x, pat, rep)
  {
    if p != [] {
      var s := p + x;
      assert s[0] == p[0];
      assert pat[0] != s[0];
      assert s[1..] == p[1..] + x;
      assert ReplaceAll(s, pat, rep) == [s[0]] + ReplaceAll(s[1..], pat, rep);
      ReplaceSkipsColonFree(p[1..], x, pat, rep);
      assert p == [p[0]] + p[1..];
    } else {
      assert p + x == x;
    }
  }

  /** A replace cannot match across a tail whose characters the pattern does not use. */
  lemma {:induction false} ReplaceKeepsTail(a: string, b: string, pat: string, rep: string)
    requires |pat| > 0
    requires forall i, j :: 0 <= i < |b| && 0 <= j < |pat| ==> b[i] != pat[j]
    ensures ReplaceAll(a + b, pat, rep) == ReplaceAll(a, pat, rep) + b
    decreases |a|, 1
  {
    if a == [] {
      assert a + b == b;
      ReplaceTailOnly(b, pat, rep);
    } else if pat <= a + b {
      ReplaceKeepsTailAtMatch(a, b, pat, rep);
    } else {
      ReplaceKeepsTailPastHead(a, b, pat, rep);
    }
  }

  lemma {:induction false} ReplaceKeepsTailAtMatch(a: string, b: string, pat: string, rep: string)
    requires |pat| > 0 && a != [] && pat <= a + b
    requires forall i, j :: 0 <= i < |b| && 0 <= j < |pat| ==> b[i] != pat[j]
    ensures ReplaceAll(a + b, pat, rep) == ReplaceAll(a, pat, rep) + b
    decreases |a|, 0
  {
    PrefixBeyondHead(pat, a, b);
    assert pat <= a;
    assert (a + b)[|pat|..] == a[|pat|..] + b;
    ReplaceKeepsTail(a[|pat|..], b, pat, rep);
  }

  lemma {:induction false} ReplaceKeepsTailPastHead(a: string, b: string, pat: string, rep: string)
    requires |pat| > 0 && a != [] && !(pat <= a + b)
    requires forall i, j :: 0 <= i < |b| && 0 <= j < |pat| ==> b[i] != pat[j]
    ensures ReplaceAll(a + b, pat, rep) == ReplaceAll(a, pat, rep) + b
    decreases |a|, 0
  {
    PrefixOfPrefix(pat, a, b);
    assert (a + b)[1..] == a[1..] + b;
    ReplaceKeepsTail(a[1..], b, pat, rep);
  }

  lemma PrefixBeyondHead(p: string, a: string, b: string)
    ensures p <= a + b && |p| > |a| ==> p[|a|] == b[0]
  {
    if p <= a + b && |p| > |a| {
      assert p[|a|] == (a + b)[|a|];
    }
  }

  lemma PrefixOfPrefix(p: string, a: string, b: string)
    ensures p <= a ==> p <= a + b
  {
    if |p| <= |a| {
      assert forall i :: 0 <= i < |p| ==> (a + b)[i] == a[i];
    }
  }

  lemma {:induction false} ReplaceTailOnly(b: string, pat: string, rep: string)
    requires |pat| > 0
    requires forall i, j :: 0 <= i < |b| && 0 <= j < |pat| ==> b[i] != pat[j]
    ensures ReplaceAll(b, pat, rep) == b
  {
    if b != [] {
      assert b[0] != pat[0];
      ReplaceTailOnly(b[1..], pat, rep);
    }
  }

  /** One replace of a placeholder keeps a framed string framed. */
  lemma ReplaceKeepsFrame(u: string, name: string)
    requires Framed(u) && IsName(name)
    ensures Framed(ReplaceAll(u, ":" + name, Capture(name)))
  {
    var pat, rep := ":" + name, Capture(name);
    var mid := u[1..|u| - 2];
    assert u == "/" + (mid + "/?");
    ReplaceSkipsColonFree("/", mid + "/?", pat, rep);
    ReplaceKeepsTail(mid, "/?", pat, rep);
    assert ReplaceAll(u, pat, rep) == "/" + ReplaceAll(mid, pat, rep) + "/?";
  }

  lemma {:induction false} RewriteKeepsFrame(u: string, names: seq<string>)
    requires Framed(u)
    requires forall i :: 0 <= i < |names| ==> IsName(names[i])
    ensures Framed(Rewrite(u, names))
    decreases |names|
  {
    if names != [] {
      ReplaceKeepsFrame(u, names[0]);
      RewriteKeepsFrame(ReplaceAll(u, ":" + names[0], Capture(names[0])), names[1..]);
    }
  }

  /** `_normalize_uri` always yields `/...` ending in the optional-slash allowance `/?`. */
  lemma NormalizedIsFramed(fragments: seq<string>)
    ensures Framed(NormalizedUri(fragments))
  {
    var w := Wrapped(fragments);
    RewriteKeepsFrame(w, PlaceholderNames(w));
  }

  // ---------------------------------------------------------------------------
  // Without placeholders the result is the joined, stripped template
  // ---------------------------------------------------------------------------

  lemma {:induction false} NoColonNoPlaceholders(s: string)
    requires ColonFree(s)
    ensures PlaceholderNames(s) == []
  {
    if s != [] {
      NoColonNoPlaceholders(s[1..]);
    }
  }

  lemma StripNoColon(f: string)
    requires ColonFree(f)
    ensures ColonFree(Strip(f))
  {
    var l := StripLeading(f);
    forall i | 0 <= i < |Strip(f)| ensures Strip(f)[i] != ':' {
      assert Strip(f)[i] == l[i] == f[|f| - |l| + i];
    }
  }

  lemma {:induction false} JoinNoColon(parts: seq<string>)
    requires forall k, i :: 0 <= k < |parts| && 0 <= i < |parts[k]| ==> parts[k][i] != ':'
    ensures ColonFree(Join(parts))
  {
    if |parts| > 1 {
      JoinNoColon(parts[1..]);
    }
  }

  /** Fragments without `:` are only joined and wrapped: `'/' + '/'.join(f.strip('/') ...) + '/?'`. */
  lemma NormalizedWithoutPlaceholders(fragments: seq<string>)
    requires forall k, i :: 0 <= k < |fragments| && 0 <= i < |fragments[k]| ==> fragments[k][i] != ':'
    ensures NormalizedUri(fragments) == "/" + Join(StrippedAll(fragments)) + "/?"
  {
    var parts := StrippedAll(fragments);
    forall k | 0 <= k < |parts| ensures forall i :: 0 <= i < |parts[k]| ==> parts[k][i] != ':' {
      StripNoColon(fragments[k]);
    }
    JoinNoColon(parts);
    NoColonNoPlaceholders(Wrapped(fragments));
  }

  // ---------------------------------------------------------------------------
  // Extra slashes around a fragment never change the result
  // ---------------------------------------------------------------------------

  function Slashes(k: nat): (r: string)
    ensures |r| == k && forall i :: 0 <= i < k ==> r[i] == '/'
  {
    if k == 0 then "" else "/" + Slashes(k - 1)
  }

  lemma {:induction false} StripLeadingSlashes(f: string, k: nat)
    ensures StripLeading(Slashes(k) + f) == StripLeading(f)
  {
    if k > 0 {
      Assoc("/", Slashes(k - 1), f);
      StripLeadingSlash(Slashes(k - 1) + f);
      StripLeadingSlashes(f, k - 1);
    } else {
      assert Slashes(k) + f == f;
    }
  }

  /** One more leading `/` is stripped away. */
  lemma StripLeadingSlash(t: string)
    ensures StripLeading("/" + t) == StripLeading(t)
  {
    assert ("/" + t)[1..] == t;
  }

  lemma {:induction false} StripLeadingAppendSlash(f: string)
    ensures StripLeading(f + "/") == if StripLeading(f) == [] then [] else StripLeading(f) + "/"
  {
    if f == [] {
      assert f + "/" == "/";
      assert StripLeading("/") == StripLeading("/"[1..]);
    } else if f[0] == '/' {
      assert (f + "/")[1..] == f[1..] + "/";
      StripLeadingAppendSlash(f[1..]);
    }
  }

  lemma {:induction false} StripTrailingSlashes(f: string, k: nat)
    ensures Strip(f + Slashes(k)) == Strip(f)
  {
    if k > 0 {
      SlashesAppend(k);
      Assoc(f, Slashes(k - 1), "/");
      StripAppendSlash(f + Slashes(k - 1));
      StripTrailingSlashes(f, k - 1);
    } else {
      assert f + Slashes(k) == f;
    }
  }

  /** One more trailing `/` is stripped away. */
  lemma StripAppendSlash(g: string)
    ensures Strip(g + "/") == Strip(g)
  {
    StripLeadingAppendSlash(g);
    var l := StripLeading(g);
    if l != [] {
      StripTrailingSlash(l);
    }
  }

  lemma StripTrailingSlash(l: string)
    ensures StripTrailing(l + "/") == StripTrailing(l)
  {
    var t := l + "/";
    assert t[|t| - 1] == '/';
    assert t[..|t| - 1] == l;
  }

  lemma SlashesAppend(k: nat)
    requires k > 0
    ensures Slashes(k) == Slashes(k - 1) + "/"
  {
    assert Slashes(k)[..k - 1] == Slashes(k - 1);
  }

  /** Leading and trailing slashes of a fragment are stripped, however many there are. */
  lemma StripIgnoresSlashes(f: string, k: nat, j: nat)
    ensures Strip(Slashes(k) + f + Slashes(j)) == Strip(f)
  {
    StripTrailingSlashes(Slashes(k) + f, j);
    StripLeadingSlashes(f, k);
  }

  /** Surrounding one fragment with extra slashes leaves `_normalize_uri`'s result unchanged. */
  lemma ExtraSlashesIgnored(fragments: seq<string>, i: nat, k: nat, j: nat)
    requires i < |fragments|
    ensures NormalizedUri(fragments[i := Slashes(k) + fragments[i] + Slashes(j)]) == NormalizedUri(fragments)
  {
    var g := fragments[i := Slashes(k) + fragments[i] + Slashes(j)];
    StripIgnoresSlashes(fragments[i], k, j);
    assert StrippedAll(g) == StrippedAll(fragments);
  }

  // ---------------------------------------------------------------------------
  // The intended rewrite, and when the source's rewrite agrees with it
  // ---------------------------------------------------------------------------

  /**
   * Single-pass reference: every `:name` becomes `Capture(name)` and every
   * other character is copied.
   */
  function CompileTemplate(s: string): string
    decreases |s|
  {
    if s == [] then []
    else if s[0] == ':' then
      var n := NameRun(s[1..]);
      Capture(n) + CompileTemplate(s[1 + |n|..])
    else [s[0]] + CompileTemplate(s[1..])
  }

  predicate ColonFree(s: string)
  {
    forall i :: 0 <= i < |s| ==> s[i] != ':'
  }

  /** The reference rewrite leaves no placeholder behind, and is the identity on text without one. */
  lemma {:induction false} CompileTemplateRewritesAll(s: string)
    ensures ColonFree(CompileTemplate(s))
    ensures ColonFree(s) ==> CompileTemplate(s) == s
    decreases |s|
  {
    if s != [] {
      if s[0] == ':' {
        var n := NameRun(s[1..]);
        var rest := s[1 + |n|..];
        CompileTemplateRewritesAll(rest);
        ColonFreeConcat(Capture(n), CompileTemplate(rest));
      } else {
        CompileTemplateRewritesAll(s[1..]);
        ColonFreeConcat([s[0]], CompileTemplate(s[1..]));
        assert ColonFree(s) ==> ColonFree(s[1..]);
      }
    }
  }

  lemma ColonFreeConcat(a: string, b: string)
    requires ColonFree(a) && ColonFree(b)
    ensures ColonFree(a + b)
  {
    assert forall i :: 0 <= i < |a + b| ==> (a + b)[i] == if i < |a| then a[i] else b[i - |a|];
  }

  /** A placeholder as it stands once the names in `done` have been rewritten. */
  function Token(n: string, done: set<string>): string
  {
    if n in done then Capture(n) else ":" + n
  }

  /** The template with only the placeholders named in `done` rewritten. */
  function Substitute(s: string, done: set<string>): string
    decreases |s|
  {
    if s == [] then []
    else if s[0] == ':' then
      var n := NameRun(s[1..]);
      Token(n, done) + Substitute(s[1 + |n|..], done)
    else [s[0]] + Substitute(s[1..], done)
  }

  lemma {:induction false} SubstituteNothing(s: string)
    ensures Substitute(s, {}) == s
    decreases |s|
  {
    if s != [] {
      if s[0] == ':' {
        var n := NameRun(s[1..]);
        SubstituteNothing(s[1 + |n|..]);
        assert s == ":" + n + s[1 + |n|..];
      } else {
        SubstituteNothing(s[1..]);
      }
    }
  }

  lemma {:induction false} SubstituteEverything(s: string, done: set<string>)
    requires forall n :: n in PlaceholderNames(s) ==> n in done
    ensures Substitute(s, done) == CompileTemplate(s)
    decreases |s|
  {
    if s != [] {
      if s[0] == ':' {
        var n := NameRun(s[1..]);
        SubstituteEverything(s[1 + |n|..], done);
      } else {
        SubstituteEverything(s[1..], done);
      }
    }
  }

  /** Replacing `:a` in front of one placeholder touches that placeholder only if it is named `a`. */
  lemma ReplaceAtToken(n: string, x: string, done: set<string>, a: string, names: set<string>)
    requires n in names && IsName(n)
    requires a in names && PrefixFree(names)
    ensures ReplaceAll(Token(n, done) + x, ":" + a, Capture(a)) == Token(n, done + {a}) + ReplaceAll(x, ":" + a, Capture(a))
  {
    var pat, rep := ":" + a, Capture(a);
    if n in done {
      CaptureColonFree(n);
      ReplaceSkipsColonFree(Capture(n), x, pat, rep);
    } else if n == a {
      ReplaceAtPattern(pat, x, rep);
    } else {
      PrefixCases(a, n, x);
      assert !(pat <= ":" + n + x);
      ReplaceMissesName(n, x, pat, rep);
    }
  }

  /** A replace whose pattern does not start at `:n` copies `:n` and carries on after it. */
  lemma ReplaceMissesName(n: string, x: string, pat: string, rep: string)
    requires IsName(n) && |pat| > 0 && pat[0] == ':'
    requires !(pat <= ":" + n + x)
    ensures ReplaceAll(":" + n + x, pat, rep) == ":" + n + ReplaceAll(x, pat, rep)
  {
    var s := ":" + n + x;
    assert s[1..] == n + x;
    assert ColonFree(n);
    ReplaceSkipsColonFree(n, x, pat, rep);
    assert ReplaceAll(s, pat, rep) == [':'] + (n + ReplaceAll(x, pat, rep));
  }

  /** `:a` can only start `:n...` when one of `a` and `n` is a prefix of the other. */
  lemma PrefixCases(a: string, n: string, x: string)
    ensures ":" + a <= ":" + n + x ==> a <= n || n <= a
  {
    var s, t := ":" + a, ":" + n + x;
    if s <= t {
      forall i | 0 <= i < |a| ensures a[i] == (n + x)[i] {
        assert s[i + 1] == t[i + 1];
      }
      if |a| <= |n| {
        assert forall i :: 0 <= i < |a| ==> a[i] == n[i] by {
          forall i | 0 <= i < |a| ensures a[i] == n[i] {
            assert (n + x)[i] == n[i];
          }
        }
      } else {
        assert forall i :: 0 <= i < |n| ==> n[i] == a[i] by {
          forall i | 0 <= i < |n| ensures n[i] == a[i] {
            assert (n + x)[i] == n[i];
          }
        }
      }
    }
  }

  /** Under prefix-freedom, `:a` matches exactly the placeholders named `a`. */
  lemma {:induction false} ReplaceOneName(s: string, done: set<string>, a: string, names: set<string>)
    requires forall n :: n in PlaceholderNames(s) ==> n in names
    requires a in names && PrefixFree(names)
    ensures ReplaceAll(Substitute(s, done), ":" + a, Capture(a)) == Substitute(s, done + {a})
    decreases |s|
  {
    if s != [] {
      if s[0] == ':' {
        var n := NameRun(s[1..]);
        var rest := s[1 + |n|..];
        assert PlaceholderNames(s) == [n] + PlaceholderNames(rest);
        ReplaceOneName(rest, done, a, names);
        ReplaceAtToken(n, Substitute(rest, done), done, a, names);
      } else {
        ReplaceOneName(s[1..], done, a, names);
        ReplaceSkipsColonFree([s[0]], Substitute(s[1..], done), ":" + a, Capture(a));
      }
    }
  }

  lemma {:induction false} RewriteSubstitutes(s: string, done: set<string>, todo: seq<string>, names: set<string>)
    requires forall n :: n in PlaceholderNames(s) ==> n in names
    requires forall i :: 0 <= i < |todo| ==> todo[i] in names
    requires PrefixFree(names)
    ensures Rewrite(Substitute(s, done), todo) == Substitute(s, done + set n | n in todo)
    decreases |todo|
  {
    if todo != [] {
      ReplaceOneName(s, done, todo[0], names);
      RewriteSubstitutes(s, done + {todo[0]}, todo[1..], names);
      assert (done + {todo[0]}) + (set n | n in todo[1..]) == done + set n | n in todo;
    } else {
      assert done + (set n | n in todo) == done;
    }
  }

  /**
   * When no placeholder name is a prefix of another, the source's
   * replace-per-name loop rewrites exactly the placeholders and nothing else.
   */
  lemma NormalizedMatchesReference(fragments: seq<string>)
    requires PrefixFree(set n | n in PlaceholderNames(Wrapped(fragments)))
    ensures NormalizedUri(fragments) == CompileTemplate(Wrapped(fragments))
  {
    var w := Wrapped(fragments);
    var names := PlaceholderNames(w);
    var all := set n | n in names;
    SubstituteNothing(w);
    RewriteSubstitutes(w, {}, names, all);
    assert {} + all == all;
    SubstituteEverything(w, all);
  }

  /**
   * The quirk the precondition above excludes: a placeholder `:n` before a
   * placeholder `:ny` (for instance `/:id/:idx`). The replace for `n` also
   * rewrites the front of `:ny`, leaving a second group named `n` followed by
   * the stray text `y`, where the reference rewrite has a group named `ny`.
   */
  lemma PrefixNameCorrupts(n: string, y: string)
    requires IsName(n) && IsName(y) && y != []
    ensures NormalizedUri([":" + n + "/:" + n + y]) == "/" + Capture(n) + "/" + Capture(n) + y + "/?"
    ensures CompileTemplate(Wrapped([":" + n + "/:" + n + y])) == "/" + Capture(n) + "/" + Capture(n + y) + "/?"
  {
    var ny := n + y;
    IsNameConcat(n, y);
    TwoPlaceholderTemplate(n, y);
    var w := "/" + (":" + n + ("/" + (":" + ny + "/?")));
    TwoPlaceholderNames(n, ny);
    var c := Capture(n);
    var r1 := "/" + (c + ("/" + (c + (y + "/?"))));
    FirstReplaceHitsBoth(n, y);
    SecondReplaceFindsNothing(n, y);
    assert NormalizedUri([":" + n + "/:" + n + y]) == Rewrite(w, [n, ny]);
    assert [n, ny][1..] == [ny];
    assert Rewrite(w, [n, ny]) == Rewrite(r1, [ny]);
    assert Rewrite(r1, [ny]) == Rewrite(r1, []);
    Flatten6("/", c, "/", c, y, "/?");
    TwoPlaceholderReference(n, ny);
    Flatten5("/", c, "/", Capture(ny), "/?");
  }

  lemma Flatten5(a: string, b: string, c: string, d: string, e: string)
    ensures a + (b + (c + (d + e))) == a + b + c + d + e
  {
    Assoc(a, b, c + (d + e));
    Assoc(a + b, c, d + e);
    Assoc(a + b + c, d, e);
  }

  lemma Flatten6(a: string, b: string, c: string, d: string, e: string, f: string)
    ensures a + (b + (c + (d + (e + f)))) == a + b + c + d + e + f
  {
    Flatten5(a, b, c, d, e + f);
    Assoc(a + b + c + d, e, f);
  }

  lemma TwoPlaceholderNames(n: string, ny: string)
    requires IsName(n) && IsName(ny)
    ensures PlaceholderNames("/" + (":" + n + ("/" + (":" + ny + "/?")))) == [n, ny]
  {
    var t1 := ":" + ny + "/?";
    var u1 := "/" + t1;
    PlaceholderNamesSkip("/", ":" + n + u1);
    PlaceholderNamesAtName(n, u1);
    PlaceholderNamesSkip("/", t1);
    PlaceholderNamesAtName(ny, "/?");
    PlaceholderNamesSkip("/?", "");
    assert "/?" + "" == "/?";
  }

  lemma TwoPlaceholderReference(n: string, ny: string)
    requires IsName(n) && IsName(ny)
    ensures CompileTemplate("/" + (":" + n + ("/" + (":" + ny + "/?"))))
         == "/" + (Capture(n) + ("/" + (Capture(ny) + "/?")))
  {
    var t1 := ":" + ny + "/?";
    var u1 := "/" + t1;
    CompileSkipsColonFree("/", ":" + n + u1);
    CompileAtName(n, u1);
    CompileSkipsColonFree("/", t1);
    CompileAtName(ny, "/?");
    CompileSkipsColonFree("/?", "");
    assert "/?" + "" == "/?";
  }

  /** The replace of `:n` rewrites `:n` and the front of `:ny` alike. */
  lemma FirstReplaceHitsBoth(n: string, y: string)
    requires IsName(n) && IsName(y)
    ensures ReplaceAll("/" + (":" + n + ("/" + (":" + (n + y) + "/?"))), ":" + n, Capture(n))
         == "/" + (Capture(n) + ("/" + (Capture(n) + (y + "/?"))))
  {
    var pat, rep := ":" + n, Capture(n);
    var tail := y + "/?";
    var t1 := ":" + (n + y) + "/?";
    var u1 := "/" + t1;
    ReplaceSkipsColonFree("/", pat + u1, pat, rep);
    ReplaceAtPattern(pat, u1, rep);
    Assoc(":", n, y);
    Assoc(":" + n, y, "/?");
    assert t1 == pat + tail;
    ReplaceSkipsColonFree("/", pat + tail, pat, rep);
    ReplaceAtPattern(pat, tail, rep);
    assert ColonFree(tail);
    ReplaceSkipsColonFree(tail, "", pat, rep);
    assert tail + "" == tail;
  }

  /** After the first replace no `:` is left for the replace of `:ny` to find. */
  lemma SecondReplaceFindsNothing(n: string, y: string)
    requires IsName(n) && IsName(y)
    ensures var r1 := "/" + (Capture(n) + ("/" + (Capture(n) + (y + "/?"))));
      ReplaceAll(r1, ":" + (n + y), Capture(n + y)) == r1
  {
    var rep, tail := Capture(n), y + "/?";
    var r1 := "/" + (rep + ("/" + (rep + tail)));
    CaptureColonFree(n);
    assert ColonFree(tail);
    ColonFreeConcat(rep, tail);
    ColonFreeConcat("/", rep + tail);
    ColonFreeConcat(rep, "/" + (rep + tail));
    ColonFreeConcat("/", rep + ("/" + (rep + tail)));
    ReplaceSkipsColonFree(r1, "", ":" + (n + y), Capture(n + y));
    assert r1 + "" == r1;
  }

  /** The single fragment `:n/:ny` wraps to `/:n/:ny/?`, nested to the right. */
  lemma TwoPlaceholderTemplate(n: string, y: string)
    requires IsName(y) && y != []
    ensures Wrapped([":" + n + "/:" + n + y]) == "/" + (":" + n + ("/" + (":" + (n + y) + "/?")))
  {
    StripNameEnded(":" + n + "/:" + n, y);
    SingleFragment(":" + n + "/:" + n + y);
    Renest(n, y);
  }

  /** A fragment starting with `:` and ending in a name is left alone by the strip. */
  lemma StripNameEnded(p: string, y: string)
    requires |p| > 0 && p[0] == ':' && IsName(y) && y != []
    ensures Strip(p + y) == p + y
  {
    var f := p + y;
    assert f[0] == ':';
    assert f[|f| - 1] == y[|y| - 1];
    StripUnslashed(f);
  }

  lemma SingleFragment(f: string)
    ensures Wrapped([f]) == "/" + Strip(f) + "/?"
  {
    assert StrippedAll([f]) == [Strip(f)];
  }

  lemma Renest(n: string, y: string)
    ensures "/" + (":" + n + "/:" + n + y) + "/?" == "/" + (":" + n + ("/" + (":" + (n + y) + "/?")))
  {
    var ny := n + y;
    var x := ":" + n + "/:";
    Assoc(x, n, y);
    Assoc(":" + n, "/:", ny);
    Assoc("/", ":", ny);
    assert "/" + ":" == "/:";
    var z := "/" + (":" + ny);
    var f := ":" + n + "/:" + n + y;
    assert f == ":" + n + z;
    Assoc("/", ":" + n + z, "/?");
    Assoc(":" + n, z, "/?");
    Assoc("/", ":" + ny, "/?");
  }

  lemma Assoc(a: string, b: string, c: string)
    ensures a + (b + c) == a + b + c
  {
  }

  lemma IsNameConcat(a: string, b: string)
    requires IsName(a) && IsName(b)
    ensures IsName(a + b)
  {
    assert forall i :: 0 <= i < |a + b| ==> (a + b)[i] == if i < |a| then a[i] else b[i - |a|];
  }

  lemma CaptureColonFree(n: string)
    requires IsName(n)
    ensures ColonFree(Capture(n))
  {
    ColonFreeConcat("(?P<", n);
    ColonFreeConcat("(?P<" + n, ">[^\\/\\?]*)");
  }

  /** A fragment that neither starts nor ends with `/` is its own strip. */
  lemma StripUnslashed(f: string)
    requires f == [] || (f[0] != '/' && f[|f| - 1] != '/')
    ensures Strip(f) == f
  {
    assert StripLeading(f) == f;
    assert StripTrailing(f) == f;
  }

  /** The name run after a `:` stops at the first non-name character. */
  lemma {:induction false} NameRunOf(n: string, x: string)
    requires IsName(n) && (x == [] || !IsNameChar(x[0]))
    ensures NameRun(n + x) == n
  {
    if n != [] {
      assert (n + x)[1..] == n[1..] + x;
      NameRunOf(n[1..], x);
      assert n == [n[0]] + n[1..];
    } else {
      assert n + x == x;
    }
  }

  lemma PlaceholderNamesAtName(n: string, x: string)
    requires IsName(n) && (x == [] || !IsNameChar(x[0]))
    ensures PlaceholderNames(":" + n + x) == [n] + PlaceholderNames(x)
  {
    var s := ":" + n + x;
    assert s[1..] == n + x;
    NameRunOf(n, x);
    assert s[1 + |n|..] == x;
  }

  lemma CompileAtName(n: string, x: string)
    requires IsName(n) && (x == [] || !IsNameChar(x[0]))
    ensures CompileTemplate(":" + n + x) == Capture(n) + CompileTemplate(x)
  {
    var s := ":" + n + x;
    assert s[1..] == n + x;
    NameRunOf(n, x);
    assert s[1 + |n|..] == x;
  }

  lemma ReplaceAtPattern(pat: string, x: string, rep: string)
    requires |pat| > 0
    ensures ReplaceAll(pat + x, pat, rep) == rep + ReplaceAll(x, pat, rep)
  {
    assert (pat + x)[|pat|..] == x;
  }

  lemma {:induction false} CompileSkipsColonFree(p: string, x: string)
    requires ColonFree(p)
    ensures CompileTemplate(p + x) == p + CompileTemplate(x)
  {
    if p != [] {
      var s := p + x;
      assert s[0] == p[0] != ':';
      assert s[1..] == p[1..] + x;
      CompileSkipsColonFree(p[1..], x);
      assert p == [p[0]] + p[1..];
    } else {
      assert p + x == x;
    }
  }

  lemma {:induction false} PlaceholderNamesSkip(p: string, x: string)
    requires ColonFree(p)
    ensures PlaceholderNames(p + x) == PlaceholderNames(x)
  {
    if p != [] {
      var s := p + x;
      assert s[0] == p[0] != ':';
      assert s[1..] == p[1..] + x;
      assert PlaceholderNames(s) == PlaceholderNames(s[1..]);
      PlaceholderNamesSkip(p[1..], x);
    } else {
      assert p + x == x;
    }
  }
}
