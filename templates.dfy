/**
 * Placeholder substitution: every `{{ NAME }}` whose environment value is
 * non-empty is replaced by that value; every other piece of text is kept.
 * The environment is a map; os.Getenv of an absent name, or of the empty
 * name, yields "".
 */
module Templates {
  import opened Wrappers
  import opened Text
  import opened Config

  type Environment = map<string, string>

  /** os.Getenv: the empty name never has a value. */
  function Getenv(env: Environment, name: string): string
  {
    if name != "" && name in env then env[name] else ""
  }

  /**
   * The strings the pattern `\{\{\s*([^}]+)\s*\}\}` matches: "{{", one or
   * more characters other than '}', then "}}" (the optional white space is
   * itself made of characters other than '}').
   */
  predicate IsPlaceholder(t: string)
  {
    |t| >= 5 && t[0] == '{' && t[1] == '{' && t[|t| - 2] == '}' && t[|t| - 1] == '}'
    && forall k :: 2 <= k < |t| - 2 ==> t[k] != '}'
  }

  /** Whether some substring of `s` is a placeholder. */
  ghost predicate ContainsPlaceholder(s: string)
  {
    exists i, j :: 0 <= i <= j <= |s| && IsPlaceholder(s[i..j])
  }

  /** The first index at or after `k` that holds '}', or |s| when there is none. */
  function CloseBrace(s: string, k: nat): (j: nat)
    requires k <= |s|
    ensures k <= j <= |s|
    ensures j < |s| ==> s[j] == '}'
    ensures forall m :: k <= m < j ==> s[m] != '}'
    decreases |s| - k
  {
    if k == |s| || s[k] == '}' then k else CloseBrace(s, k + 1)
  }

  /** The conditions of IsPlaceholder, read off `s` itself rather than its prefix. */
  lemma PrefixPlaceholder(s: string, m: nat)
    requires m <= |s|
    ensures IsPlaceholder(s[..m]) <==>
      (m >= 5 && s[0] == '{' && s[1] == '{' && s[m - 2] == '}' && s[m - 1] == '}'
       && forall k :: 2 <= k < m - 2 ==> s[k] != '}')
  {
    if m >= 5 && s[0] == '{' && s[1] == '{' && s[m - 2] == '}' && s[m - 1] == '}'
       && forall k :: 2 <= k < m - 2 ==> s[k] != '}' {
      assert forall k :: 2 <= k < m - 2 ==> s[..m][k] == s[k];
    }
  }

  /**
   * The length of the placeholder that starts `s`, if one does: the first
   * '}' after "{{" must be followed by another.
   */
  function MatchLength(s: string): (n: Option<nat>)
    ensures n.Some? ==> 5 <= n.value <= |s|
  {
    if |s| >= 2 && s[0] == '{' && s[1] == '{' then
      var j := CloseBrace(s, 2);
      if 2 < j && j + 1 < |s| && s[j + 1] == '}' then
        Some(j + 2)
      else
        None
    else
      None
  }

  /**
   * A placeholder cannot contain '}' before its end, so at most one prefix of
   * `s` is a placeholder: the leftmost-first match is the only match, and
   * MatchLength finds it whenever it exists.
   */
  lemma MatchLengthExact(s: string, m: nat)
    requires m <= |s|
    ensures IsPlaceholder(s[..m]) <==> MatchLength(s) == Some(m)
  {
    PrefixPlaceholder(s, m);
  }

  /** The variable a placeholder names: the text between the braces, trimmed. */
  function VariableName(placeholder: string): string
    requires |placeholder| >= 4
  {
    TrimSpace(placeholder[2..|placeholder| - 2])
  }

  /** The replacement of one match: the variable's value if it is non-empty, else the match itself. */
  function Substitute(env: Environment, placeholder: string): string
    requires |placeholder| >= 4
  {
    var value := Getenv(env, VariableName(placeholder));
    if value != "" then value else placeholder
  }

  /** ProcessTemplates: a left-to-right scan replacing non-overlapping matches. */
  function Resolve(env: Environment, s: string): (r: string)
    ensures (forall k :: 0 <= k < |s| ==> s[k] != '{') ==> r == s
    decreases |s|
  {
    if s == [] then []
    else match MatchLength(s)
      case Some(n) => Substitute(env, s[..n]) + Resolve(env, s[n..])
      case None => [s[0]] + Resolve(env, s[1..])
  }

  /** The names of the matches of the scan, in order. */
  function Names(s: string): seq<string>
    decreases |s|
  {
    if s == [] then []
    else match MatchLength(s)
      case Some(n) => [VariableName(s[..n])] + Names(s[n..])
      case None => Names(s[1..])
  }

  /** A match at the front of `s` is a placeholder inside `s`. */
  lemma FrontMatchContained(s: string)
    ensures MatchLength(s).Some? ==> ContainsPlaceholder(s)
  {
    if MatchLength(s).Some? {
      var n := MatchLength(s).value;
      MatchLengthExact(s, n);
      assert s[0..n] == s[..n];
    }
  }

  /** A placeholder inside the tail of `s` is one inside `s`. */
  lemma TailContained(s: string)
    requires s != []
    ensures ContainsPlaceholder(s[1..]) ==> ContainsPlaceholder(s)
  {
    if ContainsPlaceholder(s[1..]) {
      var i, j :| 0 <= i <= j <= |s[1..]| && IsPlaceholder(s[1..][i..j]);
      assert s[1..][i..j] == s[i + 1..j + 1];
    }
  }

  /** Text in which the pattern does not match comes back unchanged. */
  lemma {:induction false} NoPlaceholderUnchanged(env: Environment, s: string)
    requires !ContainsPlaceholder(s)
    ensures Resolve(env, s) == s
    decreases |s|
  {
    if s != [] {
      FrontMatchContained(s);
      TailContained(s);
      NoPlaceholderUnchanged(env, s[1..]);
      assert [s[0]] + s[1..] == s;
    }
  }

  /** One step of the scan where no match starts at the front. */
  lemma PlainStep(env: Environment, s: string)
    requires s != [] && MatchLength(s).None?
    ensures Resolve(env, s) == [s[0]] + Resolve(env, s[1..])
    ensures Names(s) == Names(s[1..])
  {
  }

  /** One step of the scan where a match of length `n` starts at the front. */
  lemma MatchStep(env: Environment, s: string, n: nat)
    requires s != [] && MatchLength(s) == Some(n)
    ensures Resolve(env, s) == Substitute(env, s[..n]) + Resolve(env, s[n..])
  {
  }

  /** The name of a match of length `n` at the front of `s` comes first. */
  lemma MatchNamesStep(s: string, n: nat)
    requires s != [] && MatchLength(s) == Some(n)
    ensures Names(s) == [VariableName(s[..n])] + Names(s[n..])
  {
  }

  /** A match at the front is substituted on its own and the scan resumes right after it. */
  lemma {:induction false} PlaceholderThenRest(env: Environment, p: string, rest: string)
    requires IsPlaceholder(p)
    ensures Resolve(env, p + rest) == Substitute(env, p) + Resolve(env, rest)
    ensures Names(p + rest) == [VariableName(p)] + Names(rest)
  {
    var s := p + rest;
    assert s[..|p|] == p;
    MatchLengthExact(s, |p|);
    assert s[|p|..] == rest;
    MatchStep(env, s, |p|);
    MatchNamesStep(s, |p|);
  }

  /** Text without '{' is copied through, and the scan goes on after it. */
  lemma {:induction false} PlainTextThenRest(env: Environment, t: string, rest: string)
    requires forall k :: 0 <= k < |t| ==> t[k] != '{'
    ensures Resolve(env, t + rest) == t + Resolve(env, rest)
    decreases |t|
  {
    if t == [] {
      assert t + rest == rest;
    } else {
      var s := t + rest;
      var tail := t[1..];
      assert s[0] == t[0];
      assert s[1..] == tail + rest;
      PlainStep(env, s);
      PlainTextThenRest(env, tail, rest);
      assert t == [t[0]] + tail;
      Regroup([t[0]], tail, Resolve(env, rest));
    }
  }

  /** Concatenation regrouped. */
  lemma Regroup(a: string, b: string, c: string)
    ensures (a + b) + c == a + (b + c)
  {
  }

  /**
   * `{{ NAME }}` becomes the value of NAME, the white space around the name
   * being ignored, when that value is non-empty; otherwise the exact matched
   * text stays, spaces included.
   */
  lemma {:induction false} PlaceholderSubstitution(env: Environment, lead: string, name: string, trail: string, rest: string)
    requires AllSpace(lead) && AllSpace(trail)
    requires name != [] && !IsSpace(name[0]) && !IsSpace(name[|name| - 1])
    requires forall k :: 0 <= k < |name| ==> name[k] != '}'
    ensures var p := "{{" + lead + name + trail + "}}";
            Resolve(env, p + rest) == (if Getenv(env, name) != "" then Getenv(env, name) else p) + Resolve(env, rest)
  {
    var p := "{{" + lead + name + trail + "}}";
    var inner := lead + name + trail;
    assert p == "{{" + inner + "}}";
    assert p[2..|p| - 2] == inner;
    forall k | 2 <= k < |p| - 2 ensures p[k] != '}' {
      assert p[k] == inner[k - 2];
      if k - 2 < |lead| {
        assert IsSpace(lead[k - 2]);
      } else if k - 2 < |lead| + |name| {
        assert inner[k - 2] == name[k - 2 - |lead|];
      } else {
        assert IsSpace(trail[k - 2 - |lead| - |name|]);
      }
    }
    TrimSpaceOfPadded(lead, name, trail);
    PlaceholderThenRest(env, p, rest);
  }

  /**
   * A placeholder holding only white space, such as `{{ }}`, names the empty
   * variable, which never has a value: it stays as written whatever the
   * environment holds.
   */
  lemma {:induction false} BlankPlaceholderKept(env: Environment, blank: string, rest: string)
    requires blank != [] && AllSpace(blank)
    ensures Resolve(env, "{{" + blank + "}}" + rest) == "{{" + blank + "}}" + Resolve(env, rest)
  {
    var p := "{{" + blank + "}}";
    assert p[2..|p| - 2] == blank;
    forall k | 2 <= k < |p| - 2 ensures p[k] != '}' {
      assert p[k] == blank[k - 2];
      assert IsSpace(blank[k - 2]);
    }
    AllSpaceTrimsToEmpty(blank);
    PlaceholderThenRest(env, p, rest);
  }

  /** White space alone trims to nothing. */
  lemma AllSpaceTrimsToEmpty(s: string)
    requires AllSpace(s)
    ensures TrimSpace(s) == ""
  {
  }

  /** No name in `names` has a non-empty value in `env`. */
  ghost predicate AllUnset(env: Environment, names: seq<string>)
  {
    forall k :: 0 <= k < |names| ==> Getenv(env, names[k]) == ""
  }

  /** A front match whose name is unset stays as it is, and the rest of the names stay unset. */
  lemma UnsetFrontMatch(env: Environment, s: string, n: nat)
    requires s != [] && MatchLength(s) == Some(n)
    requires AllUnset(env, Names(s))
    ensures Substitute(env, s[..n]) == s[..n]
    ensures AllUnset(env, Names(s[n..]))
  {
    MatchNamesStep(s, n);
    var tail := Names(s[n..]);
    assert Names(s) == [VariableName(s[..n])] + tail;
    assert Names(s)[0] == VariableName(s[..n]);
    forall k | 0 <= k < |tail| ensures Getenv(env, tail[k]) == "" {
      assert Names(s)[k + 1] == tail[k];
    }
  }

  /** A front match kept as it is, followed by a tail that resolves to itself. */
  lemma KeptFrontMatch(env: Environment, s: string, n: nat)
    requires s != [] && MatchLength(s) == Some(n)
    requires Substitute(env, s[..n]) == s[..n]
    requires Resolve(env, s[n..]) == s[n..]
    ensures Resolve(env, s) == s
  {
    MatchStep(env, s, n);
    Rejoin(s, n, Substitute(env, s[..n]), Resolve(env, s[n..]));
  }

  /** Pieces equal to the two halves of `s` rebuild `s`. */
  lemma Rejoin(s: string, n: nat, front: string, back: string)
    requires n <= |s| && front == s[..n] && back == s[n..]
    ensures front + back == s
  {
  }

  /** When no referenced variable has a non-empty value, the output equals the input. */
  lemma {:induction false} UnsetVariablesLeaveInput(env: Environment, s: string)
    requires AllUnset(env, Names(s))
    ensures Resolve(env, s) == s
    decreases |s|
  {
    if s != [] {
      var m := MatchLength(s);
      if m.Some? {
        var n := m.value;
        UnsetFrontMatch(env, s, n);
        UnsetVariablesLeaveInput(env, s[n..]);
        KeptFrontMatch(env, s, n);
      } else {
        PlainStep(env, s);
        UnsetVariablesLeaveInput(env, s[1..]);
        assert [s[0]] + s[1..] == s;
      }
    }
  }

  /** With an empty environment nothing is substituted. */
  lemma EmptyEnvironmentIdentity(s: string)
    ensures Resolve(map[], s) == s
  {
    UnsetVariablesLeaveInput(map[], s);
  }

  /**
   * An Authorization value "Bearer {{ NAME }}" carries NAME's value when it is
   * non-empty and is left as written otherwise.
   */
  lemma BearerToken(env: Environment, name: string)
    requires name != [] && !IsSpace(name[0]) && !IsSpace(name[|name| - 1])
    requires forall k :: 0 <= k < |name| ==> name[k] != '}'
    ensures Resolve(env, "Bearer {{ " + name + " }}")
         == "Bearer " + (if Getenv(env, name) != "" then Getenv(env, name) else "{{ " + name + " }}")
  {
    var p := "{{" + " " + name + " " + "}}";
    assert "Bearer {{ " + name + " }}" == "Bearer " + (p + "");
    assert p == "{{ " + name + " }}";
    assert Resolve(env, "") == "";
    PlainTextThenRest(env, "Bearer ", p + "");
    PlaceholderSubstitution(env, " ", name, " ", "");
  }

  /**
   * Substitution is not idempotent: a value that itself looks like a
   * placeholder is resolved again by a second pass.
   */
  lemma SecondPassResolvesValues(a: string, b: string, x: string)
    requires a != [] && !IsSpace(a[0]) && !IsSpace(a[|a| - 1]) && forall k :: 0 <= k < |a| ==> a[k] != '}'
    requires b != [] && !IsSpace(b[0]) && !IsSpace(b[|b| - 1]) && forall k :: 0 <= k < |b| ==> b[k] != '}'
    requires a != b && x != ""
    ensures var env := map[a := "{{" + b + "}}", b := x];
            Resolve(env, "{{" + a + "}}") == "{{" + b + "}}" && Resolve(env, Resolve(env, "{{" + a + "}}")) == x
  {
    var env := map[a := "{{" + b + "}}", b := x];
    var pa, pb := "{{" + a + "}}", "{{" + b + "}}";
    assert Getenv(env, a) == pb by { assert a != "" && a in env; }
    assert Getenv(env, b) == x by { assert b != "" && b in env; }
    NamedPlaceholder(env, a);
    NamedPlaceholder(env, b);
    assert Resolve(env, pa) == pb;
    assert Resolve(env, pb) == x;
  }

  /** `{{NAME}}` alone becomes NAME's value when it is non-empty, and stays otherwise. */
  lemma NamedPlaceholder(env: Environment, name: string)
    requires name != [] && !IsSpace(name[0]) && !IsSpace(name[|name| - 1])
    requires forall k :: 0 <= k < |name| ==> name[k] != '}'
    ensures Resolve(env, "{{" + name + "}}")
         == if Getenv(env, name) != "" then Getenv(env, name) else "{{" + name + "}}"
  {
    BracedName(name);
    PlaceholderAlone(env, "{{" + name + "}}");
  }

  /** `{{NAME}}` is a placeholder naming NAME. */
  lemma BracedName(name: string)
    requires name != [] && !IsSpace(name[0]) && !IsSpace(name[|name| - 1])
    requires forall k :: 0 <= k < |name| ==> name[k] != '}'
    ensures IsPlaceholder("{{" + name + "}}") && VariableName("{{" + name + "}}") == name
  {
    BracedIsPlaceholder(name);
    BracedVariable(name);
  }

  lemma BracedIsPlaceholder(name: string)
    requires name != [] && forall k :: 0 <= k < |name| ==> name[k] != '}'
    ensures IsPlaceholder("{{" + name + "}}")
  {
    var p := "{{" + name + "}}";
    forall k | 2 <= k < |p| - 2 ensures p[k] != '}' {
      assert p[k] == name[k - 2];
    }
  }

  lemma BracedVariable(name: string)
    requires name != [] && !IsSpace(name[0]) && !IsSpace(name[|name| - 1])
    ensures VariableName("{{" + name + "}}") == name
  {
    var p := "{{" + name + "}}";
    assert p[2..|p| - 2] == name;
    TrimSpaceOfPadded([], name, []);
    assert [] + name + [] == name;
  }

  /** A text that is a placeholder and nothing else is replaced as a whole. */
  lemma PlaceholderAlone(env: Environment, p: string)
    requires IsPlaceholder(p)
    ensures Resolve(env, p) == Substitute(env, p)
  {
    PlaceholderThenRest(env, p, []);
    assert p + [] == p;
    assert Substitute(env, p) + [] == Substitute(env, p);
  }

  /** Every value of a configured map resolved; the keys stay the same. */
  function ResolveMap(env: Environment, m: map<string, string>): (r: map<string, string>)
    ensures r.Keys == m.Keys
  {
    map k | k in m :: Resolve(env, m[k])
  }

  function ResolveMaps(env: Environment, ms: seq<map<string, string>>): (r: seq<map<string, string>>)
    ensures |r| == |ms|
  {
    seq(|ms|, i requires 0 <= i < |ms| => ResolveMap(env, ms[i]))
  }

  /** The endpoint after ProcessEndpointTemplates. */
  function ResolveEndpoint(env: Environment, e: Endpoint): (r: Endpoint)
    ensures r.path == e.path && r.timeout == e.timeout
    ensures |r.headers| == |e.headers| && |r.queryParams| == |e.queryParams|
    ensures forall i :: 0 <= i < |e.headers| ==> r.headers[i].Keys == e.headers[i].Keys
    ensures forall i :: 0 <= i < |e.queryParams| ==> r.queryParams[i].Keys == e.queryParams[i].Keys
  {
    e.(remoteURL := Resolve(env, e.remoteURL),
       headers := ResolveMaps(env, e.headers),
       queryParams := ResolveMaps(env, e.queryParams))
  }

  /** With an empty environment an endpoint comes back unchanged. */
  lemma {:induction false} EmptyEnvironmentKeepsEndpoint(e: Endpoint)
    ensures ResolveEndpoint(map[], e) == e
  {
    EmptyEnvironmentIdentity(e.remoteURL);
    EmptyEnvironmentKeepsMaps(e.headers);
    EmptyEnvironmentKeepsMaps(e.queryParams);
  }

  lemma EmptyEnvironmentKeepsMaps(ms: seq<map<string, string>>)
    ensures ResolveMaps(map[], ms) == ms
  {
    forall i | 0 <= i < |ms| ensures ResolveMap(map[], ms[i]) == ms[i] {
      forall k | k in ms[i] ensures Resolve(map[], ms[i][k]) == ms[i][k] {
        EmptyEnvironmentIdentity(ms[i][k]);
      }
    }
  }

  /**
   * The handler keeps the endpoint it resolved: a remote URL "{{ NAME }}"
   * resolved while NAME held `a` stays `a` when NAME later holds `b`,
   * whereas the endpoint as configured would now resolve to `b`.
   */
  lemma ResolvedEndpointIsKept(e: Endpoint, name: string, a: string, b: string)
    requires name != [] && !IsSpace(name[0]) && !IsSpace(name[|name| - 1])
    requires forall k :: 0 <= k < |name| ==> name[k] != '}'
    requires a != "" && b != "" && forall k :: 0 <= k < |a| ==> a[k] != '{'
    requires e.remoteURL == "{{ " + name + " }}"
    ensures var first := ResolveEndpoint(map[name := a], e);
            first.remoteURL == a
            && ResolveEndpoint(map[name := b], first).remoteURL == a
            && ResolveEndpoint(map[name := b], e).remoteURL == b
  {
    var p := "{{" + " " + name + " " + "}}";
    assert e.remoteURL == p + "";
    assert Resolve(map[name := a], "") == "";
    assert Resolve(map[name := b], "") == "";
    PlaceholderSubstitution(map[name := a], " ", name, " ", "");
    PlaceholderSubstitution(map[name := b], " ", name, " ", "");
    assert a + "" == a;
    PlainTextThenRest(map[name := b], a, "");
  }

  /** A *Endpoint: the endpoint variable that ProcessEndpointTemplates rewrites in place. */
  class EndpointCell {
    var path: string
    var remoteURL: string
    var headers: seq<map<string, string>>
    var queryParams: seq<map<string, string>>
    var timeout: string

    constructor (e: Endpoint)
      ensures Value() == e
    {
      path, remoteURL, headers, queryParams, timeout := e.path, e.remoteURL, e.headers, e.queryParams, e.timeout;
    }

    function Value(): Endpoint
      reads this
    {
      Endpoint(path, remoteURL, headers, queryParams, timeout)
    }
  }

  /**
   * ProcessEndpointTemplates: the remote URL and every header and query value
   * are replaced by their resolution; keys, list lengths and order, the path
   * and the timeout are untouched.
   */
  method ProcessEndpointTemplates(e: EndpointCell, env: Environment)
    modifies e
    ensures e.Value() == ResolveEndpoint(env, old(e.Value()))
    ensures e.path == old(e.path) && e.timeout == old(e.timeout)
    ensures |e.headers| == old(|e.headers|) && |e.queryParams| == old(|e.queryParams|)
    ensures forall i :: 0 <= i < |e.headers| ==> e.headers[i].Keys == old(e.headers[i].Keys)
    ensures forall i :: 0 <= i < |e.queryParams| ==> e.queryParams[i].Keys == old(e.queryParams[i].Keys)
  {
    e.remoteURL := Resolve(env, e.remoteURL);
    e.headers := ResolveEach(e.headers, env);
    e.queryParams := ResolveEach(e.queryParams, env);
  }

  /** The outer loop `for i, m := range list`, resolving each map in turn. */
  method ResolveEach(list: seq<map<string, string>>, env: Environment) returns (out: seq<map<string, string>>)
    ensures out == ResolveMaps(env, list)
  {
    out := list;
    var i := 0;
    while i < |out|
      invariant |out| == |list|
      invariant 0 <= i <= |list|
      invariant forall j :: 0 <= j < i ==> out[j] == ResolveMap(env, list[j])
      invariant forall j :: i <= j < |list| ==> out[j] == list[j]
    {
      var resolved := ResolveValues(out[i], env);
      out := out[i := resolved];
      i := i + 1;
    }
  }

  /** The inner loop `for key, value := range m { m[key] = ProcessTemplates(value) }`. */
  method ResolveValues(m: map<string, string>, env: Environment) returns (out: map<string, string>)
    ensures out == ResolveMap(env, m)
  {
    out := m;
    var todo := m.Keys;
    while todo != {}
      invariant todo <= m.Keys
      invariant out.Keys == m.Keys
      invariant forall k :: k in m ==> out[k] == if k in todo then m[k] else Resolve(env, m[k])
      decreases todo
    {
      var key :| key in todo;
      out := out[key := Resolve(env, m[key])];
      todo := todo - {key};
    }
  }
}
