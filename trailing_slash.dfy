/**
 * The trailing-slash middleware: before routing, a path gets a '/' appended
 * unless it already ends in one or its last segment looks like a file name
 * (contains a '.').
 */
module TrailingSlash {
  import opened Text
  import opened Http

  /** The text after the last '/' of `path` (all of it when there is none). */
  function LastSegment(path: string): (seg: string)
    ensures |seg| <= |path| && seg == path[|path| - |seg|..]
    ensures |seg| < |path| ==> path[|path| - |seg| - 1] == '/'
  {
    path[LastIndex(path, '/') + 1..]
  }

  /** The last segment holds no '/': it is the whole text after the last one. */
  lemma LastSegmentHasNoSlash(path: string)
    ensures '/' !in LastSegment(path)
  {
    var i := LastIndex(path, '/');
    var seg := LastSegment(path);
    forall j | 0 <= j < |seg| ensures seg[j] != '/' {
      assert seg[j] == path[i + 1 + j];
    }
  }

  /** Whether the middleware rewrites `path`. */
  predicate NeedsSlash(path: string)
  {
    path != "/" && !HasSuffix(path, "/") && '.' !in LastSegment(path)
  }

  /** The path the router sees. */
  function Normalize(path: string): (r: string)
    ensures r == path || r == path + "/"
    ensures r == path + "/" <==> (path == [] || path[|path| - 1] != '/') && '.' !in LastSegment(path)
  {
    if NeedsSlash(path) then path + "/" else path
  }

  /** The request the router sees: only the URL's path can differ. */
  function NormalizeRequest(r: Request): (out: Request)
    ensures out.verb == r.verb && out.header == r.header
    ensures out.url == r.url.(path := Normalize(r.url.path))
  {
    r.(url := r.url.(path := Normalize(r.url.path)))
  }

  /** Whatever the input, the router sees a path that ends in '/' or whose last segment has a '.'. */
  lemma NormalizedShape(path: string)
    ensures var r := Normalize(path);
            HasSuffix(r, "/") || '.' in LastSegment(r)
  {
    var r := Normalize(path);
    if r == path + "/" {
      assert r[|r| - 1] == '/';
    }
  }

  /** The root, a path ending in '/', and a file-like last segment pass through unchanged. */
  lemma UnchangedPaths(path: string)
    requires path == "/" || HasSuffix(path, "/") || '.' in LastSegment(path)
    ensures Normalize(path) == path
  {
  }

  /** Any other path, the empty one included, gets exactly one '/' appended. */
  lemma SlashAppended(path: string)
    requires path != "/" && !HasSuffix(path, "/") && '.' !in LastSegment(path)
    ensures Normalize(path) == path + "/"
  {
  }

  /** A path with no '.' at all that does not end in '/' gets one appended. */
  lemma NoDotRewritten(path: string)
    requires path != [] && path[|path| - 1] != '/' && '.' !in path
    ensures Normalize(path) == path + "/"
  {
    var seg := LastSegment(path);
    forall j | 0 <= j < |seg| ensures seg[j] != '.' {
      assert seg[j] == path[|path| - |seg| + j];
    }
  }

  /** A dot in an earlier segment does not stop the rewrite: only the last segment counts. */
  lemma DotInEarlierSegment(dir: string, name: string)
    requires '/' !in name && '.' !in name && name != []
    ensures Normalize(dir + "/" + name) == dir + "/" + name + "/"
  {
    var p := dir + "/" + name;
    var i := LastIndex(p, '/');
    assert p[|dir|] == '/';
    assert i == |dir|;
    assert p[i + 1..] == name;
    assert p[|p| - 1] == name[|name| - 1];
  }

  /** Normalising twice is normalising once. */
  lemma NormalizeIdempotent(path: string)
    ensures Normalize(Normalize(path)) == Normalize(path)
  {
    var r := Normalize(path);
    if r != path {
      assert r[|r| - 1] == '/';
      assert HasSuffix(r, "/");
    }
  }
}
