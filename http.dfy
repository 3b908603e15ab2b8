/**
 * The parts of Go's net/http and net/url that the handlers use: header and
 * query multimaps, URLs, requests, and a response writer.
 * Header keys are compared verbatim (canonicalisation is not modelled).
 */
module Http {
  import opened Wrappers

  /** http.Header and url.Values alike: every key maps to its list of values. */
  type Multimap = map<string, seq<string>>

  /** All values of `key`, empty when the key is absent. */
  function Values(m: Multimap, key: string): seq<string>
  {
    if key in m then m[key] else []
  }

  /** Header.Get and Values.Get: the first value, or "" when there is none. */
  function Get(m: Multimap, key: string): (v: string)
    ensures v != "" ==> key in m && m[key] != [] && v == m[key][0]
  {
    if key in m && m[key] != [] then m[key][0] else ""
  }

  /** Header.Add and Values.Add: appends one value to the key's list. */
  function Add(m: Multimap, key: string, value: string): Multimap
  {
    m[key := Values(m, key) + [value]]
  }

  /** Header.Set and Values.Set: the key ends with exactly this one value. */
  function Set(m: Multimap, key: string, value: string): Multimap
  {
    m[key := [value]]
  }

  /** Header.Del. */
  function Del(m: Multimap, key: string): Multimap
  {
    m - {key}
  }

  /**
   * `Set(k, pairs[k])` for every key of one configured map. The keys of a
   * map are distinct, so the order in which Go visits them does not matter.
   */
  function SetPairs(m: Multimap, pairs: map<string, string>): (r: Multimap)
    ensures r.Keys == m.Keys + pairs.Keys
    ensures forall k :: k in pairs ==> r[k] == [pairs[k]]
    ensures forall k :: k in m && k !in pairs ==> r[k] == m[k]
  {
    map k | k in m.Keys + pairs.Keys :: if k in pairs then [pairs[k]] else m[k]
  }

  /** SetPairs for each configured map of a list, in declaration order. */
  function SetEach(m: Multimap, maps: seq<map<string, string>>): Multimap
    decreases |maps|
  {
    if maps == [] then m else SetPairs(SetEach(m, maps[..|maps| - 1]), maps[|maps| - 1])
  }

  /**
   * A key set by some configured map ends with exactly one value: the one
   * of the last map that sets it.
   */
  lemma {:induction false} SetEachLastWins(m: Multimap, maps: seq<map<string, string>>, j: nat, key: string)
    requires j < |maps| && key in maps[j]
    requires forall j' :: j < j' < |maps| ==> key !in maps[j']
    ensures key in SetEach(m, maps) && SetEach(m, maps)[key] == [maps[j][key]]
  {
    var n := |maps|;
    if j < n - 1 {
      assert key !in maps[n - 1];
      var init := maps[..n - 1];
      forall j' | j < j' < |init| ensures key !in init[j'] {
        assert init[j'] == maps[j'];
      }
      SetEachLastWins(m, init, j, key);
    }
  }

  /** A key that no configured map sets keeps exactly the values it had. */
  lemma {:induction false} SetEachKeepsUnconfigured(m: Multimap, maps: seq<map<string, string>>, key: string)
    requires forall j :: 0 <= j < |maps| ==> key !in maps[j]
    ensures key in SetEach(m, maps) <==> key in m
    ensures key in m ==> SetEach(m, maps)[key] == m[key]
  {
    if maps != [] {
      var init := maps[..|maps| - 1];
      assert key !in maps[|maps| - 1];
      forall j | 0 <= j < |init| ensures key !in init[j] {
        assert init[j] == maps[j];
      }
      SetEachKeepsUnconfigured(m, init, key);
    }
  }

  /**
   * The result of `Add(k, v)` onto `dst` for every key `k` of `src` outside
   * `skip` and every value `v` of that key, in order.
   */
  function AddAll(dst: Multimap, src: Multimap, skip: set<string>): (r: Multimap)
    ensures forall k :: k in r <==> k in dst || (k in src && k !in skip && src[k] != [])
    ensures forall k :: Values(r, k) == Values(dst, k) + (if k in skip then [] else Values(src, k))
  {
    map k | k in dst.Keys + (src.Keys - skip) && (k in dst || src[k] != [])
      :: Values(dst, k) + (if k in skip then [] else Values(src, k))
  }

  /** `for _, v := range values { m.Add(key, v) }`. */
  method AddEachValue(m: Multimap, key: string, values: seq<string>) returns (out: Multimap)
    ensures forall k :: k != key ==> (k in out <==> k in m) && Values(out, k) == Values(m, k)
    ensures key in out <==> key in m || values != []
    ensures Values(out, key) == Values(m, key) + values
  {
    out := m;
    var i := 0;
    while i < |values|
      invariant 0 <= i <= |values|
      invariant forall k :: k != key ==> (k in out <==> k in m) && Values(out, k) == Values(m, k)
      invariant key in out <==> key in m || i > 0
      invariant Values(out, key) == Values(m, key) + values[..i]
    {
      assert values[..i + 1] == values[..i] + [values[i]];
      out := Add(out, key, values[i]);
      i := i + 1;
    }
    assert values[..i] == values;
  }

  /**
   * The loop `for key, values := range src { for _, v := range values { dst.Add(key, v) } }`,
   * leaving out the keys in `skip`.
   */
  method AddAllValues(dst: Multimap, src: Multimap, skip: set<string>) returns (out: Multimap)
    ensures out == AddAll(dst, src, skip)
  {
    out := dst;
    var todo := src.Keys;
    SameKeysSameValues(out, AddAll(dst, src, skip + todo));
    while todo != {}
      invariant todo <= src.Keys
      invariant out == AddAll(dst, src, skip + todo)
      decreases todo
    {
      var key :| key in todo;
      ghost var before := out;
      if key !in skip {
        out := AddEachValue(out, key, src[key]);
      }
      AddAllStep(dst, src, skip, todo, key, before, out);
      todo := todo - {key};
    }
    assert skip + todo == skip;
  }

  /** Adding the values of one more key of `src` moves that key out of the skipped set. */
  lemma AddAllStep(dst: Multimap, src: Multimap, skip: set<string>, todo: set<string>, key: string, before: Multimap, after: Multimap)
    requires key in todo && key in src
    requires before == AddAll(dst, src, skip + todo)
    requires forall k :: k != key ==> (k in after <==> k in before) && Values(after, k) == Values(before, k)
    requires key in after <==> key in before || (key !in skip && src[key] != [])
    requires Values(after, key) == Values(before, key) + (if key in skip then [] else src[key])
    ensures after == AddAll(dst, src, skip + (todo - {key}))
  {
    var rest := skip + (todo - {key});
    var goal := AddAll(dst, src, rest);
    forall k ensures (k in after <==> k in goal) && Values(after, k) == Values(goal, k) {
      var was := Values(before, k);
      var want := Values(goal, k);
      assert was == Values(dst, k) + (if k in skip + todo then [] else Values(src, k));
      assert want == Values(dst, k) + (if k in rest then [] else Values(src, k));
      if k != key {
        assert k in rest <==> k in skip + todo;
        assert Values(after, k) == was;
        assert was == want;
      } else if key in skip {
        assert Values(after, k) == was + [];
        assert was == want;
      } else {
        assert Values(after, k) == was + src[k];
        assert was == Values(dst, k);
        assert want == Values(dst, k) + src[k];
      }
    }
    SameKeysSameValues(after, goal);
  }

  /** `for key, value := range pairs { m.Set(key, value) }`. */
  method SetAllPairs(m: Multimap, pairs: map<string, string>) returns (out: Multimap)
    ensures out == SetPairs(m, pairs)
  {
    out := m;
    var todo := pairs.Keys;
    while todo != {}
      invariant todo <= pairs.Keys
      invariant out.Keys == m.Keys + (pairs.Keys - todo)
      invariant forall k :: k in pairs && k !in todo ==> out[k] == [pairs[k]]
      invariant forall k :: k in m && (k !in pairs || k in todo) ==> out[k] == m[k]
      decreases todo
    {
      var key :| key in todo;
      out := Set(out, key, pairs[key]);
      todo := todo - {key};
    }
  }

  /** The nested loop that applies each configured map of a list in turn with Set. */
  method SetAllMaps(m: Multimap, maps: seq<map<string, string>>) returns (out: Multimap)
    ensures out == SetEach(m, maps)
  {
    out := m;
    var i := 0;
    while i < |maps|
      invariant 0 <= i <= |maps|
      invariant out == SetEach(m, maps[..i])
    {
      assert maps[..i + 1][..i] == maps[..i];
      out := SetAllPairs(out, maps[i]);
      i := i + 1;
    }
    assert maps[..i] == maps;
  }

  /** Two multimaps with the same keys and the same values per key are equal. */
  lemma SameKeysSameValues(a: Multimap, b: Multimap)
    requires forall k :: k in a <==> k in b
    requires forall k :: Values(a, k) == Values(b, k)
    ensures a == b
  {
    forall k | k in a ensures a[k] == b[k] {
      assert Values(a, k) == Values(b, k);
    }
  }

  datatype URL = URL(scheme: string, host: string, path: string, rawQuery: string, fragment: string)

  datatype Request = Request(verb: string, url: URL, header: Multimap)

  /** What the client receives; status 0 stands for "no status written yet". */
  datatype Response = Response(status: nat, header: Multimap, body: string)

  /** ResponseWriter.WriteHeader: only the first call takes effect. */
  function WithStatus(r: Response, code: nat): Response
  {
    if r.status == 0 then r.(status := code) else r
  }

  /** ResponseWriter.Write: writes 200 first when no status was written. */
  function WithBody(r: Response, data: string): Response
  {
    var s := WithStatus(r, 200);
    s.(body := s.body + data)
  }

  /** http.Error: plain-text headers, the status, then the message and a newline. */
  function WithError(r: Response, message: string, code: nat): Response
  {
    var h := Set(Set(Del(r.header, "Content-Length"), "Content-Type", "text/plain; charset=utf-8"),
                 "X-Content-Type-Options", "nosniff");
    WithBody(WithStatus(r.(header := h), code), message + "\n")
  }

  /** The http.ResponseWriter a handler writes to. */
  class ResponseWriter {
    var header: Multimap
    var status: nat
    var body: string

    constructor ()
      ensures header == map[] && status == 0 && body == ""
    {
      header, status, body := map[], 0, "";
    }

    function Snapshot(): Response
      reads this
    {
      Response(status, header, body)
    }

    method SetHeader(key: string, value: string)
      modifies this
      ensures Snapshot() == old(Snapshot()).(header := Set(old(header), key, value))
    {
      header := Set(header, key, value);
    }

    /** Adds every value of every key of `src` to the header. */
    method AddHeaders(src: Multimap)
      modifies this
      ensures Snapshot() == old(Snapshot()).(header := AddAll(old(header), src, {}))
    {
      header := AddAllValues(header, src, {});
    }

    method WriteHeader(code: nat)
      modifies this
      ensures Snapshot() == WithStatus(old(Snapshot()), code)
    {
      if status == 0 {
        status := code;
      }
    }

    method Write(data: string)
      modifies this
      ensures Snapshot() == WithBody(old(Snapshot()), data)
    {
      WriteHeader(200);
      body := body + data;
    }

    /** http.Error(w, message, code). */
    method Error(message: string, code: nat)
      modifies this
      ensures Snapshot() == WithError(old(Snapshot()), message, code)
    {
      header := Del(header, "Content-Length");
      SetHeader("Content-Type", "text/plain; charset=utf-8");
      SetHeader("X-Content-Type-Options", "nosniff");
      WriteHeader(code);
      Write(message + "\n");
    }
  }

  /** What the upstream round trip produced: a transport failure or a reply. */
  datatype Upstream = TransportFailure | Reply(status: nat, header: Multimap, body: string)

  /** The request sent upstream: its method (verb), URL, headers, Host and client timeout (ns). */
  datatype OutboundRequest = OutboundRequest(verb: string, url: URL, header: Multimap, host: string, timeout: int)

  /**
   * Library behaviour the model does not define: time.ParseDuration on a
   * non-empty string, url.Parse, URL.Query's parse of a raw query,
   * url.Values.Encode, and whether http.NewRequest accepts a method and URL.
   */
  datatype Library = Library(
    parseDuration: string -> Option<int>,
    parseURL: string -> Option<URL>,
    parseQuery: string -> Multimap,
    encodeQuery: Multimap -> string,
    requestBuildable: (string, URL) -> bool)

  /** time.ParseDuration, which rejects the empty string. */
  function ParseDuration(lib: Library, s: string): (d: Option<int>)
    ensures s == "" ==> d == None
  {
    if s == "" then None else lib.parseDuration(s)
  }
}
