/** Schedule parameters: the payload and the text that is hashed, both computed from an unordered map. */
module Schedules {
  import opened Values
  import opened Sorting

  /** Raw JSON by key, as in the spec. */
  type Raw = map<string, string>

  /** encoding/json and strings.TrimSpace, as far as the code relies on them. */
  datatype Library = Library(parse: string -> Option<string>, trim: string -> string)

  /**
   Two documents that parse and differ only in surrounding space have one value, and a document followed by '&' never
   begins another: nothing in JSON can follow a complete value and then an ampersand.
   */
  ghost predicate Sound(lib: Library) {
    && (forall x, y :: lib.trim(x) == lib.trim(y) && lib.parse(x).Some? && lib.parse(y).Some? ==>
          lib.parse(x) == lib.parse(y))
    && (forall x, y :: lib.parse(x).Some? && lib.parse(y).Some? ==> !(lib.trim(x) + "&" <= lib.trim(y)))
  }

  /** The keys that carry a value. */
  function Used(raw: Raw): set<string> { set k | k in raw && raw[k] != "" }

  predicate Parses(lib: Library, raw: Raw) { forall k :: k in Used(raw) ==> lib.parse(raw[k]).Some? }

  function Payload(lib: Library, raw: Raw): map<string, string>
    requires Parses(lib, raw)
  {
    map k | k in Used(raw) :: lib.parse(raw[k]).value
  }

  function Part(lib: Library, raw: Raw, k: string): string
    requires k in raw
  {
    k + "=" + lib.trim(raw[k])
  }

  function Parts(lib: Library, raw: Raw, keys: seq<string>): seq<string>
    requires forall k :: k in keys ==> k in raw
  {
    if keys == [] then [] else [Part(lib, raw, keys[0])] + Parts(lib, raw, keys[1..])
  }

  /** strings.Join(parts, "&"). */
  function Join(parts: seq<string>): string {
    if parts == [] then "" else if |parts| == 1 then parts[0] else parts[0] + "&" + Join(parts[1..])
  }

  /** Lists the set, in increasing order. */
  ghost predicate Lists(keys: seq<string>, s: set<string>) {
    multiset(keys) == multiset(s) && Sorted(ByKey(Self), keys)
  }

  lemma OneListing(a: seq<string>, b: seq<string>, s: set<string>)
    requires Lists(a, s) && Lists(b, s)
    ensures a == b
  {
    ByKeyIsWeakOrder(Self);
    SortedPermutationIsUnique(ByKey(Self), a, b);
  }

  lemma {:induction false} ListingExists(s: set<string>)
    ensures exists keys :: Lists(keys, s)
  {
    ByKeyIsWeakOrder(Self);
    if s == {} {
      assert Lists([], s);
    } else {
      var x :| x in s;
      ListingExists(s - {x});
      var keys :| Lists(keys, s - {x});
      InsertAdds(ByKey(Self), keys, x);
      InsertKeepsSorted(ByKey(Self), keys, x);
      assert multiset(s - {x}) + multiset{x} == multiset(s);
      assert Lists(Insert(ByKey(Self), keys, x), s);
    }
  }

  lemma ListedKeys(keys: seq<string>, s: set<string>)
    requires Lists(keys, s)
    ensures forall k :: k in keys <==> k in s
  {
    forall k ensures k in keys <==> k in s {
      assert k in keys <==> k in multiset(keys);
      assert k in s <==> k in multiset(s);
    }
  }

  ghost function KeysOf(raw: Raw): (keys: seq<string>)
    ensures Lists(keys, Used(raw)) && forall k :: k in keys ==> k in raw
  {
    ListingExists(Used(raw));
    var keys :| Lists(keys, Used(raw));
    ListedKeys(keys, Used(raw));
    keys
  }

  /** The text of the parameters; it is a function of the map, so no iteration order can show in it. */
  ghost function ParamsText(lib: Library, raw: Raw): string { Join(Parts(lib, raw, KeysOf(raw))) }

  /** scheduleParameters; None is a parse error. The map is visited in an arbitrary order. */
  method ScheduleParameters(lib: Library, raw: Option<Raw>) returns (r: Option<(Option<map<string, string>>, string)>)
    ensures r.Some? <==> raw.None? || Parses(lib, raw.value)
    ensures r.Some? && raw.None? ==> r.value == (None, "")
    ensures r.Some? && raw.Some? ==> r.value == (Some(Payload(lib, raw.value)), ParamsText(lib, raw.value))
  {
    if raw.None? { return Some((None, "")); }
    var out, keys := Collect(lib, raw.value);
    if out.None? { return None; }
    var sorted := SortKeys(keys, Used(raw.value));
    var text := TextOf(lib, raw.value, sorted);
    return Some((out, text));
  }

  /** The first loop. */
  method Collect(lib: Library, raw: Raw) returns (r: Option<map<string, string>>, keys: seq<string>)
    ensures r.Some? <==> Parses(lib, raw)
    ensures r.Some? ==> r.value == Payload(lib, raw) && multiset(keys) == multiset(Used(raw))
  {
    var out: map<string, string> := map[];
    keys := [];
    var rest := raw.Keys;
    assert Used(raw) - rest == {} == out.Keys;
    while rest != {}
      invariant rest <= raw.Keys && Seen(lib, raw, rest, out, keys)
      decreases |rest|
    {
      var k :| k in rest;
      if raw[k] == "" {
        SeenSkip(lib, raw, rest, out, keys, k);
        rest := rest - {k};
        continue;
      }
      var value := lib.parse(raw[k]);
      if value.None? {
        assert k in Used(raw);
        return None, keys;
      }
      SeenMore(lib, raw, rest, out, keys, k);
      out := out[k := value.value];
      keys := keys + [k];
      rest := rest - {k};
    }
    SeenAll(lib, raw, out, keys);
    return Some(out), keys;
  }

  /** All but the remaining entries have been collected. */
  ghost predicate Seen(lib: Library, raw: Raw, rest: set<string>, out: map<string, string>, keys: seq<string>)
    requires rest <= raw.Keys
  {
    && out.Keys == Used(raw) - rest
    && multiset(keys) == multiset(out.Keys)
    && forall k :: k in out ==> lib.parse(raw[k]) == Some(out[k])
  }

  lemma SeenMore(lib: Library, raw: Raw, rest: set<string>, out: map<string, string>, keys: seq<string>, k: string)
    requires rest <= raw.Keys && Seen(lib, raw, rest, out, keys) && k in rest && raw[k] != "" && lib.parse(raw[k]).Some?
    ensures Seen(lib, raw, rest - {k}, out[k := lib.parse(raw[k]).value], keys + [k])
  {
    var more := out[k := lib.parse(raw[k]).value];
    assert more.Keys == out.Keys + {k};
    assert Used(raw) - (rest - {k}) == out.Keys + {k};
    AddOne(out.Keys, k);
  }

  lemma SeenAll(lib: Library, raw: Raw, out: map<string, string>, keys: seq<string>)
    requires Seen(lib, raw, {}, out, keys)
    ensures Parses(lib, raw) && out == Payload(lib, raw) && multiset(keys) == multiset(Used(raw))
  {
    assert out.Keys == Used(raw);
  }

  lemma SeenSkip(lib: Library, raw: Raw, rest: set<string>, out: map<string, string>, keys: seq<string>, k: string)
    requires rest <= raw.Keys && Seen(lib, raw, rest, out, keys) && k in rest && raw[k] == ""
    ensures Seen(lib, raw, rest - {k}, out, keys)
  {
    assert Used(raw) - (rest - {k}) == Used(raw) - rest;
  }

  lemma AddOne(s: set<string>, k: string)
    requires k !in s
    ensures multiset(s + {k}) == multiset(s) + multiset{k}
  {
  }

  /** sort.Strings on the collected keys. */
  method SortKeys(found: seq<string>, ghost s: set<string>) returns (keys: seq<string>)
    requires multiset(found) == multiset(s)
    ensures Lists(keys, s)
  {
    var a := new string[|found|](i requires 0 <= i < |found| => found[i]);
    assert a[..] == found;
    SortTexts(a);
    ByKeyIsWeakOrder(Self);
    StableSortedIsStable(ByKey(Self), found);
    StableSortedPermutes(ByKey(Self), found);
    keys := a[..];
  }

  /** The second loop. */
  method TextOf(lib: Library, raw: Raw, keys: seq<string>) returns (text: string)
    requires Lists(keys, Used(raw))
    ensures text == ParamsText(lib, raw)
  {
    OneListing(keys, KeysOf(raw), Used(raw));
    text := JoinParts(lib, raw, keys);
  }

  method JoinParts(lib: Library, raw: Raw, keys: seq<string>) returns (text: string)
    requires forall k :: k in keys ==> k in raw
    ensures text == Join(Parts(lib, raw, keys))
  {
    var parts: seq<string> := [];
    for i := 0 to |keys|
      invariant parts + Parts(lib, raw, keys[i..]) == Parts(lib, raw, keys)
    {
      assert keys[i] in keys;
      assert keys[i..][1..] == keys[i + 1..];
      parts := parts + [Part(lib, raw, keys[i])];
    }
    assert parts == Parts(lib, raw, keys);
    return Join(parts);
  }

  // ---------- the hashed text tells schedules apart ----------

  datatype Spec = Spec(kind: string, cron: string, params: Option<Raw>)

  /** What Harbor receives; missing and empty parameters are both left out of the request. */
  datatype Schedule = Schedule(kind: string, cron: string, params: map<string, string>)

  function RawOf(s: Spec): Raw { if s.params.Some? then s.params.value else map[] }

  function Wire(lib: Library, s: Spec): Schedule
    requires Parses(lib, RawOf(s))
  {
    Schedule(s.kind, s.cron, Payload(lib, RawOf(s)))
  }

  /** hashParts joins its parts with newlines. */
  ghost function HashedText(lib: Library, s: Spec): string {
    ("type=" + s.kind) + "\n" + (("cron=" + s.cron) + "\n" + ("params=" + ParamsText(lib, RawOf(s))))
  }

  /** No newline in type or cron, and no '=' in a key; values may hold anything. */
  predicate Plain(s: Spec) {
    && '\n' !in s.kind && '\n' !in s.cron
    && forall k :: k in Used(RawOf(s)) ==> '=' !in k
  }

  /** What follows the first value in the joined text. */
  function Rest(lib: Library, raw: Raw, keys: seq<string>): string
    requires forall k :: k in keys ==> k in raw
  {
    if |keys| <= 1 then "" else "&" + Join(Parts(lib, raw, keys[1..]))
  }

  lemma JoinSplits(lib: Library, raw: Raw, keys: seq<string>)
    requires keys != [] && forall k :: k in keys ==> k in raw
    ensures Join(Parts(lib, raw, keys)) == keys[0] + "=" + (lib.trim(raw[keys[0]]) + Rest(lib, raw, keys))
  {
    var parts, first := Parts(lib, raw, keys), Part(lib, raw, keys[0]);
    assert parts[0] == first && parts[1..] == Parts(lib, raw, keys[1..]) && |parts| == |keys| by {
      PartsLength(lib, raw, keys);
    }
    Regroup(keys[0], "=", lib.trim(raw[keys[0]]), Rest(lib, raw, keys));
  }

  lemma {:induction false} PartsLength(lib: Library, raw: Raw, keys: seq<string>)
    requires forall k :: k in keys ==> k in raw
    ensures |Parts(lib, raw, keys)| == |keys|
  {
    if keys != [] { PartsLength(lib, raw, keys[1..]); }
  }

  lemma Regroup(a: string, b: string, c: string, d: string)
    ensures (a + b + c) + d == a + b + (c + d)
  {
  }

  lemma ShorterBegins(v: string, tail: string, v': string, tail': string)
    requires v + tail == v' + tail' && |v| < |v'| && (tail == "" || tail[0] == '&')
    ensures v + "&" <= v'
  {
    var all := v + tail;
    assert v == all[..|v|] && v' == (v' + tail')[..|v'|] == all[..|v'|];
    assert |tail| > 0 && all[|v|] == tail[0];
    assert v + "&" == all[..|v| + 1] == v'[..|v| + 1];
  }

  /** Values that do not begin one another past an ampersand end at the same place. */
  lemma ValuesEndTogether(v: string, tail: string, v': string, tail': string)
    requires v + tail == v' + tail' && !(v + "&" <= v') && !(v' + "&" <= v)
    requires (tail == "" || tail[0] == '&') && (tail' == "" || tail'[0] == '&')
    ensures v == v' && tail == tail'
  {
    if |v| < |v'| { ShorterBegins(v, tail, v', tail'); }
    if |v'| < |v| { ShorterBegins(v', tail', v, tail); }
    assert v == (v + tail)[..|v|] && v' == (v' + tail')[..|v'|];
    assert tail == (v + tail)[|v|..] && tail' == (v' + tail')[|v'|..];
  }

  /** Keys that can be read, each with a value that parses. */
  predicate Readable(lib: Library, raw: Raw, keys: seq<string>) {
    forall k :: k in keys ==> k in raw && '=' !in k && lib.parse(raw[k]).Some?
  }

  lemma {:induction false} JoinTellsApart(lib: Library, a: Raw, b: Raw, x: seq<string>, y: seq<string>)
    requires Sound(lib) && Readable(lib, a, x) && Readable(lib, b, y)
    requires Join(Parts(lib, a, x)) == Join(Parts(lib, b, y))
    ensures x == y && forall k :: k in x ==> lib.trim(a[k]) == lib.trim(b[k])
    decreases |x|
  {
    if x != [] { JoinSplits(lib, a, x); }
    if y != [] { JoinSplits(lib, b, y); }
    if x != [] && y != [] {
      var v, v' := lib.trim(a[x[0]]), lib.trim(b[y[0]]);
      SplitAtFirst(x[0], v + Rest(lib, a, x), y[0], v' + Rest(lib, b, y), '=');
      ValuesEndTogether(v, Rest(lib, a, x), v', Rest(lib, b, y));
      TailsAgree(lib, a, b, x, y);
      assert x == [x[0]] + x[1..] && y == [y[0]] + y[1..];
    }
  }

  lemma TailsAgree(lib: Library, a: Raw, b: Raw, x: seq<string>, y: seq<string>)
    requires Sound(lib) && Readable(lib, a, x) && Readable(lib, b, y) && x != [] && y != []
    requires Rest(lib, a, x) == Rest(lib, b, y)
    ensures x[1..] == y[1..] && forall k :: k in x[1..] ==> lib.trim(a[k]) == lib.trim(b[k])
    decreases |x|, 0
  {
    if |x| > 1 && |y| > 1 {
      SamePrefix("&", Join(Parts(lib, a, x[1..])), Join(Parts(lib, b, y[1..])));
      JoinTellsApart(lib, a, b, x[1..], y[1..]);
    }
  }

  lemma ParamsTextTellsApart(lib: Library, a: Spec, b: Spec)
    requires Sound(lib) && Plain(a) && Plain(b) && Parses(lib, RawOf(a)) && Parses(lib, RawOf(b))
    requires ParamsText(lib, RawOf(a)) == ParamsText(lib, RawOf(b))
    ensures Trims(lib, RawOf(a)) == Trims(lib, RawOf(b))
  {
    var p, q := RawOf(a), RawOf(b);
    var x, y := KeysOf(p), KeysOf(q);
    assert Readable(lib, p, x) && Readable(lib, q, y) by {
      ListedKeys(x, Used(p));
      ListedKeys(y, Used(q));
    }
    JoinTellsApart(lib, p, q, x, y);
    SameKeysSameTrims(lib, p, q, x);
  }

  lemma SameKeysSameTrims(lib: Library, p: Raw, q: Raw, keys: seq<string>)
    requires Lists(keys, Used(p)) && Lists(keys, Used(q))
    requires forall k :: k in keys ==> k in p && k in q && lib.trim(p[k]) == lib.trim(q[k])
    ensures Trims(lib, p) == Trims(lib, q)
  {
    ListedKeys(keys, Used(p));
    ListedKeys(keys, Used(q));
    assert Used(p) == Used(q);
  }

  /** The trimmed values by key: all that the text is made of. */
  function Trims(lib: Library, raw: Raw): map<string, string> { map k | k in Used(raw) :: lib.trim(raw[k]) }

  lemma {:induction false} PartsOfTrims(lib: Library, a: Raw, b: Raw, keys: seq<string>)
    requires Trims(lib, a) == Trims(lib, b) && forall k :: k in keys ==> k in Used(a) && k in Used(b)
    ensures Parts(lib, a, keys) == Parts(lib, b, keys)
  {
    if keys != [] {
      var k := keys[0];
      assert k in keys;
      assert k in Used(a) && k in Used(b);
      assert lib.trim(a[k]) == Trims(lib, a)[k] == Trims(lib, b)[k] == lib.trim(b[k]);
      PartsOfTrims(lib, a, b, keys[1..]);
    }
  }

  /** Equal trimmed values give equal texts, whatever they contain. */
  lemma SameTrimsSameText(lib: Library, a: Raw, b: Raw)
    requires Trims(lib, a) == Trims(lib, b)
    ensures ParamsText(lib, a) == ParamsText(lib, b)
  {
    assert Used(a) == Trims(lib, a).Keys == Trims(lib, b).Keys == Used(b);
    OneListing(KeysOf(a), KeysOf(b), Used(a));
    ListedKeys(KeysOf(a), Used(a));
    PartsOfTrims(lib, a, b, KeysOf(a));
  }

  /** For plain specs whose values parse, the texts are equal if and only if type, cron and trimmed values are. */
  lemma SameTextExactlyWhenSameValues(lib: Library, a: Spec, b: Spec)
    requires Sound(lib) && Plain(a) && Plain(b) && Parses(lib, RawOf(a)) && Parses(lib, RawOf(b))
    ensures HashedText(lib, a) == HashedText(lib, b) <==>
      a.kind == b.kind && a.cron == b.cron && Trims(lib, RawOf(a)) == Trims(lib, RawOf(b))
  {
    if HashedText(lib, a) == HashedText(lib, b) { SameTextSameFields(lib, a, b); }
    if Trims(lib, RawOf(a)) == Trims(lib, RawOf(b)) { SameTrimsSameText(lib, RawOf(a), RawOf(b)); }
  }

  lemma SameTextSameFields(lib: Library, a: Spec, b: Spec)
    requires Sound(lib) && Plain(a) && Plain(b) && Parses(lib, RawOf(a)) && Parses(lib, RawOf(b))
    requires HashedText(lib, a) == HashedText(lib, b)
    ensures a.kind == b.kind && a.cron == b.cron && Trims(lib, RawOf(a)) == Trims(lib, RawOf(b))
  {
    var p, q := ParamsText(lib, RawOf(a)), ParamsText(lib, RawOf(b));
    SplitAtFirst("type=" + a.kind, ("cron=" + a.cron) + "\n" + ("params=" + p),
                 "type=" + b.kind, ("cron=" + b.cron) + "\n" + ("params=" + q), '\n');
    SplitAtFirst("cron=" + a.cron, "params=" + p, "cron=" + b.cron, "params=" + q, '\n');
    SamePrefix("type=", a.kind, b.kind);
    SamePrefix("cron=", a.cron, b.cron);
    SamePrefix("params=", p, q);
    ParamsTextTellsApart(lib, a, b);
  }

  /** Equal hashed texts of plain specs mean equal requests. */
  lemma HashedTextTellsApart(lib: Library, a: Spec, b: Spec)
    requires Sound(lib) && Plain(a) && Plain(b) && Parses(lib, RawOf(a)) && Parses(lib, RawOf(b))
    requires HashedText(lib, a) == HashedText(lib, b)
    ensures Wire(lib, a) == Wire(lib, b)
  {
    SameTextSameFields(lib, a, b);
    SameTrimsSamePayload(lib, RawOf(a), RawOf(b));
  }

  lemma SameTrimsSamePayload(lib: Library, p: Raw, q: Raw)
    requires Sound(lib) && Parses(lib, p) && Parses(lib, q) && Trims(lib, p) == Trims(lib, q)
    ensures Payload(lib, p) == Payload(lib, q)
  {
    assert Used(p) == Trims(lib, p).Keys == Trims(lib, q).Keys == Used(q);
    forall k | k in Used(p) ensures lib.parse(p[k]) == lib.parse(q[k]) {
      assert lib.trim(p[k]) == Trims(lib, p)[k] == Trims(lib, q)[k] == lib.trim(q[k]);
    }
  }

  lemma SamePrefix(prefix: string, a: string, b: string)
    requires prefix + a == prefix + b
    ensures a == b
  {
    assert a == (prefix + a)[|prefix|..] == (prefix + b)[|prefix|..] == b;
  }

  /** Every type but Manual and None needs a cron text. */
  predicate CronMissing(s: Spec) { s.kind != "Manual" && s.kind != "None" && s.cron == "" }

  /** The reconciler gets as far as hashing and sending. */
  predicate Sendable(lib: Library, s: Spec) { Parses(lib, RawOf(s)) && !CronMissing(s) }

  /** A schedule is sent exactly when its used parameters parse and it has a cron text or a type that needs none. */
  lemma SendableByFields(lib: Library, s: Spec)
    ensures Sendable(lib, s) <==>
      && (s.cron != "" || s.kind == "Manual" || s.kind == "None")
      && (s.params.Some? ==>
            forall k :: k in s.params.value && s.params.value[k] != "" ==> lib.parse(s.params.value[k]).Some?)
  {
    if s.params.Some? && Sendable(lib, s) {
      forall k | k in s.params.value && s.params.value[k] != "" ensures lib.parse(s.params.value[k]).Some? {
        assert k in Used(RawOf(s));
      }
    }
  }

  // ---------- a change the text hides ----------

  /** Takes every text without an ampersand as it stands. */
  function Exact(): Library { Library(x => if '&' in x then None else Some(x), x => x) }

  /** One parameter with the key "a=1&b". */
  function Merged(): Spec { Spec("Daily", "0 0 * * *", Some(map["a=1&b" := "2"])) }

  /** Two parameters, "a" and "b". */
  function Apart(): Spec { Spec("Daily", "0 0 * * *", Some(map["a" := "1", "b" := "2"])) }

  lemma KeysAre(raw: Raw, keys: seq<string>)
    requires Sorted(ByKey(Self), keys) && multiset(keys) == multiset(Used(raw))
    ensures KeysOf(raw) == keys
  {
    OneListing(KeysOf(raw), keys, Used(raw));
  }

  lemma PartIs(raw: Raw, k: string)
    requires k in raw
    ensures Part(Exact(), raw, k) == k + "=" + raw[k]
  {
    assert Exact().trim(raw[k]) == raw[k];
  }

  lemma MergedText()
    ensures ParamsText(Exact(), RawOf(Merged())) == "a=1&b=2"
  {
    var raw := RawOf(Merged());
    assert Used(raw) == {"a=1&b"};
    KeysAre(raw, ["a=1&b"]);
    PartIs(raw, "a=1&b");
    assert "a=1&b" + "=" + "2" == "a=1&b=2";
    assert Parts(Exact(), raw, ["a=1&b"]) == ["a=1&b=2"];
  }

  lemma ApartText()
    ensures ParamsText(Exact(), RawOf(Apart())) == "a=1&b=2"
  {
    var raw := RawOf(Apart());
    assert Used(raw) == {"a", "b"};
    assert Less("a", "b") && !Less("b", "a");
    assert multiset(["a", "b"]) == multiset({"a", "b"}) by { AddOne({"a"}, "b"); assert {"a"} + {"b"} == {"a", "b"}; }
    ByKeyCompares(Self, "b", "a");
    KeysAre(raw, ["a", "b"]);
    assert ["a", "b"][1..] == ["b"];
    PartIs(raw, "a");
    PartIs(raw, "b");
    assert "a" + "=" + "1" == "a=1" && "b" + "=" + "2" == "b=2";
    assert Parts(Exact(), raw, ["b"]) == ["b=2"];
    assert Parts(Exact(), raw, ["a", "b"]) == ["a=1", "b=2"];
    assert ["a=1", "b=2"][1..] == ["b=2"];
  }

  lemma BeginsWithAmpersand(x: string, y: string)
    requires x + "&" <= y
    ensures '&' in y
  {
    assert y[|x|] == '&';
  }

  lemma ExactIsSound()
    ensures Sound(Exact())
  {
    var lib := Exact();
    forall x, y | lib.parse(x).Some? && lib.parse(y).Some? ensures !(lib.trim(x) + "&" <= lib.trim(y)) {
      if x + "&" <= y { BeginsWithAmpersand(x, y); }
    }
  }

  lemma BothSendable()
    ensures Sendable(Exact(), Merged()) && Sendable(Exact(), Apart())
    ensures Wire(Exact(), Merged()) != Wire(Exact(), Apart())
  {
    assert "a" in Payload(Exact(), RawOf(Apart())) && "a" !in Payload(Exact(), RawOf(Merged()));
  }

  lemma SameText()
    ensures HashedText(Exact(), Merged()) == HashedText(Exact(), Apart())
  {
    MergedText();
    ApartText();
  }

  /** With separators inside a key, two schedules that are sent differently share one text. */
  lemma SeparatorsCanHideAChange()
    ensures Sound(Exact()) && Sendable(Exact(), Merged()) && Sendable(Exact(), Apart())
    ensures HashedText(Exact(), Merged()) == HashedText(Exact(), Apart())
    ensures Wire(Exact(), Merged()) != Wire(Exact(), Apart())
  {
    ExactIsSound();
    BothSendable();
    SameText();
  }
}
