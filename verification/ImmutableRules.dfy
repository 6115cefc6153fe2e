/** Immutable tag rules: finding the rule Harbor already holds by comparing normal forms in place. */
module ImmutableRules {
  import opened Values
  import opened Sorting

  datatype Selector = Selector(kind: string, decoration: string, pattern: string, extras: string)

  /** A selector list is a Go slice, so two copies of a rule share it; null is the nil slice. */
  type Slice = array?<Selector>

  /** JSON parameter values as text; None is the nil map. */
  type Params = Option<map<string, string>>

  datatype Rule = Rule(id: int, priority: int, disabled: bool, action: string, template: string,
                       params: Params, tags: Slice, scopes: Option<map<string, Slice>>)

  /** immutableSelectorKey. */
  function SelectorKey(s: Selector): string {
    s.kind + "|" + (s.decoration + "|" + (s.pattern + "|" + s.extras))
  }

  function Order(): (Selector, Selector) -> bool { ByKey(SelectorKey) }

  function InOrder(s: seq<Selector>): seq<Selector> { StableSorted(Order(), s) }

  // ---------- rules as values: what reflect.DeepEqual sees ----------

  /** The elements of a slice; None is nil, which DeepEqual tells from empty. */
  type List = Option<seq<Selector>>

  datatype RuleValue = RuleValue(id: int, priority: int, disabled: bool, action: string, template: string,
                                 params: Params, tags: List, scopes: Option<map<string, List>>)

  ghost function ScopeSlices(scopes: map<string, Slice>): set<array<Selector>> {
    set k | k in scopes && scopes[k] != null :: scopes[k]
  }

  ghost function Slices(r: Rule): set<array<Selector>> {
    (if r.tags == null then {} else {r.tags}) + (if r.scopes.None? then {} else ScopeSlices(r.scopes.value))
  }

  ghost function SlicesOf(rules: seq<Rule>): set<array<Selector>> {
    set i, a | 0 <= i < |rules| && a in Slices(rules[i]) :: a
  }

  function ReadList(s: Slice): List
    reads if s == null then {} else {s}
  {
    if s == null then None else Some(s[..])
  }

  function ReadScopes(scopes: map<string, Slice>): map<string, List>
    reads ScopeSlices(scopes)
  {
    map k | k in scopes :: ReadList(scopes[k])
  }

  function Read(r: Rule): RuleValue
    reads Slices(r)
  {
    RuleValue(r.id, r.priority, r.disabled, r.action, r.template, r.params, ReadList(r.tags),
              if r.scopes.None? then None else Some(ReadScopes(r.scopes.value)))
  }

  // ---------- the specification ----------

  function ListInOrder(l: List): List { if l.None? then None else Some(InOrder(l.value)) }

  function ScopesInOrder(m: map<string, List>): map<string, List> { map k | k in m :: ListInOrder(m[k]) }

  /** normalizeAnyMap, for any JSON round trip `json` of the values. */
  function NormalParams(json: string -> string, params: Params): Params {
    match params
    case None => None
    case Some(m) => Some(map k | k in m :: json(m[k]))
  }

  /**
   A missing and an empty tag list are alike, and a missing and an empty scope map; inside the map nil and empty
   differ.
   */
  function SelectorsInOrder(v: RuleValue): RuleValue {
    v.(tags := if v.tags == Some([]) then None else ListInOrder(v.tags),
       scopes := if v.scopes.None? || v.scopes.value == map[] then None else Some(ScopesInOrder(v.scopes.value)))
  }

  function NormalForm(json: string -> string, v: RuleValue): RuleValue {
    SelectorsInOrder(v).(id := 0, params := NormalParams(json, v.params))
  }

  lemma InOrderTwice(s: seq<Selector>)
    ensures InOrder(InOrder(s)) == InOrder(s)
  {
    ByKeyIsWeakOrder(SelectorKey);
    SortingAgainChangesNothing(Order(), s);
  }

  // ---------- the code ----------

  /** Each slice is as it was or sorted. */
  twostate predicate AtMostSorted(slices: set<array<Selector>>)
    reads slices
  {
    forall a :: a in slices ==> a[..] == old(a[..]) || a[..] == InOrder(old(a[..]))
  }

  twostate predicate AllSorted(slices: set<array<Selector>>)
    reads slices
  {
    forall a :: a in slices ==> a[..] == InOrder(old(a[..]))
  }

  method SortSelectors(a: array<Selector>)
    modifies a
    ensures a[..] == InOrder(old(a[..]))
  {
    ByKeyIsWeakOrder(SelectorKey);
    SliceStable(a, Order());
  }

  /** The loop over the scope map; entries may share a slice. */
  method SortScopes(scopes: map<string, Slice>)
    modifies ScopeSlices(scopes)
    ensures AllSorted(ScopeSlices(scopes))
  {
    var rest := scopes.Keys;
    ghost var done: set<array<Selector>> := {};
    while rest != {}
      invariant rest <= scopes.Keys && done <= ScopeSlices(scopes)
      invariant forall k :: k in scopes && k !in rest && scopes[k] != null ==> scopes[k] in done
      invariant forall a :: a in done ==> a[..] == InOrder(old(a[..]))
      invariant forall a :: a in ScopeSlices(scopes) && a !in done ==> a[..] == old(a[..])
      decreases |rest|
    {
      var k :| k in rest;
      rest := rest - {k};
      if scopes[k] != null {
        InOrderTwice(old(scopes[k][..]));
        SortSelectors(scopes[k]);
        done := done + {scopes[k]};
      }
    }
  }

  /** normalizeImmutableRule sorts the caller's own slices; only the struct and the maps are new. */
  method Normalize(json: string -> string, r: Rule) returns (n: Rule)
    modifies Slices(r)
    ensures AllSorted(Slices(r))
    ensures n == Trimmed(json, r)
  {
    n := r.(id := 0, params := NormalParams(json, r.params));
    if r.tags != null {
      InOrderTwice(r.tags[..]);
      SortSelectors(r.tags);
      if r.tags.Length == 0 { n := n.(tags := null); }
    }
    if r.scopes.Some? {
      SortScopes(r.scopes.value);
      if |r.scopes.value| == 0 { n := n.(scopes := None); }
    }
  }

  /** The struct that normalisation returns, sharing its slices with the argument. */
  function Trimmed(json: string -> string, r: Rule): Rule {
    r.(id := 0, params := NormalParams(json, r.params),
       tags := if r.tags != null && r.tags.Length == 0 then null else r.tags,
       scopes := if r.scopes.None? || r.scopes.value == map[] then None else r.scopes)
  }

  twostate lemma ListSurvives(s: Slice)
    requires s != null ==> s[..] == old(s[..]) || s[..] == InOrder(old(s[..]))
    ensures ListInOrder(ReadList(s)) == ListInOrder(old(ReadList(s)))
  {
    if s != null { InOrderTwice(old(s[..])); }
  }

  twostate lemma ScopesSurvive(scopes: map<string, Slice>)
    requires AtMostSorted(ScopeSlices(scopes))
    ensures ScopesInOrder(ReadScopes(scopes)) == ScopesInOrder(old(ReadScopes(scopes)))
  {
    forall k | k in scopes ensures ListInOrder(ReadList(scopes[k])) == ListInOrder(old(ReadList(scopes[k]))) {
      if scopes[k] != null { assert scopes[k] in ScopeSlices(scopes); }
      ListSurvives(scopes[k]);
    }
  }

  /** Sorting a rule's slices, some or all, leaves its normal form as it was. */
  twostate lemma NormalFormSurvives(r: Rule)
    requires AtMostSorted(Slices(r))
    ensures SelectorsInOrder(Read(r)) == SelectorsInOrder(old(Read(r)))
  {
    ListSurvives(r.tags);
    if r.scopes.Some? {
      assert ScopeSlices(r.scopes.value) <= Slices(r);
      ScopesSurvive(r.scopes.value);
      assert ReadScopes(r.scopes.value) == map[] <==> r.scopes.value == map[] by {
        assert ReadScopes(r.scopes.value).Keys == r.scopes.value.Keys;
      }
      assert old(ReadScopes(r.scopes.value)).Keys == r.scopes.value.Keys;
    }
  }

  /** Once the slices are sorted, the trimmed struct reads as the normal form. */
  lemma TrimmedIsNormal(json: string -> string, r: Rule)
    requires forall a :: a in Slices(r) ==> a[..] == InOrder(a[..])
    ensures Read(Trimmed(json, r)) == NormalForm(json, Read(r))
  {
    if r.tags != null { assert r.tags in Slices(r); }
    if r.scopes.Some? {
      var scopes := r.scopes.value;
      forall k | k in scopes ensures ReadList(scopes[k]) == ListInOrder(ReadList(scopes[k])) {
        if scopes[k] != null { assert scopes[k] in Slices(r); }
      }
      assert ReadScopes(scopes) == ScopesInOrder(ReadScopes(scopes));
      assert ReadScopes(scopes).Keys == scopes.Keys;
    }
  }

  /** immutableRuleMatches: true exactly for equal normal forms, although the two rules may share slices. */
  method Matches(json: string -> string, desired: Rule, current: Rule) returns (same: bool)
    modifies Slices(desired), Slices(current)
    ensures same <==> NormalForm(json, old(Read(desired))) == NormalForm(json, old(Read(current)))
    ensures AllSorted(Slices(desired) + Slices(current))
  {
    var d, c := NormalizeBoth(json, desired, current);
    forall a | a in Slices(desired) + Slices(current) ensures a[..] == InOrder(a[..]) { InOrderTwice(old(a[..])); }
    NormalFormSurvives(desired);
    NormalFormSurvives(current);
    TrimmedIsNormal(json, desired);
    TrimmedIsNormal(json, current);
    return Read(d) == Read(c);
  }

  method NormalizeBoth(json: string -> string, desired: Rule, current: Rule) returns (d: Rule, c: Rule)
    modifies Slices(desired), Slices(current)
    ensures d == Trimmed(json, desired) && c == Trimmed(json, current)
    ensures AllSorted(Slices(desired) + Slices(current))
  {
    ghost var first, second := Slices(desired), Slices(current);
    d := Normalize(json, desired);
    assert AllSorted(first) && forall a :: a in second && a !in first ==> a[..] == old(a[..]);
    label middle:
    c := Normalize(json, current);
    assert forall a :: a in first && a !in second ==> a[..] == old@middle(a[..]);
    forall a | a in first + second ensures a[..] == InOrder(old(a[..])) {
      if a in second { assert a[..] == InOrder(old@middle(a[..])); }
      OnceOrTwice(old(a[..]), old@middle(a[..]), a[..]);
    }
  }

  lemma OnceOrTwice(s: seq<Selector>, m: seq<Selector>, f: seq<Selector>)
    requires m == s || m == InOrder(s)
    requires f == InOrder(m) || (f == m && m == InOrder(s))
    ensures f == InOrder(s) && InOrder(f) == f
  {
    InOrderTwice(s);
  }

  twostate lemma Permuted(slices: set<array<Selector>>)
    requires AtMostSorted(slices)
    ensures forall a :: a in slices ==> multiset(a[..]) == multiset(old(a[..]))
  {
    forall a | a in slices ensures multiset(a[..]) == multiset(old(a[..])) {
      StableSortedPermutes(Order(), old(a[..]));
    }
  }

  /** findMatchingRuleID: the first rule with the desired normal form, whatever the earlier comparisons sorted. */
  method FindMatchingRuleID(json: string -> string, desired: Rule, rules: seq<Rule>) returns (id: int)
    modifies Slices(desired), SlicesOf(rules)
    ensures (exists i :: 0 <= i < |rules| && id == rules[i].id
               && NormalForm(json, old(Read(rules[i]))) == NormalForm(json, old(Read(desired)))
               && forall j :: 0 <= j < i ==>
                   NormalForm(json, old(Read(rules[j]))) != NormalForm(json, old(Read(desired))))
         || (id == 0 && forall j :: 0 <= j < |rules| ==>
             NormalForm(json, old(Read(rules[j]))) != NormalForm(json, old(Read(desired))))
    ensures AtMostSorted(SlicesOf(rules)) && AtMostSorted(Slices(desired))
    ensures rules != [] ==> AllSorted(Slices(desired))
    ensures forall a :: a in Slices(desired) + SlicesOf(rules) ==> multiset(a[..]) == multiset(old(a[..]))
  {
    for i := 0 to |rules|
      invariant AtMostSorted(Slices(desired)) && AtMostSorted(SlicesOf(rules))
      invariant i > 0 ==> AllSorted(Slices(desired))
      invariant forall j :: 0 <= j < i ==> NormalForm(json, old(Read(rules[j]))) != NormalForm(json, old(Read(desired)))
    {
      assert Slices(rules[i]) <= SlicesOf(rules);
      NormalFormSurvives(desired);
      NormalFormSurvives(rules[i]);
      label before:
      var same := Matches(json, desired, rules[i]);
      forall a | a in Slices(desired) + SlicesOf(rules)
        ensures a[..] == old(a[..]) || a[..] == InOrder(old(a[..]))
        ensures a in Slices(desired) ==> a[..] == InOrder(old(a[..]))
      {
        InOrderTwice(old(a[..]));
        assert old@before(a[..]) == old(a[..]) || old@before(a[..]) == InOrder(old(a[..]));
      }
      Permuted(Slices(desired) + SlicesOf(rules));
      if same { return rules[i].id; }
    }
    Permuted(Slices(desired) + SlicesOf(rules));
    return 0;
  }

  // ---------- which rules match ----------

  predicate SameRest(json: string -> string, v: RuleValue, w: RuleValue) {
    && v.priority == w.priority && v.disabled == w.disabled && v.action == w.action && v.template == w.template
    && NormalParams(json, v.params) == NormalParams(json, w.params)
  }

  /** Parameters agree when both are missing, or have the same keys and every value comes out of JSON the same. */
  lemma ParamsAgreeByKey(json: string -> string, a: Params, b: Params)
    ensures NormalParams(json, a) == NormalParams(json, b) <==>
      if a.None? || b.None? then a == b
      else a.value.Keys == b.value.Keys && forall k :: k in a.value ==> json(a.value[k]) == json(b.value[k])
  {
    var c, d := NormalParams(json, a), NormalParams(json, b);
    if a.Some? && b.Some? {
      assert c.value.Keys == a.value.Keys && d.value.Keys == b.value.Keys;
      if a.value.Keys == b.value.Keys && forall k :: k in a.value ==> json(a.value[k]) == json(b.value[k]) {
        assert c.value == d.value;
      }
    }
  }

  function Tags(v: RuleValue): seq<Selector> { if v.tags.None? then [] else v.tags.value }

  function Scopes(v: RuleValue): map<string, List> { if v.scopes.None? then map[] else v.scopes.value }

  ghost predicate ListsAgree(a: List, b: List) {
    a.Some? == b.Some? && (a.Some? ==> SameRanks(Order(), a.value, b.value))
  }

  /** Rules match exactly when, key by key, they list the same selectors in the same order. */
  lemma MatchExactlyWhenKeysAgree(json: string -> string, v: RuleValue, w: RuleValue)
    ensures NormalForm(json, v) == NormalForm(json, w) <==>
      && SameRest(json, v, w)
      && SameRanks(Order(), Tags(v), Tags(w))
      && Scopes(v).Keys == Scopes(w).Keys
      && forall k :: k in Scopes(v) ==> ListsAgree(Scopes(v)[k], Scopes(w)[k])
  {
    ByKeyIsWeakOrder(SelectorKey);
    var a, b := NormalForm(json, v), NormalForm(json, w);
    SameSortedForm(Order(), Tags(v), Tags(w));
    StableSortedPermutes(Order(), Tags(v));
    StableSortedPermutes(Order(), Tags(w));
    assert a.tags == b.tags <==> InOrder(Tags(v)) == InOrder(Tags(w));
    ScopesMatch(Scopes(v), Scopes(w));
    assert ScopesInOrder(Scopes(v)).Keys == Scopes(v).Keys && ScopesInOrder(Scopes(w)).Keys == Scopes(w).Keys;
    assert a.scopes == b.scopes <==> ScopesInOrder(Scopes(v)) == ScopesInOrder(Scopes(w));
  }

  lemma ScopesMatch(m: map<string, List>, n: map<string, List>)
    ensures ScopesInOrder(m) == ScopesInOrder(n) <==> m.Keys == n.Keys && forall k :: k in m ==> ListsAgree(m[k], n[k])
  {
    ByKeyIsWeakOrder(SelectorKey);
    var x, y := ScopesInOrder(m), ScopesInOrder(n);
    assert x.Keys == m.Keys && y.Keys == n.Keys;
    forall k | k in m && k in n ensures x[k] == y[k] <==> ListsAgree(m[k], n[k]) {
      if m[k].Some? && n[k].Some? { SameSortedForm(Order(), m[k].value, n[k].value); }
    }
  }

  ghost predicate KeysTellApart(s: seq<Selector>) {
    forall x, y :: x in multiset(s) && y in multiset(s) && SelectorKey(x) == SelectorKey(y) ==> x == y
  }

  /** Where the key is injective on the selectors, only their multiset matters. */
  lemma ReorderedListsAgree(a: seq<Selector>, b: seq<Selector>)
    requires multiset(a) == multiset(b) && KeysTellApart(a)
    ensures SameRanks(Order(), a, b)
  {
    ByKeyIsWeakOrder(SelectorKey);
    StableSortedIsStable(Order(), a);
    StableSortedIsStable(Order(), b);
    StableSortedPermutes(Order(), a);
    StableSortedPermutes(Order(), b);
    SortedPermutationIsUnique(Order(), InOrder(a), InOrder(b));
    SameSortedForm(Order(), a, b);
  }

  ghost predicate Reordered(a: List, b: List) {
    a.Some? == b.Some? && (a.Some? ==> multiset(a.value) == multiset(b.value) && KeysTellApart(a.value))
  }

  lemma RulesMatchUpToSelectorOrder(json: string -> string, v: RuleValue, w: RuleValue)
    requires SameRest(json, v, w)
    requires multiset(Tags(v)) == multiset(Tags(w)) && KeysTellApart(Tags(v))
    requires Scopes(v).Keys == Scopes(w).Keys
    requires forall k :: k in Scopes(v) ==> Reordered(Scopes(v)[k], Scopes(w)[k])
    ensures NormalForm(json, v) == NormalForm(json, w)
  {
    ReorderedListsAgree(Tags(v), Tags(w));
    forall k | k in Scopes(v) ensures ListsAgree(Scopes(v)[k], Scopes(w)[k]) {
      if Scopes(v)[k].Some? { ReorderedListsAgree(Scopes(v)[k].value, Scopes(w)[k].value); }
    }
    MatchExactlyWhenKeysAgree(json, v, w);
  }

  predicate NoBars(s: Selector) { '|' !in s.kind && '|' !in s.decoration && '|' !in s.pattern }

  /** The key is injective on selectors whose first three fields hold no '|'. */
  lemma KeyIsInjectiveWithoutBars(x: Selector, y: Selector)
    requires NoBars(x) && NoBars(y) && SelectorKey(x) == SelectorKey(y)
    ensures x == y
  {
    SplitAtFirst(x.kind, x.decoration + "|" + (x.pattern + "|" + x.extras),
                 y.kind, y.decoration + "|" + (y.pattern + "|" + y.extras), '|');
    SplitAtFirst(x.decoration, x.pattern + "|" + x.extras, y.decoration, y.pattern + "|" + y.extras, '|');
    SplitAtFirst(x.pattern, x.extras, y.pattern, y.extras, '|');
  }

  /** Every reordering of a list is recognised exactly when the key tells its selectors apart. */
  lemma EveryReorderingMatchesExactlyWhenKeysTellApart(a: seq<Selector>)
    ensures KeysTellApart(a) <==> forall b :: multiset(b) == multiset(a) ==> InOrder(b) == InOrder(a)
  {
    ByKeyIsWeakOrder(SelectorKey);
    if KeysTellApart(a) {
      forall b | multiset(b) == multiset(a) ensures InOrder(b) == InOrder(a) {
        ReorderedListsAgree(a, b);
        SameSortedForm(Order(), a, b);
      }
    } else {
      var x, y :| x in multiset(a) && y in multiset(a) && SelectorKey(x) == SelectorKey(y) && x != y;
      var b, c := BroughtForward(a, x), BroughtForward(a, y);
      AlikeElementsCanSwap(Order(), a, x, y);
      assert InOrder(b) != InOrder(c);
    }
  }

  /** With a '|' inside a field, a reordering can go unrecognised. */
  lemma BarsCanHideAReordering()
    ensures exists x: Selector, y: Selector ::
      multiset([x, y]) == multiset([y, x]) && InOrder([x, y]) != InOrder([y, x])
  {
    var x, y := Selector("a|b", "", "", ""), Selector("a", "b", "", "|");
    assert SelectorKey(x) == "a|b|||" == SelectorKey(y);
    ByKeyIsWeakOrder(SelectorKey);
    assert Alike(Order(), x, y) && Alike(Order(), x, x) && Alike(Order(), y, x);
    assert [x, y][1..] == [y] && [y, x][1..] == [x];
    assert Ranked(Order(), [x, y], x)[0] == x && Ranked(Order(), [y, x], x)[0] == y;
    SameSortedForm(Order(), [x, y], [y, x]);
    assert multiset([x, y]) == multiset([y, x]);
  }
}
