/** Secrets the operator writes: ownership marks and merging of values. */
module OwnedSecrets {
  import opened Values

  type Texts = map<string, string>

  /** The resource a Secret names as its owner. */
  datatype Owner = Owner(kind: string, namespace: string, name: string)

  /** A stored Secret; None is a nil map. */
  datatype Secret = Secret(labels: Option<Texts>, annotations: Option<Texts>, data: Option<Texts>)

  const MANAGED_BY := "harbor.harbor-operator.io/managed-by"
  const OPERATOR := "harbor-operator"
  const OWNER_KIND := "harbor.harbor-operator.io/owner-kind"
  const OWNER_NAME := "harbor.harbor-operator.io/owner-name"
  const OWNER_NAMESPACE := "harbor.harbor-operator.io/owner-namespace"

  /** Go's map read: the empty text for a missing key. */
  function Lookup(m: Option<Texts>, k: string): string {
    if m.Some? && k in m.value then m.value[k] else ""
  }

  function All(m: Option<Texts>): Texts { if m.Some? then m.value else map[] }

  /** secretOwnedBy. */
  predicate OwnedBy(s: Secret, o: Owner) {
    && Lookup(s.labels, MANAGED_BY) == OPERATOR
    && Lookup(s.annotations, OWNER_KIND) == o.kind
    && Lookup(s.annotations, OWNER_NAMESPACE) == o.namespace
    && Lookup(s.annotations, OWNER_NAME) == o.name
  }

  /** A map write that is skipped when a read already gives the value. */
  function Put(m: Texts, k: string, v: string): (r: Texts)
    ensures forall j :: Lookup(Some(r), j) == if j == k then v else Lookup(Some(m), j)
    ensures r == m <==> Lookup(Some(m), k) == v
  {
    if Lookup(Some(m), k) == v then m else m[k := v]
  }

  lemma MarksAreDistinct()
    ensures OWNER_KIND != OWNER_NAME && OWNER_KIND != OWNER_NAMESPACE && OWNER_NAME != OWNER_NAMESPACE
  {
    assert |OWNER_NAME| < |OWNER_NAMESPACE| && |OWNER_KIND| < |OWNER_NAMESPACE|;
    assert OWNER_KIND[|OWNER_KIND| - 1] == 'd' && OWNER_NAME[|OWNER_NAME| - 1] == 'e';
  }

  /** A Secret names at most one owner. */
  lemma OneOwner(s: Secret, a: Owner, b: Owner)
    requires OwnedBy(s, a) && OwnedBy(s, b)
    ensures a == b
  {
  }

  /** The outcome of an upsert, as the request it sends. */
  datatype Upsert = BadKey | NotOwned | Unchanged | Create(secret: Secret) | Update(secret: Secret)

  /** All but the remaining keys have been written. */
  ghost predicate Merged(start: Texts, values: Texts, rest: set<string>, now: Texts) {
    && now.Keys == start.Keys + (values.Keys - rest)
    && forall k :: k in now ==> now[k] == if k in values && k !in rest then values[k] else start[k]
  }

  /** A written value differs from what was there before the loop. */
  ghost predicate Differs(start: Texts, values: Texts, rest: set<string>) {
    exists k :: k in values && k !in rest && (k !in start || start[k] != values[k])
  }

  lemma MergedMore(start: Texts, values: Texts, rest: set<string>, now: Texts, k: string)
    requires Merged(start, values, rest, now) && rest <= values.Keys && k in rest
    ensures Merged(start, values, rest - {k}, if k in now && now[k] == values[k] then now else now[k := values[k]])
    ensures Differs(start, values, rest - {k}) <==> Differs(start, values, rest) || k !in now || now[k] != values[k]
  {
    var more := rest - {k};
    if k !in start || start[k] != values[k] { assert k in values && k !in more; }
    if Differs(start, values, rest) {
      var j :| j in values && j !in rest && (j !in start || start[j] != values[j]);
      assert j !in more;
    }
  }

  lemma MergedAll(start: Texts, values: Texts, now: Texts)
    requires Merged(start, values, {}, now)
    ensures now == start + values
    ensures Differs(start, values, {}) <==> now != start
  {
    assert now.Keys == (start + values).Keys;
    if !Differs(start, values, {}) { assert now == start; }
  }

  /** The in-memory Secret that the helpers update in place. */
  class SecretObject {
    var labels: Option<Texts>
    var annotations: Option<Texts>
    var data: Option<Texts>

    constructor (s: Secret)
      ensures Abs() == s
    {
      labels, annotations, data := s.labels, s.annotations, s.data;
    }

    function Abs(): Secret
      reads this
    {
      Secret(labels, annotations, data)
    }

    /** setSecretValues: the flag tells exactly whether the data changed; map order plays no part. */
    method SetValues(values: Texts) returns (changed: bool)
      requires data.Some?
      modifies this`data
      ensures data == Some(old(data).value + values)
      ensures changed <==> data != old(data)
    {
      changed := false;
      var rest := values.Keys;
      ghost var start := data.value;
      while rest != {}
        invariant rest <= values.Keys && data.Some? && Merged(start, values, rest, data.value)
        invariant changed <==> Differs(start, values, rest)
        decreases |rest|
      {
        var k :| k in rest;
        MergedMore(start, values, rest, data.value, k);
        rest := rest - {k};
        if k !in data.value || data.value[k] != values[k] {
          data := Some(data.value[k := values[k]]);
          changed := true;
        }
      }
      MergedAll(start, values, data.value);
    }

    /** ensureSecretOwnershipMetadata: the flag is raised exactly when the marks did not name the owner. */
    method EnsureOwnership(o: Owner) returns (changed: bool)
      modifies this`labels, this`annotations
      ensures labels == Some(Put(All(old(labels)), MANAGED_BY, OPERATOR))
      ensures annotations
           == Some(Put(Put(Put(All(old(annotations)), OWNER_KIND, o.kind), OWNER_NAMESPACE, o.namespace), OWNER_NAME,
               o.name))
      ensures OwnedBy(Abs(), o)
      ensures changed <==> !OwnedBy(old(Abs()), o)
    {
      MarksAreDistinct();
      changed := false;
      if labels.None? { labels := Some(map[]); }
      if annotations.None? { annotations := Some(map[]); }
      changed := PutLabel(MANAGED_BY, OPERATOR);
      var c := PutAnnotation(OWNER_KIND, o.kind);
      changed := changed || c;
      c := PutAnnotation(OWNER_NAMESPACE, o.namespace);
      changed := changed || c;
      c := PutAnnotation(OWNER_NAME, o.name);
      changed := changed || c;
    }

    method PutLabel(k: string, v: string) returns (changed: bool)
      requires labels.Some?
      modifies this`labels
      ensures labels == Some(Put(old(labels).value, k, v)) && (changed <==> Lookup(old(labels), k) != v)
    {
      changed := Lookup(labels, k) != v;
      if changed { labels := Some(labels.value[k := v]); }
    }

    method PutAnnotation(k: string, v: string) returns (changed: bool)
      requires annotations.Some?
      modifies this`annotations
      ensures annotations == Some(Put(old(annotations).value, k, v)) && (changed <==> Lookup(old(annotations), k) != v)
    {
      changed := Lookup(annotations, k) != v;
      if changed { annotations := Some(annotations.value[k := v]); }
    }
  }

  /** The Secret as the operator marks it. */
  function Marked(s: Secret, o: Owner): Secret {
    s.(labels := Some(Put(All(s.labels), MANAGED_BY, OPERATOR)),
       annotations := Some(Put(Put(Put(All(s.annotations), OWNER_KIND, o.kind), OWNER_NAMESPACE, o.namespace),
           OWNER_NAME, o.name)))
  }

  /** What an upsert of these values for this owner sends, given what the read returned. */
  function UpsertOf(existing: Option<Secret>, o: Owner, values: Texts): Upsert {
    if "" in values then BadKey
    else if existing.None? then Create(Marked(Secret(None, None, Some(values)), o))
    else if !OwnedBy(existing.value, o) then NotOwned
    else if existing.value.data.Some? && existing.value.data.value + values == existing.value.data.value then Unchanged
    else Update(Marked(existing.value, o).(data := Some(All(existing.value.data) + values)))
  }

  /** upsertOwnedSecretValues up to its write. */
  method UpsertOwned(existing: Option<Secret>, o: Owner, values: Texts) returns (r: Upsert)
    ensures r == UpsertOf(existing, o, values)
  {
    if "" in values { return BadKey; }
    if existing.None? {
      var secret := new SecretObject(Secret(None, None, Some(map[])));
      var _ := secret.SetValues(values);
      var _ := secret.EnsureOwnership(o);
      assert map[] + values == values;
      return Create(secret.Abs());
    }
    var secret := new SecretObject(existing.value);
    if !OwnedBy(existing.value, o) { return NotOwned; }
    var changed := secret.EnsureOwnership(o);
    if secret.data.None? { secret.data := Some(map[]); changed := true; }
    var c := secret.SetValues(values);
    if !(changed || c) { return Unchanged; }
    return Update(secret.Abs());
  }

  /** Marking what already names the owner changes nothing. */
  lemma MarkedTwice(s: Secret, o: Owner)
    ensures OwnedBy(s, o) && s.labels.Some? && s.annotations.Some? ==> Marked(s, o) == s
    ensures OwnedBy(Marked(s, o), o)
    ensures OwnedBy(s, o) ==> s.labels.Some?
  {
    MarksAreDistinct();
  }

  /** What a write leaves behind: the owner's marks, the new values, and every other entry as it was. */
  lemma UpsertKeepsTheRest(existing: Option<Secret>, o: Owner, values: Texts)
    requires var r := UpsertOf(existing, o, values); r.Create? || r.Update?
    ensures var s := UpsertOf(existing, o, values).secret;
            && OwnedBy(s, o) && s.data.Some?
            && (forall k :: k in values ==> k in s.data.value && s.data.value[k] == values[k])
            && (forall k :: k !in values ==>
                Lookup(s.data, k) == (if existing.None? then "" else Lookup(existing.value.data, k)))
            && (forall k :: k in s.data.value ==> k in values || (existing.Some? && k in All(existing.value.data)))
    ensures existing.Some? ==> OwnedBy(existing.value, o)
  {
    MarkedTwice(if existing.None? then Secret(None, None, Some(values)) else existing.value, o);
  }

  /** Repeating an upsert sends nothing, and another owner's upsert is refused. */
  lemma UpsertTwiceWritesOnce(existing: Option<Secret>, o: Owner, values: Texts, other: Owner, more: Texts)
    requires var r := UpsertOf(existing, o, values); r.Create? || r.Update?
    ensures var s := UpsertOf(existing, o, values).secret;
            && UpsertOf(Some(s), o, values) == Unchanged
            && (other != o && "" !in more ==> UpsertOf(Some(s), other, more) == NotOwned)
  {
    UpsertKeepsTheRest(existing, o, values);
    var s := UpsertOf(existing, o, values).secret;
    assert s.data.value + values == s.data.value;
  }
}
