/** Webhook policies: the drift comparison rewrites the payload that is sent right after it. */
module Webhooks {
  import opened Values
  import opened Sorting

  datatype Target = Target(kind: string, address: string, authHeader: string, payloadFormat: string,
                           skipCertVerify: bool)

  /** Slices are shared between copies of the struct; null is the nil slice. */
  datatype Policy = Policy(id: int, name: string, description: string, projectID: int, targets: array?<Target>,
                           eventTypes: array?<string>, creator: string, creationTime: string, updateTime: string,
                           enabled: bool)

  /** What goes over the wire, and what reflect.DeepEqual compares. */
  datatype PolicyValue = PolicyValue(id: int, name: string, description: string, projectID: int,
                                     targets: Option<seq<Target>>, eventTypes: Option<seq<string>>, creator: string,
                                     creationTime: string, updateTime: string, enabled: bool)

  function ReadSlice<T>(s: array?<T>): Option<seq<T>>
    reads if s == null then {} else {s}
  {
    if s == null then None else Some(s[..])
  }

  function Read(p: Policy): PolicyValue
    reads if p.targets == null then {} else {p.targets}
    reads if p.eventTypes == null then {} else {p.eventTypes}
  {
    PolicyValue(p.id, p.name, p.description, p.projectID, ReadSlice(p.targets), ReadSlice(p.eventTypes),
                p.creator, p.creationTime, p.updateTime, p.enabled)
  }

  /** webhookTargetKey. */
  function TargetKey(t: Target): string { t.kind + "|" + t.address + "|" + t.payloadFormat + "|" + Flag(t) }

  function Flag(t: Target): string { if t.skipCertVerify then "true" else "false" }

  predicate NoBars(t: Target) { '|' !in t.kind && '|' !in t.address && '|' !in t.payloadFormat }

  /** Without '|' in the text fields the key tells all of a target but its header. */
  lemma KeyTellsHeaderlessTargets(x: Target, y: Target)
    requires NoBars(x) && NoBars(y)
    ensures TargetKey(x) == TargetKey(y) <==> Blank(x) == Blank(y)
  {
    if TargetKey(x) == TargetKey(y) {
      var (p, q) := (x.payloadFormat + "|" + Flag(x), y.payloadFormat + "|" + Flag(y));
      assert TargetKey(x) == x.kind + "|" + (x.address + "|" + p);
      assert TargetKey(y) == y.kind + "|" + (y.address + "|" + q);
      SplitAtFirst(x.kind, x.address + "|" + p, y.kind, y.address + "|" + q, '|');
      SplitAtFirst(x.address, p, y.address, q, '|');
      SplitAtFirst(x.payloadFormat, Flag(x), y.payloadFormat, Flag(y), '|');
    }
  }

  /** Of two targets that differ only in it, the one that verifies certificates comes first. */
  lemma VerifyingComesFirst(t: Target)
    ensures Less(TargetKey(t.(skipCertVerify := false)), TargetKey(t.(skipCertVerify := true)))
  {
    var p := t.kind + "|" + t.address + "|" + t.payloadFormat + "|";
    LessAfterPrefix(p, "false", "true");
  }

  function Blank(t: Target): Target { t.(authHeader := "") }

  function Blanked(s: seq<Target>): seq<Target> { seq(|s|, i requires 0 <= i < |s| => Blank(s[i])) }

  /** Headers blanked, then stably sorted by key. */
  function Settled(s: seq<Target>): seq<Target> { StableSorted(ByKey(TargetKey), Blanked(s)) }

  /** The comparison's effect on a policy's own slices. */
  function Rewritten(v: PolicyValue): PolicyValue {
    v.(targets := if v.targets.None? then None else Some(Settled(v.targets.value)),
       eventTypes := if v.eventTypes.None? then None else Some(SortedTexts(v.eventTypes.value)))
  }

  function NormalForm(v: PolicyValue): PolicyValue {
    Rewritten(v).(id := 0, projectID := 0, creator := "", creationTime := "", updateTime := "")
  }

  // ---------- facts about the normal form ----------

  lemma SettledIsBlank(s: seq<Target>)
    ensures |Settled(s)| == |s| && forall i :: 0 <= i < |s| ==> Settled(s)[i].authHeader == ""
  {
    StableSortedPermutes(ByKey(TargetKey), Blanked(s));
    forall i | 0 <= i < |s| ensures Settled(s)[i].authHeader == "" {
      assert Settled(s)[i] in multiset(Blanked(s));
    }
  }

  lemma SettledTwice(s: seq<Target>)
    ensures Settled(Settled(s)) == Settled(s)
  {
    SettledIsBlank(s);
    assert Blanked(Settled(s)) == Settled(s);
    ByKeyIsWeakOrder(TargetKey);
    SortingAgainChangesNothing(ByKey(TargetKey), Blanked(s));
  }

  lemma SortedTextsTwice(s: seq<string>)
    ensures SortedTexts(SortedTexts(s)) == SortedTexts(s)
  {
    ByKeyIsWeakOrder(Self);
    SortingAgainChangesNothing(ByKey(Self), s);
  }

  lemma SortedExactlyWhenFixed<T(!new)>(less: (T, T) -> bool, s: seq<T>)
    requires WeakOrder(less)
    ensures StableSorted(less, s) == s <==> Sorted(less, s)
  {
    StableSortedIsStable(less, s);
    if Sorted(less, s) { StableSortIsUnique(less, StableSorted(less, s), s); }
  }

  /**
   * An update arrives as it was built exactly when no target has a header, the targets are in key order and the event
   * types are sorted. In every case each target arrives once, in key order, without its header.
   */
  lemma UpdateArrivesAsBuiltExactlyWhenHeaderless(v: PolicyValue)
    ensures Rewritten(v) == v <==>
      && (v.targets.Some? ==> Sorted(ByKey(TargetKey), v.targets.value)
                              && forall i :: 0 <= i < |v.targets.value| ==> v.targets.value[i].authHeader == "")
      && (v.eventTypes.Some? ==> Sorted(ByKey(Self), v.eventTypes.value))
    ensures v.targets.Some? ==>
      var t := Rewritten(v).targets.value;
      && multiset(t) == multiset(Blanked(v.targets.value))
      && Sorted(ByKey(TargetKey), t)
      && SameRanks(ByKey(TargetKey), t, Blanked(v.targets.value))
      && forall i :: 0 <= i < |t| ==> t[i].authHeader == ""
  {
    ByKeyIsWeakOrder(TargetKey);
    ByKeyIsWeakOrder(Self);
    if v.eventTypes.Some? { SortedExactlyWhenFixed(ByKey(Self), v.eventTypes.value); }
    if v.targets.Some? {
      var s := v.targets.value;
      SettledIsBlank(s);
      StableSortedPermutes(ByKey(TargetKey), Blanked(s));
      StableSortedIsStable(ByKey(TargetKey), Blanked(s));
      if forall i :: 0 <= i < |s| ==> s[i].authHeader == "" {
        assert Blanked(s) == s;
        SortedExactlyWhenFixed(ByKey(TargetKey), s);
      } else {
        assert Settled(s) != s;
      }
    }
  }

  /** Fields that Harbor neither fills in nor reorders. */
  predicate SameRest(v: PolicyValue, w: PolicyValue) {
    v.name == w.name && v.description == w.description && v.enabled == w.enabled
  }

  /** A nil list differs from an empty one. */
  ghost predicate SameEvents(a: Option<seq<string>>, b: Option<seq<string>>) {
    a.Some? == b.Some? && (a.Some? ==> multiset(a.value) == multiset(b.value))
  }

  ghost predicate SameTargets(a: Option<seq<Target>>, b: Option<seq<Target>>) {
    a.Some? == b.Some? && (a.Some? ==> SameRanks(ByKey(TargetKey), Blanked(a.value), Blanked(b.value)))
  }

  /**
   No update is needed if and only if the fields agree, the event types are permutations of each other, and the targets
   without their headers agree key by key, order included.
   */
  lemma MatchExactlyWhenPermuted(v: PolicyValue, w: PolicyValue)
    ensures NormalForm(v) == NormalForm(w) <==>
      SameRest(v, w) && SameEvents(v.eventTypes, w.eventTypes) && SameTargets(v.targets, w.targets)
  {
    ByKeyIsWeakOrder(TargetKey);
    if v.eventTypes.Some? && w.eventTypes.Some? {
      SameTextsExactlyWhenPermuted(v.eventTypes.value, w.eventTypes.value);
    }
    if v.targets.Some? && w.targets.Some? {
      SameSortedForm(ByKey(TargetKey), Blanked(v.targets.value), Blanked(w.targets.value));
    }
  }

  // ---------- the code ----------

  method BlankHeaders(a: array<Target>)
    modifies a
    ensures a[..] == Blanked(old(a[..]))
  {
    for i := 0 to a.Length
      invariant forall j :: 0 <= j < a.Length ==> a[j] == if j < i then Blank(old(a[j])) else old(a[j])
    {
      a[i] := a[i].(authHeader := "");
    }
  }

  /** The struct without the fields Harbor fills in, sharing its slices. */
  function Stripped(p: Policy): Policy {
    p.(id := 0, projectID := 0, creator := "", creationTime := "", updateTime := "")
  }

  /** normalizeWebhookPolicy. */
  method Normalize(p: Policy) returns (n: Policy)
    modifies if p.targets == null then {} else {p.targets}
    modifies if p.eventTypes == null then {} else {p.eventTypes}
    ensures Read(p) == Rewritten(old(Read(p)))
    ensures n == Stripped(p)
  {
    n := p.(id := 0, projectID := 0, creator := "", creationTime := "", updateTime := "");
    if n.targets != null { BlankHeaders(n.targets); }
    if n.eventTypes != null { SortTexts(n.eventTypes); }
    ByKeyIsWeakOrder(TargetKey);
    if n.targets != null { SliceStable(n.targets, ByKey(TargetKey)); }
  }

  lemma RewrittenTwice(v: PolicyValue)
    ensures Rewritten(Rewritten(v)) == Rewritten(v)
  {
    if v.targets.Some? { SettledTwice(v.targets.value); }
    if v.eventTypes.Some? { SortedTextsTwice(v.eventTypes.value); }
  }

  method Differ(desired: Policy, current: Policy) returns (differ: bool)
    modifies if desired.targets == null then {} else {desired.targets}
    modifies if desired.eventTypes == null then {} else {desired.eventTypes}
    modifies if current.targets == null then {} else {current.targets}
    modifies if current.eventTypes == null then {} else {current.eventTypes}
    ensures differ <==> NormalForm(old(Read(desired))) != NormalForm(old(Read(current)))
    ensures Read(desired) == Rewritten(old(Read(desired))) && Read(current) == Rewritten(old(Read(current)))
  {
    var d, c := NormalizeBoth(desired, current);
    differ := Read(d) != Read(c);
  }

  /** The second normalisation may meet slices the first has rewritten; doing it twice changes nothing more. */
  method NormalizeBoth(desired: Policy, current: Policy) returns (d: Policy, c: Policy)
    modifies if desired.targets == null then {} else {desired.targets}
    modifies if desired.eventTypes == null then {} else {desired.eventTypes}
    modifies if current.targets == null then {} else {current.targets}
    modifies if current.eventTypes == null then {} else {current.eventTypes}
    ensures d == Stripped(desired) && c == Stripped(current)
    ensures Read(desired) == Rewritten(old(Read(desired))) && Read(current) == Rewritten(old(Read(current)))
  {
    ghost var v, w := Read(desired), Read(current);
    RewrittenTwice(v);
    RewrittenTwice(w);
    d := Normalize(desired);
    assert Read(current).targets == if current.targets == desired.targets then Rewritten(w).targets else w.targets;
    assert Read(current).eventTypes ==
      if current.eventTypes == desired.eventTypes then Rewritten(w).eventTypes else w.eventTypes;
    c := Normalize(current);
    assert Read(desired).targets == Rewritten(v).targets;
    assert Read(desired).eventTypes == Rewritten(v).eventTypes;
  }

  /**
   webhookPolicyNeedsUpdate, with its exact effect on both arguments; they may share slices. A nil current touches
   nothing.
   */
  method NeedsUpdate(desired: Policy, current: Option<Policy>) returns (needed: bool)
    modifies if current.None? || desired.targets == null then {} else {desired.targets}
    modifies if current.None? || desired.eventTypes == null then {} else {desired.eventTypes}
    modifies if current.None? || current.value.targets == null then {} else {current.value.targets}
    modifies if current.None? || current.value.eventTypes == null then {} else {current.value.eventTypes}
    ensures current.None? ==> needed
    ensures current.Some? ==> (needed <==> NormalForm(old(Read(desired))) != NormalForm(old(Read(current.value))))
    ensures current.Some? ==>
        Read(desired) == Rewritten(old(Read(desired))) && Read(current.value) == Rewritten(old(Read(current.value)))
  {
    if current.None? { return true; }
    needed := Differ(desired, current.value);
  }

  /**
   The tail of reconcileWebhookPolicy for a policy that exists in Harbor: `built` are the targets with their resolved
   headers, `eventTypes` the slice inside the resource's spec. `sent` is the update, which Harbor takes or refuses; the
   stored hash advances only when it is taken, and an update refused is an error.
   */
  method SendUpdate(name: string, description: string, projectID: int, built: seq<Target>, eventTypes: array?<string>,
                    enabled: bool, current: Policy, targetsHash: string, storedHash: string, taken: bool)
    returns (sent: Option<PolicyValue>, ok: bool, newHash: string)
    modifies if eventTypes == null then {} else {eventTypes}
    modifies if current.targets == null then {} else {current.targets}
    modifies if current.eventTypes == null then {} else {current.eventTypes}
    ensures var types := old(ReadSlice(eventTypes));
            var payload := PolicyValue(0, name, description, projectID, Some(built), types, "", "", "", enabled);
            && (sent.Some? <==>
                  || NormalForm(payload) != NormalForm(old(Read(current)))
                  || (targetsHash != "" && targetsHash != storedHash))
            && (sent.Some? ==> sent.value == Rewritten(payload))
            && ReadSlice(eventTypes) == Rewritten(payload).eventTypes
    ensures ok == (sent.None? || taken)
    ensures newHash == if sent.Some? && taken && targetsHash != "" then targetsHash else storedHash
  {
    var targets := new Target[|built|](i requires 0 <= i < |built| => built[i]);
    assert targets[..] == built;
    var policy := Policy(0, name, description, projectID, targets, eventTypes, "", "", "", enabled);
    var needed := NeedsUpdate(policy, Some(current));
    sent, ok, newHash := None, true, storedHash;
    if needed || (targetsHash != "" && targetsHash != storedHash) {
      sent := Some(Read(policy));
      if !taken { ok := false; return; }
      if targetsHash != "" && targetsHash != storedHash { newHash := targetsHash; }
    }
  }
}
