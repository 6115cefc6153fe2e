/**
 UserGroupClaims: any number of claims list, create, meet a conflict and list again, one API call at a time and in any
 interleaving, against a Harbor that refuses a second group of one (folded) name. Only outsiders delete groups, and the
 results that need it say that none of them does.
 */
module GroupClaims {
  import opened Values
  import opened Conditions
  import Connections
  import Members

  type Key = Members.Key

  /** The identity fields of a claim; the API keeps them immutable. */
  datatype Want = Want(name: string, kind: int, dn: string)
  datatype Group = Group(id: nat, name: string, kind: int, dn: string)

  /** A representative of each class of strings.EqualFold. */
  type Fold = string -> string

  predicate SameName(fold: Fold, g: Group, w: Want) { fold(g.name) == fold(w.name) }

  predicate Compatible(fold: Fold, g: Group, w: Want) {
    SameName(fold, g, w) && g.kind == w.kind && fold(g.dn) == fold(w.dn)
  }

  // ---------- findUserGroup ----------

  predicate First(fold: Fold, groups: seq<Group>, want: Want, i: nat)
    requires i < |groups|
  {
    SameName(fold, groups[i], want) && forall j :: 0 <= j < i ==> !SameName(fold, groups[j], want)
  }

  datatype Search = Found(id: nat) | Absent | Clash

  /** A group of the wanted name is the wanted one if its type is the same and its DN is the same up to case. */
  function Verdict(fold: Fold, g: Group, want: Want): (r: Search)
    ensures r == Found(g.id) <==> g.kind == want.kind && fold(g.dn) == fold(want.dn)
    ensures r == Found(g.id) || r == Clash
  {
    if g.kind != want.kind || fold(g.dn) != fold(want.dn) then Clash else Found(g.id)
  }

  /** findUserGroup: the first group of that name decides. */
  method FindUserGroup(fold: Fold, groups: seq<Group>, want: Want) returns (r: Search)
    ensures r == FindGroup(fold, groups, want)
    ensures r.Absent? <==> forall g :: g in groups ==> !SameName(fold, g, want)
    ensures !r.Absent? ==>
      exists i :: 0 <= i < |groups| && First(fold, groups, want, i) && r == Verdict(fold, groups[i], want)
  {
    for i := 0 to |groups|
      invariant forall j :: 0 <= j < i ==> !SameName(fold, groups[j], want)
      invariant FindGroup(fold, groups, want) == FindGroup(fold, groups[i..], want)
    {
      if fold(groups[i].name) != fold(want.name) { continue; }
      if groups[i].kind != want.kind || fold(groups[i].dn) != fold(want.dn) { return Clash; }
      return Found(groups[i].id);
    }
    return Absent;
  }

  function FindGroup(fold: Fold, groups: seq<Group>, want: Want): Search {
    if groups == [] then Absent
    else if !SameName(fold, groups[0], want) then FindGroup(fold, groups[1..], want)
    else if Compatible(fold, groups[0], want) then Found(groups[0].id)
    else Clash
  }

  // ---------- the machine ----------

  datatype Status = Status(base: Base, id: nat)

  /** The reconcile's in-memory copy of the claim. */
  datatype Memory = Memory(generation: nat, deleting: bool, finalizer: bool, status: Status)
  datatype Failure = StillReferenced | ListFailed | Incompatible | NoCompatible | CreateFailed | NoId

  datatype Phase =
    | Idle
    | Marking(mem: Memory)
    | Checking(mem: Memory)
    | Releasing(mem: Memory)
    | Holding(mem: Memory)
    | Binding(mem: Memory)
    | Listing(mem: Memory)
    | Creating(mem: Memory)
    | Relisting(mem: Memory)
    | Recording(mem: Memory, id: nat)
    | Failing(mem: Memory, why: Failure)

  datatype Claim = Claim(want: Want, generation: nat, deleting: bool, finalizer: bool, stored: Status, phase: Phase)

  /** Harbor's groups, and the groups created for claims in order. */
  datatype Harbor = Harbor(groups: set<Group>, created: seq<Group>)
  datatype World = World(harbor: Harbor, claims: map<Key, Claim>)

  /** Fate of a create request; Lost was processed although the caller sees an error. */
  datatype Fate = Acknowledged | Lost | Refused

  /** `listing` are Harbor's groups and `members` the Members of the cluster; None is a failed listing. */
  datatype Answer = Answer(write: Write, listing: Option<seq<Group>>, fate: Fate, newId: nat,
                           members: Option<seq<Members.Member>>, binding: Option<Connections.Binding>, message: string)

  datatype Event =
    | Step(claim: Key, answer: Answer)
    | Crash(claim: Key)
    | Edit(claim: Key)
    | Add(claim: Key, want: Want)
    | Delete(claim: Key)
    | OutsiderCreates(group: Group)
    | OutsiderDeletes(id: nat)

  predicate NameTaken(fold: Fold, groups: set<Group>, w: Want) {
    exists g :: g in groups && SameName(fold, g, w)
  }

  predicate IdTaken(groups: set<Group>, id: nat) {
    exists g :: g in groups && g.id == id
  }

  /** A listing shows every group once or more, in any order. */
  predicate Shows(listing: seq<Group>, groups: set<Group>) {
    (forall g :: g in listing ==> g in groups) && (forall g :: g in groups ==> g in listing)
  }

  /** A status write that is sent only when the base changed; either way the reconcile ends. */
  function Finish(c: Claim, mem: Memory, base: Base, id: nat, write: Write): Claim {
    if base == mem.status.base || write.Rejected? then c.(phase := Idle)
    else c.(stored := Status(base, id), phase := Idle)
  }

  function AfterMark(m: Memory): Phase { if m.deleting then Checking(m) else Holding(m) }

  /** markReconcilingIfNeeded. */
  function MarkStep(c: Claim, mem: Memory, a: Answer): Claim {
    if mem.status.base.observedGeneration == mem.generation then c.(phase := AfterMark(mem))
    else
      var status := mem.status.(base := MarkReconciling(mem.status.base, mem.generation, Unspecified, ""));
      match a.write
      case Applied => c.(stored := status, phase := AfterMark(mem.(status := status)))
      case Rejected => c.(phase := Idle)
      case Unacknowledged => c.(stored := status, phase := Idle)
  }

  /** A listed member references the claim; Members.HasActiveMembers computes it. */
  predicate Mentions(members: seq<Members.Member>, i: Key) {
    exists n :: 0 <= n < |members| && Members.References(members[n], i)
  }

  /** The member check of a claim that is being deleted. */
  function CheckStep(i: Key, c: Claim, mem: Memory, a: Answer): Claim {
    if a.members.None? then c.(phase := Failing(mem, ListFailed))
    else if Mentions(a.members.value, i) then c.(phase := Failing(mem, StillReferenced))
    else c.(phase := if mem.finalizer then Releasing(mem) else Idle)
  }

  /** removeFinalizer. */
  function ReleaseStep(c: Claim, a: Answer): Claim {
    if a.write.Rejected? then c.(phase := Idle) else c.(finalizer := false, phase := Idle)
  }

  /** ensureFinalizer; its failure is returned as it is. */
  function HoldStep(c: Claim, mem: Memory, a: Answer): Claim {
    if mem.finalizer then c.(phase := Binding(mem))
    else
      match a.write
      case Applied => c.(finalizer := true, phase := Binding(mem.(finalizer := true)))
      case Rejected => c.(phase := Idle)
      case Unacknowledged => c.(finalizer := true, phase := Idle)
  }

  /** getHarborClientForObject stores the binding once; after a failure setErrorStatus tries to write it again. */
  function BindStep(c: Claim, mem: Memory, a: Answer): Claim {
    if mem.status.base.binding.Some? then c.(phase := Listing(mem))
    else if a.binding.None? then c.(phase := Failing(mem, ListFailed))
    else
      var status := mem.status.(base := mem.status.base.(binding := a.binding));
      var m := mem.(status := status);
      match a.write
      case Applied => c.(stored := status, phase := Listing(m))
      case Rejected => c.(phase := Failing(m, ListFailed))
      case Unacknowledged => c.(stored := status, phase := Failing(m, ListFailed))
  }

  function ListStep(fold: Fold, h: Harbor, c: Claim, mem: Memory, a: Answer, again: bool): Claim {
    if a.listing.None? then c.(phase := Failing(mem, ListFailed))
    else if !Shows(a.listing.value, h.groups) then c
    else
      match FindGroup(fold, a.listing.value, c.want)
      case Found(id) => c.(phase := if id == 0 then Failing(mem, NoId) else Recording(mem, id))
      case Clash => c.(phase := Failing(mem, Incompatible))
      case Absent => c.(phase := if again then Failing(mem, NoCompatible) else Creating(mem))
  }

  function CreateStep(fold: Fold, h: Harbor, c: Claim, mem: Memory, a: Answer): (Harbor, Claim) {
    if a.fate.Refused? then (h, c.(phase := Failing(mem, CreateFailed)))
    else if NameTaken(fold, h.groups, c.want) then
      (h, c.(phase := if a.fate.Lost? then Failing(mem, CreateFailed) else Relisting(mem)))
    else if a.newId == 0 || IdTaken(h.groups, a.newId) then (h, c)
    else
      var g := Group(a.newId, c.want.name, c.want.kind, c.want.dn);
      (Harbor(h.groups + {g}, h.created + [g]),
       c.(phase := if a.fate.Lost? then Failing(mem, CreateFailed) else Recording(mem, a.newId)))
  }

  const TEXT := "External group claim reconciled"

  /** The recorded id and setReadyStatus. */
  function RecordStep(c: Claim, mem: Memory, id: nat, a: Answer): Claim {
    Finish(c, mem, MarkReady(mem.status.base, mem.generation, Reconciled, TEXT), id, a.write)
  }

  /** setErrorStatus. */
  function FailStep(c: Claim, mem: Memory, a: Answer): Claim {
    Finish(c, mem, MarkError(mem.status.base, mem.generation, a.message), mem.status.id, a.write)
  }

  function ClaimStep(fold: Fold, h: Harbor, i: Key, c: Claim, a: Answer): (Harbor, Claim) {
    match c.phase
    case Idle => (h, c.(phase := Marking(Memory(c.generation, c.deleting, c.finalizer, c.stored))))
    case Marking(mem) => (h, MarkStep(c, mem, a))
    case Checking(mem) => (h, CheckStep(i, c, mem, a))
    case Releasing(_) => (h, ReleaseStep(c, a))
    case Holding(mem) => (h, HoldStep(c, mem, a))
    case Binding(mem) => (h, BindStep(c, mem, a))
    case Listing(mem) => (h, ListStep(fold, h, c, mem, a, false))
    case Creating(mem) => CreateStep(fold, h, c, mem, a)
    case Relisting(mem) => (h, ListStep(fold, h, c, mem, a, true))
    case Recording(mem, id) => (h, RecordStep(c, mem, id, a))
    case Failing(mem, why) => (h, FailStep(c, mem, a))
  }

  /** The API server drops an object that is being deleted and has no finalizer. */
  function Kept(claims: map<Key, Claim>, i: Key, c: Claim): map<Key, Claim> {
    if c.deleting && !c.finalizer then claims - {i} else claims[i := c]
  }

  /** An event the API would refuse changes nothing. */
  function Next(fold: Fold, w: World, e: Event): World {
    match e
    case Step(i, a) =>
      if i !in w.claims then w
      else var r := ClaimStep(fold, w.harbor, i, w.claims[i], a); World(r.0, Kept(w.claims, i, r.1))
    case Crash(i) => if i !in w.claims then w else w.(claims := w.claims[i := w.claims[i].(phase := Idle)])
    case Edit(i) =>
      if i !in w.claims then w
      else w.(claims := w.claims[i := w.claims[i].(generation := w.claims[i].generation + 1)])
    case Add(i, want) =>
      if i in w.claims then w
      else w.(claims := w.claims[i := Claim(want, 1, false, false, Status(Base(0, NO_MARKS, None), 0), Idle)])
    case Delete(i) =>
      if i !in w.claims then w
      else w.(claims := Kept(w.claims, i, w.claims[i].(deleting := true, generation := w.claims[i].generation + 1)))
    case OutsiderCreates(g) =>
      if g.id == 0 || IdTaken(w.harbor.groups, g.id)
          || NameTaken(fold, w.harbor.groups, Want(g.name, g.kind, g.dn)) then w
      else w.(harbor := w.harbor.(groups := w.harbor.groups + {g}))
    case OutsiderDeletes(id) => w.(harbor := w.harbor.(groups := set g | g in w.harbor.groups && g.id != id))
  }

  function Exec(fold: Fold, w: World, run: seq<Event>): World {
    if run == [] then w else Next(fold, Exec(fold, w, run[..|run| - 1]), run[|run| - 1])
  }

  /** Harbor may hold any groups with distinct names and ids; nothing has been claimed yet. */
  ghost predicate Init(fold: Fold, w: World) {
    w.claims == map[] && w.harbor.created == [] && Consistent(fold, w.harbor.groups)
  }

  ghost predicate Consistent(fold: Fold, groups: set<Group>) {
    && (forall g :: g in groups ==> g.id > 0)
    && (forall g, h :: g in groups && h in groups && (fold(g.name) == fold(h.name) || g.id == h.id) ==> g == h)
  }

  // ---------- the invariant ----------

  /** The id names a group this claim is about. */
  ghost predicate Names(fold: Fold, groups: set<Group>, w: Want, id: nat) {
    exists g :: g in groups && g.id == id && Compatible(fold, g, w)
  }

  ghost predicate StatusOk(fold: Fold, groups: set<Group>, w: Want, s: Status) {
    && (s.id != 0 ==> Names(fold, groups, w, s.id))
    && (IsReady(s.base) ==> s.id != 0)
  }

  ghost predicate PhaseOk(fold: Fold, groups: set<Group>, c: Claim) {
    && (!c.phase.Idle? ==> c.phase.mem.status.id == c.stored.id)
    && (!c.phase.Idle? && !c.phase.Failing? ==> c.phase.mem.status == c.stored)
    && (c.phase.Relisting? ==> NameTaken(fold, groups, c.want))
    && (c.phase.Recording? ==> c.phase.id != 0 && Names(fold, groups, c.want, c.phase.id))
    && !(c.phase.Failing? && c.phase.why.NoCompatible?)
  }

  ghost predicate ClaimOk(fold: Fold, groups: set<Group>, c: Claim) {
    StatusOk(fold, groups, c.want, c.stored) && PhaseOk(fold, groups, c)
  }

  ghost predicate HarborOk(fold: Fold, h: Harbor) {
    && Consistent(fold, h.groups)
    && (forall i :: 0 <= i < |h.created| ==> h.created[i] in h.groups)
    && (forall i, j :: 0 <= i < j < |h.created| ==> fold(h.created[i].name) != fold(h.created[j].name))
  }

  /** No outsider deletes a group. */
  predicate Lasting(run: seq<Event>) { forall k :: 0 <= k < |run| ==> !run[k].OutsiderDeletes? }

  ghost predicate Inv(fold: Fold, w: World) {
    HarborOk(fold, w.harbor) && forall i :: i in w.claims ==> ClaimOk(fold, w.harbor.groups, w.claims[i])
  }

  lemma {:induction false} FindIsRight(fold: Fold, groups: seq<Group>, w: Want)
    ensures match FindGroup(fold, groups, w)
            case Found(id) => exists g :: g in groups && g.id == id && Compatible(fold, g, w)
            case Absent => forall g :: g in groups ==> !SameName(fold, g, w)
            case Clash => exists g :: g in groups && SameName(fold, g, w) && !Compatible(fold, g, w)
  {
    if groups != [] { FindIsRight(fold, groups[1..], w); }
  }

  /** More groups break nothing. */
  lemma ClaimOkGrows(fold: Fold, small: set<Group>, large: set<Group>, c: Claim)
    requires small <= large && ClaimOk(fold, small, c)
    ensures ClaimOk(fold, large, c)
  {
  }

  lemma ListStepOk(fold: Fold, h: Harbor, c: Claim, a: Answer, again: bool)
    requires HarborOk(fold, h) && ClaimOk(fold, h.groups, c) && (if again then c.phase.Relisting? else c.phase.Listing?)
    ensures ClaimOk(fold, h.groups, ListStep(fold, h, c, c.phase.mem, a, again))
  {
    if a.listing.Some? && Shows(a.listing.value, h.groups) { FindIsRight(fold, a.listing.value, c.want); }
  }

  lemma CreateStepOk(fold: Fold, h: Harbor, c: Claim, a: Answer)
    requires HarborOk(fold, h) && ClaimOk(fold, h.groups, c) && c.phase.Creating?
    ensures var r := CreateStep(fold, h, c, c.phase.mem, a);
            HarborOk(fold, r.0) && ClaimOk(fold, r.0.groups, r.1) && h.groups <= r.0.groups
  {
    var r := CreateStep(fold, h, c, c.phase.mem, a);
    if r.0 != h {
      var g := Group(a.newId, c.want.name, c.want.kind, c.want.dn);
      assert g in r.0.groups && Compatible(fold, g, c.want);
      ClaimOkGrows(fold, h.groups, r.0.groups, c);
    }
  }

  lemma MarkStepOk(fold: Fold, groups: set<Group>, c: Claim, a: Answer)
    requires ClaimOk(fold, groups, c) && c.phase.Marking?
    ensures ClaimOk(fold, groups, MarkStep(c, c.phase.mem, a))
  {
  }

  lemma BindStepOk(fold: Fold, groups: set<Group>, c: Claim, a: Answer)
    requires ClaimOk(fold, groups, c) && c.phase.Binding?
    ensures ClaimOk(fold, groups, BindStep(c, c.phase.mem, a))
  {
  }

  lemma RecordStepOk(fold: Fold, groups: set<Group>, c: Claim, a: Answer)
    requires ClaimOk(fold, groups, c) && c.phase.Recording?
    ensures ClaimOk(fold, groups, RecordStep(c, c.phase.mem, c.phase.id, a))
  {
  }

  lemma FailStepOk(fold: Fold, groups: set<Group>, c: Claim, a: Answer)
    requires ClaimOk(fold, groups, c) && c.phase.Failing?
    ensures ClaimOk(fold, groups, FailStep(c, c.phase.mem, a))
  {
  }

  lemma ClaimStepOk(fold: Fold, h: Harbor, i: Key, c: Claim, a: Answer)
    requires HarborOk(fold, h) && ClaimOk(fold, h.groups, c)
    ensures var r := ClaimStep(fold, h, i, c, a);
            HarborOk(fold, r.0) && ClaimOk(fold, r.0.groups, r.1) && h.groups <= r.0.groups
  {
    var r := ClaimStep(fold, h, i, c, a);
    if c.phase.Creating? { CreateStepOk(fold, h, c, a); }
    else {
      assert r.0 == h;
      assert ClaimOk(fold, h.groups, r.1) by {
        if c.phase.Listing? { ListStepOk(fold, h, c, a, false); }
        else if c.phase.Relisting? { ListStepOk(fold, h, c, a, true); }
        else if c.phase.Marking? { MarkStepOk(fold, h.groups, c, a); }
        else if c.phase.Binding? { BindStepOk(fold, h.groups, c, a); }
        else if c.phase.Recording? { RecordStepOk(fold, h.groups, c, a); }
        else if c.phase.Failing? { FailStepOk(fold, h.groups, c, a); }
      }
    }
  }

  lemma StepKeepsInv(fold: Fold, w: World, e: Event)
    requires Inv(fold, w) && !e.OutsiderDeletes?
    ensures Inv(fold, Next(fold, w, e)) && w.harbor.groups <= Next(fold, w, e).harbor.groups
  {
    var w' := Next(fold, w, e);
    if e.Step? && e.claim in w.claims { ClaimStepOk(fold, w.harbor, e.claim, w.claims[e.claim], e.answer); }
    forall i | i in w'.claims && i in w.claims && w'.claims[i] == w.claims[i]
      ensures w.harbor.groups <= w'.harbor.groups ==> ClaimOk(fold, w'.harbor.groups, w'.claims[i])
    {
      if w.harbor.groups <= w'.harbor.groups { ClaimOkGrows(fold, w.harbor.groups, w'.harbor.groups, w.claims[i]); }
    }
  }

  lemma {:induction false} RunKeepsInv(fold: Fold, w: World, run: seq<Event>)
    requires Init(fold, w) && Lasting(run)
    ensures Inv(fold, Exec(fold, w, run))
  {
    if run != [] {
      RunKeepsInv(fold, w, run[..|run| - 1]);
      StepKeepsInv(fold, Exec(fold, w, run[..|run| - 1]), run[|run| - 1]);
    }
  }

  // ---------- the results ----------

  /** Claims create at most one group per name, even when answers are lost. */
  lemma OneGroupPerName(fold: Fold, w: World, run: seq<Event>, i: nat, j: nat)
    requires Init(fold, w) && Lasting(run)
    requires var made := Exec(fold, w, run).harbor.created; i < j < |made|
    ensures var made := Exec(fold, w, run).harbor.created; fold(made[i].name) != fold(made[j].name)
  {
    RunKeepsInv(fold, w, run);
  }

  /** All claims of one name that have recorded a group have recorded the same one. */
  lemma ClaimsAgree(fold: Fold, w: World, run: seq<Event>, i: Key, j: Key)
    requires Init(fold, w) && Lasting(run)
    requires var s := Exec(fold, w, run).claims; i in s && j in s && s[i].stored.id != 0 && s[j].stored.id != 0
    requires var s := Exec(fold, w, run).claims; fold(s[i].want.name) == fold(s[j].want.name)
    ensures var s := Exec(fold, w, run).claims; s[i].stored.id == s[j].stored.id
  {
    RunKeepsInv(fold, w, run);
  }

  /** The conflict branch always finds the group again: "no compatible group could be found" is never reported. */
  lemma ConflictAlwaysResolves(fold: Fold, w: World, run: seq<Event>, i: Key)
    requires Init(fold, w) && Lasting(run) && i in Exec(fold, w, run).claims
    ensures var p := Exec(fold, w, run).claims[i].phase; !(p.Failing? && p.why.NoCompatible?)
  {
    RunKeepsInv(fold, w, run);
  }

  /** Concluding with a group leaves its id stored, whether the write is sent or not needed. */
  lemma ConcludingRecords(fold: Fold, groups: set<Group>, c: Claim, a: Answer)
    requires Consistent(fold, groups) && ClaimOk(fold, groups, c) && c.phase.Recording?
    requires || !a.write.Rejected?
             || MarkReady(c.phase.mem.status.base, c.phase.mem.generation, Reconciled, TEXT) == c.phase.mem.status.base
    ensures var d := RecordStep(c, c.phase.mem, c.phase.id, a);
            d.stored.id == c.phase.id && IsReady(d.stored.base) && Names(fold, groups, d.want, c.phase.id)
  {
  }

  /** A reconcile that reaches its end with a group, unless its write is lost, leaves that group's id stored. */
  lemma FinishedClaimRecords(fold: Fold, w: World, run: seq<Event>, i: Key, a: Answer)
    requires Init(fold, w) && Lasting(run) && !a.write.Rejected?
    requires var s := Exec(fold, w, run).claims; i in s && s[i].phase.Recording?
    ensures var v := Exec(fold, w, run);
            var c := ClaimStep(fold, v.harbor, i, v.claims[i], a).1;
            c.stored.id == v.claims[i].phase.id && IsReady(c.stored.base)
  {
    var v := Exec(fold, w, run);
    assert Inv(fold, v) by { RunKeepsInv(fold, w, run); }
    assert ClaimOk(fold, v.harbor.groups, v.claims[i]);
    ConcludingRecords(fold, v.harbor.groups, v.claims[i], a);
  }

  // ---------- one identity ----------

  predicate SameIdentity(fold: Fold, a: Want, b: Want) {
    fold(a.name) == fold(b.name) && a.kind == b.kind && fold(a.dn) == fold(b.dn)
  }

  /** Whoever uses the name means one identity: existing groups, outsiders and claims. */
  ghost predicate NameMeans(fold: Fold, groups: set<Group>, id: Want) {
    forall g :: g in groups && SameName(fold, g, id) ==> Compatible(fold, g, id)
  }

  ghost predicate EventMeans(fold: Fold, e: Event, id: Want) {
    && (e.Add? && fold(e.want.name) == fold(id.name) ==> SameIdentity(fold, e.want, id))
    && (e.OutsiderCreates? && SameName(fold, e.group, id) ==> Compatible(fold, e.group, id))
  }

  ghost predicate ClaimMeans(fold: Fold, c: Claim, id: Want) {
    fold(c.want.name) == fold(id.name) ==>
        SameIdentity(fold, c.want, id) && !(c.phase.Failing? && c.phase.why.Incompatible?)
  }

  ghost predicate Agreed(fold: Fold, w: World, id: Want) {
    NameMeans(fold, w.harbor.groups, id) && forall i :: i in w.claims ==> ClaimMeans(fold, w.claims[i], id)
  }

  lemma ClaimStepAgrees(fold: Fold, h: Harbor, i: Key, c: Claim, a: Answer, id: Want)
    requires NameMeans(fold, h.groups, id) && ClaimMeans(fold, c, id)
    ensures var r := ClaimStep(fold, h, i, c, a); NameMeans(fold, r.0.groups, id) && ClaimMeans(fold, r.1, id)
  {
    if (c.phase.Listing? || c.phase.Relisting?) && a.listing.Some? && Shows(a.listing.value, h.groups) {
      FindIsRight(fold, a.listing.value, c.want);
    }
  }

  /** With one identity behind the name, no claim of that name is told of an incompatible group either. */
  lemma {:induction false} OneIdentityNeverClashes(fold: Fold, w: World, run: seq<Event>, id: Want)
    requires Init(fold, w) && NameMeans(fold, w.harbor.groups, id)
    requires forall k :: 0 <= k < |run| ==> EventMeans(fold, run[k], id)
    ensures Agreed(fold, Exec(fold, w, run), id)
  {
    if run != [] {
      var before, e := run[..|run| - 1], run[|run| - 1];
      OneIdentityNeverClashes(fold, w, before, id);
      var v := Exec(fold, w, before);
      if e.Step? && e.claim in v.claims { ClaimStepAgrees(fold, v.harbor, e.claim, v.claims[e.claim], e.answer, id); }
    }
  }

  /** A stored claim that is being deleted still has its finalizer. */
  lemma {:induction false} DeletingIsHeld(fold: Fold, w: World, run: seq<Event>, i: Key)
    requires Init(fold, w) && i in Exec(fold, w, run).claims
    ensures var c := Exec(fold, w, run).claims[i]; c.deleting ==> c.finalizer
  {
    if run != [] {
      var v := Exec(fold, w, run[..|run| - 1]);
      if i in v.claims { DeletingIsHeld(fold, w, run[..|run| - 1], i); }
    }
  }

  // ---------- groups that go ----------

  /** A claim's reconcile, deletion included, never takes a group away: only an outsider's deletion of it does. */
  lemma {:induction false} GroupsGoOnlyByOutsiders(fold: Fold, w: World, run: seq<Event>, g: Group)
    requires g in w.harbor.groups
    ensures g !in Exec(fold, w, run).harbor.groups ==> exists k :: 0 <= k < |run| && run[k] == OutsiderDeletes(g.id)
  {
    if run != [] {
      GroupsGoOnlyByOutsiders(fold, w, run[..|run| - 1], g);
      var v, e := Exec(fold, w, run[..|run| - 1]), run[|run| - 1];
      if g in v.harbor.groups && e.Step? && e.claim in v.claims {
        StepKeepsGroups(fold, v.harbor, e.claim, v.claims[e.claim], e.answer);
      }
    }
  }

  lemma StepKeepsGroups(fold: Fold, h: Harbor, i: Key, c: Claim, a: Answer)
    ensures h.groups <= ClaimStep(fold, h, i, c, a).0.groups
  {
  }
}
