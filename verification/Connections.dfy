/** Resolution of a resource's Harbor connection and the identity it is bound to. */
module Connections {
  import opened Values

  /** harborConnectionRef.kind; `Unset` is the empty string. */
  datatype RefKind = Unset | Namespaced | Cluster | Unsupported(text: string)
  datatype Ref = Ref(name: string, kind: RefKind)

  /** Where a connection object lives: HarborConnection is namespaced, ClusterHarborConnection is not. */
  datatype Key = NamespacedKey(namespace: string, name: string) | ClusterKey(name: string)

  /** A stored connection object; the API server gives each creation a new uid and keeps baseURL immutable. */
  datatype Connection = Connection(uid: nat, baseURL: string)
  datatype Binding = Binding(kind: RefKind, name: string, namespace: string, uid: nat)

  datatype Resolution = Found(binding: Binding, url: string) | Missing | Invalid

  function NormalizedRef(ref: Option<Ref>): Ref {
    match ref
    case None => Ref("", Unset)
    case Some(r) => if r.kind.Unset? then r.(kind := Namespaced) else r
  }

  /** The connection object that resolution reads, or None when it is refused before any read. */
  function ReadKey(forced: string, namespace: string, ref: Option<Ref>): Option<Key> {
    if forced != "" then
      if ref.Some? && ref.value.name != "" && NormalizedRef(ref) != Ref(forced, Cluster) then None
      else Some(ClusterKey(forced))
    else if ref.None? || ref.value.name == "" then None
    else
      match ref.value.kind
      case Unset => Some(NamespacedKey(namespace, ref.value.name))
      case Namespaced => Some(NamespacedKey(namespace, ref.value.name))
      case Cluster => Some(ClusterKey(ref.value.name))
      case Unsupported(_) => None
  }

  function BindingOf(key: Key, uid: nat): Binding {
    match key
    case NamespacedKey(ns, n) => Binding(Namespaced, n, ns, uid)
    case ClusterKey(n) => Binding(Cluster, n, "", uid)
  }

  function Resolve(forced: string, conns: map<Key, Connection>, namespace: string, ref: Option<Ref>): Resolution {
    match ReadKey(forced, namespace, ref)
    case None => Invalid
    case Some(k) => if k in conns then Found(BindingOf(k, conns[k].uid), conns[k].baseURL) else Missing
  }

  // ---------- what resolution finds, by the fields of the reference ----------

  /** With a forced connection, a reference is accepted when it is missing, unnamed, or names that very connection. */
  predicate AcceptedWhenForced(forced: string, ref: Option<Ref>) {
    ref.None? || ref.value.name == "" || (ref.value.kind.Cluster? && ref.value.name == forced)
  }

  /** Every accepted object resolves to the forced cluster connection and to nothing else; any other one is refused. */
  lemma ForcedResolution(forced: string, conns: map<Key, Connection>, namespace: string, ref: Option<Ref>)
    requires forced != ""
    ensures var r := Resolve(forced, conns, namespace, ref);
            var k := ClusterKey(forced);
            && (r.Invalid? <==> !AcceptedWhenForced(forced, ref))
            && (r.Missing? <==> AcceptedWhenForced(forced, ref) && k !in conns)
            && (r.Found? <==> AcceptedWhenForced(forced, ref) && k in conns)
            && (r.Found? ==> r.binding == Binding(Cluster, forced, "", conns[k].uid) && r.url == conns[k].baseURL)
  {
  }

  /** Without one, a named reference of a known kind resolves in its own namespace unless it says Cluster. */
  lemma PlainResolution(conns: map<Key, Connection>, namespace: string, ref: Option<Ref>)
    ensures var r := Resolve("", conns, namespace, ref);
            && (r.Invalid? <==> ref.None? || ref.value.name == "" || ref.value.kind.Unsupported?)
            && (ref.Some? && ref.value.name != "" && ref.value.kind.Cluster? ==>
                  var k := ClusterKey(ref.value.name);
                  if k in conns then r == Found(Binding(Cluster, ref.value.name, "", conns[k].uid), conns[k].baseURL)
                  else r.Missing?)
            && (ref.Some? && ref.value.name != "" && (ref.value.kind.Unset? || ref.value.kind.Namespaced?) ==>
                  var k := NamespacedKey(namespace, ref.value.name);
                  if k in conns then
                    r == Found(Binding(Namespaced, ref.value.name, namespace, conns[k].uid), conns[k].baseURL)
                  else r.Missing?)
  {
  }
}
