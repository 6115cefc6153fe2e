/** Watches on connections: which resources a connection event enqueues. */
module Watches {
  import opened Values
  import opened Connections

  datatype Object = Object(namespace: string, name: string, ref: Option<Ref>)

  /** types.NamespacedName.String(). */
  function KeyText(namespace: string, name: string): string { namespace + "/" + name }

  /** The value of the namespaced index, if the object is in it. */
  function NamespacedIndex(o: Object): Option<string> {
    var ref := NormalizedRef(o.ref);
    if ref.name == "" || !ref.kind.Namespaced? then None else Some(KeyText(o.namespace, ref.name))
  }

  function ClusterIndex(o: Object): Option<string> {
    var ref := NormalizedRef(o.ref);
    if ref.name == "" || !ref.kind.Cluster? then None else Some(ref.name)
  }

  /** An indexed listing followed by the request loop, for the index the event's kind selects. */
  method RequestsForConnection(objects: seq<Object>, event: Key) returns (requests: seq<(string, string)>)
    ensures forall r :: r in requests <==>
        exists i :: 0 <= i < |objects| && (objects[i].namespace, objects[i].name) == r && Enqueued(objects[i], event)
  {
    requests := [];
    for i := 0 to |objects|
      invariant forall r :: r in requests <==>
          exists j :: 0 <= j < i && (objects[j].namespace, objects[j].name) == r && Enqueued(objects[j], event)
    {
      var o := objects[i];
      var hit := match event
        case NamespacedKey(ns, n) => NamespacedIndex(o) == Some(KeyText(ns, n))
        case ClusterKey(n) => ClusterIndex(o) == Some(n);
      if hit { requests := requests + [(o.namespace, o.name)]; }
    }
  }

  predicate Enqueued(o: Object, event: Key) {
    match event
    case NamespacedKey(ns, n) => NamespacedIndex(o) == Some(KeyText(ns, n))
    case ClusterKey(n) => ClusterIndex(o) == Some(n)
  }

  /** Namespaces are DNS labels, so they hold no '/'. */
  predicate NamespaceOk(namespace: string) { '/' !in namespace }

  lemma KeyTextIsInjective(ns: string, n: string, ns': string, n': string)
    requires NamespaceOk(ns) && NamespaceOk(ns') && KeyText(ns, n) == KeyText(ns', n')
    ensures ns == ns' && n == n'
  {
    SplitAtFirst(ns, n, ns', n', '/');
  }

  predicate EventOk(event: Key) { event.NamespacedKey? ==> NamespaceOk(event.namespace) }

  /** Without a forced connection, an event enqueues exactly the objects whose resolution reads that connection. */
  lemma EnqueuedExactlyWhenRead(o: Object, event: Key)
    requires NamespaceOk(o.namespace) && EventOk(event)
    ensures Enqueued(o, event) <==> ReadKey("", o.namespace, o.ref) == Some(event)
  {
    var ref := NormalizedRef(o.ref);
    if event.NamespacedKey? && KeyText(o.namespace, ref.name) == KeyText(event.namespace, event.name) {
      KeyTextIsInjective(o.namespace, ref.name, event.namespace, event.name);
    }
  }

  /** The watch of forced mode: an event of the forced connection lists every object, any other event none. */
  method RequestsWhenForced(forced: string, objects: seq<Object>, name: string)
    returns (requests: seq<(string, string)>)
    requires forced != ""
    ensures |requests| == (if name == forced then |objects| else 0)
    ensures forall i :: 0 <= i < |requests| ==> requests[i] == (objects[i].namespace, objects[i].name)
    ensures forall o :: o in objects && ReadKey(forced, o.namespace, o.ref).Some? ==>
              ((o.namespace, o.name) in requests <==> ReadKey(forced, o.namespace, o.ref) == Some(ClusterKey(name)))
  {
    if name != forced { return []; }
    requests := [];
    for n := 0 to |objects|
      invariant |requests| == n
      invariant forall i :: 0 <= i < n ==> requests[i] == (objects[i].namespace, objects[i].name)
    {
      requests := requests + [(objects[n].namespace, objects[n].name)];
    }
    forall o | o in objects ensures (o.namespace, o.name) in requests {
      var i :| 0 <= i < |objects| && objects[i] == o;
      assert requests[i] == (o.namespace, o.name);
    }
  }

  /** The result of resolving changes only with the connection that an event about it enqueues for. */
  lemma OnlyEnqueuedObjectsResolveDifferently(o: Object, conns: map<Key, Connection>, conns': map<Key, Connection>,
                                              event: Key)
    requires NamespaceOk(o.namespace) && EventOk(event)
    requires conns - {event} == conns' - {event}
    requires Resolve("", conns, o.namespace, o.ref) != Resolve("", conns', o.namespace, o.ref)
    ensures Enqueued(o, event)
  {
    forall k | k != event ensures k in conns <==> k in conns' && (k in conns ==> conns[k] == conns'[k]) {
      assert k in conns <==> k in conns - {event};
      assert k in conns' <==> k in conns' - {event};
      assert k in conns ==> conns[k] == (conns - {event})[k];
    }
    EnqueuedExactlyWhenRead(o, event);
  }
}
