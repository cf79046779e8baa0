/** The Kubernetes objects the controller reads, cut down to the fields it looks at, and the
    functions that classify them. */
module Kube {
  import opened Text

  datatype TargetPort = IntPort(intVal: int) | NamedPort(strVal: string)

  datatype ServicePort = ServicePort(name: string, port: int, nodePort: int, targetPort: TargetPort)

  datatype Service = Service(
    ns: string, name: string, annotations: map<string, string>,
    serviceType: string, clusterIP: string, ports: seq<ServicePort>)

  datatype EndpointAddress = EndpointAddress(ip: string, nodeName: string)

  datatype EndpointPort = EndpointPort(name: string, port: int, protocol: string)

  datatype EndpointSubset = EndpointSubset(addresses: seq<EndpointAddress>, ports: seq<EndpointPort>)

  datatype Endpoints = Endpoints(ns: string, name: string, subsets: seq<EndpointSubset>)

  datatype AddressKind = HostNameKind | ExternalIPKind | InternalIPKind | OtherKind

  datatype NodeAddress = NodeAddress(kind: AddressKind, address: string)

  /** `conditions` stands for the status fields that `nodeUpdateEqual` ignores. */
  datatype NodeObject = NodeObject(
    annotations: map<string, string>, labels: map<string, string>,
    unschedulable: bool, podCIDR: string,
    addresses: seq<NodeAddress>, kubeletPort: int, conditions: string)

  /** A registry entry of the configurator (`nginx.Node`). */
  datatype Node = Node(name: string, hostname: string, externalIP: string, internalIP: string, active: bool)

  // ----- keys -----

  /** `cache.MetaNamespaceKeyFunc`. */
  function MetaKey(ns: string, name: string): string {
    if ns == "" then name else ns + "/" + name
  }

  /** What the API server guarantees of a namespaced object's identity. */
  predicate ValidNames(ns: string, name: string) {
    ns != "" && name != "" && !Contains(ns, '/') && !Contains(name, '/')
  }

  const SYSTEM_PREFIX := "kube-system/"

  /** `filterObject`: true when the object is ignored. */
  predicate Filtered(key: string) { HasPrefix(key, SYSTEM_PREFIX) }

  /** The file name stem of a service: every slash of its key becomes a hyphen. */
  function Stem(key: string): string { ReplaceChar(key, '/', '-') }

  lemma MetaKeyInjective(ns1: string, name1: string, ns2: string, name2: string)
    requires ValidNames(ns1, name1) && ValidNames(ns2, name2)
    requires MetaKey(ns1, name1) == MetaKey(ns2, name2)
    ensures ns1 == ns2 && name1 == name2
  {
    SplitUnique(ns1, name1, ns2, name2, '/');
  }

  lemma MetaKeyHasSlash(ns: string, name: string)
    requires ValidNames(ns, name)
    ensures Contains(MetaKey(ns, name), '/')
  {
    assert MetaKey(ns, name)[|ns|] == '/';
  }

  lemma StemHasNoSlash(key: string)
    ensures !Contains(Stem(key), '/')
  {
  }

  lemma StemOfMetaKey(ns: string, name: string)
    requires ValidNames(ns, name)
    ensures Stem(MetaKey(ns, name)) == ns + "-" + name
  {
    var k, s := MetaKey(ns, name), ns + "-" + name;
    forall i | 0 <= i < |k| ensures Stem(k)[i] == s[i] {
      if i < |ns| {
        assert k[i] == ns[i];
      } else if i > |ns| {
        assert k[i] == name[i - |ns| - 1];
      }
    }
    assert Stem(k) == s;
  }

  /** A key made of a namespace and a name. */
  predicate ValidKey(key: string) {
    |Split(key, '/')| == 2 && Split(key, '/')[0] != "" && Split(key, '/')[1] != ""
  }

  function KeyNamespace(key: string): string { Split(key, '/')[0] }

  function KeyName(key: string): string
    requires ValidKey(key)
  {
    Split(key, '/')[1]
  }

  lemma ValidKeyParts(key: string)
    requires ValidKey(key)
    ensures ValidNames(KeyNamespace(key), KeyName(key)) && key == MetaKey(KeyNamespace(key), KeyName(key))
  {
    SplitParts(key, '/');
    JoinSplit(key, '/');
    assert Split(key, '/') == [KeyNamespace(key), KeyName(key)];
    assert Join([KeyNamespace(key), KeyName(key)][1..], '/') == KeyName(key);
  }

  lemma MetaKeyValid(ns: string, name: string)
    requires ValidNames(ns, name)
    ensures ValidKey(MetaKey(ns, name)) && KeyNamespace(MetaKey(ns, name)) == ns && KeyName(MetaKey(ns, name)) == name
  {
    assert '/' !in ns && '/' !in name;
    SplitHead(ns, '/', name);
    SplitHead(name, '/', "");
  }

  /** The object is one of this namespace. */
  predicate InNamespace(key: string, ns: string) { |Split(key, '/')| > 1 && KeyNamespace(key) == ns }

  lemma {:induction false} NamespacePrefix(key: string, ns: string)
    requires '/' !in ns
    ensures HasPrefix(key, ns + "/") <==> InNamespace(key, ns)
  {
    if HasPrefix(key, ns + "/") {
      assert key == ns + ['/'] + key[|ns| + 1..];
      SplitHead(ns, '/', key[|ns| + 1..]);
    }
    if InNamespace(key, ns) {
      JoinSplit(key, '/');
      assert key == ns + "/" + Join(Split(key, '/')[1..], '/');
    }
  }

  /** Exactly the objects of the namespace `kube-system` are ignored. */
  lemma FilteredIff(key: string)
    ensures Filtered(key) <==> InNamespace(key, "kube-system")
  {
    assert SYSTEM_PREFIX == "kube-system" + "/";
    NamespacePrefix(key, "kube-system");
  }

  lemma ObjectNamespace(ns: string, name: string)
    requires ValidNames(ns, name)
    ensures Filtered(MetaKey(ns, name)) <==> ns == "kube-system"
  {
    MetaKeyValid(ns, name);
    FilteredIff(MetaKey(ns, name));
  }

  // ----- nodes -----

  /** `IsNodeScheduleable`. */
  predicate Schedulable(o: NodeObject) { !o.unschedulable }

  /** The last address of a kind in the status list, empty when there is none. */
  function LastOfKind(addrs: seq<NodeAddress>, kind: AddressKind): string {
    if |addrs| == 0 then ""
    else if addrs[|addrs| - 1].kind == kind then addrs[|addrs| - 1].address
    else LastOfKind(addrs[..|addrs| - 1], kind)
  }

  /** The registry entry `syncNodes` builds from a stored node object. */
  function NodeOf(key: string, o: NodeObject): Node {
    Node(key, LastOfKind(o.addresses, HostNameKind), LastOfKind(o.addresses, ExternalIPKind),
         LastOfKind(o.addresses, InternalIPKind), Schedulable(o))
  }

  /** `GetNodeAddress` followed by the record that `syncNodes` fills. */
  method BuildNode(key: string, o: NodeObject) returns (n: Node)
    ensures n == NodeOf(key, o)
  {
    var hostname, external, internal := "", "", "";
    for i := 0 to |o.addresses|
      invariant hostname == LastOfKind(o.addresses[..i], HostNameKind)
      invariant external == LastOfKind(o.addresses[..i], ExternalIPKind)
      invariant internal == LastOfKind(o.addresses[..i], InternalIPKind)
    {
      var a := o.addresses[i];
      assert o.addresses[..i + 1][..i] == o.addresses[..i];
      match a.kind
      case HostNameKind => hostname := a.address;
      case ExternalIPKind => external := a.address;
      case InternalIPKind => internal := a.address;
      case OtherKind =>
    }
    assert o.addresses[..|o.addresses|] == o.addresses;
    n := Node(key, hostname, external, internal, Schedulable(o));
  }

  /** `nodeUpdateEqual`. */
  predicate NodeUpdateEqual(a: NodeObject, b: NodeObject) {
    && a.annotations == b.annotations
    && a.labels == b.labels
    && a.unschedulable == b.unschedulable && a.podCIDR == b.podCIDR
    && a.addresses == b.addresses
    && a.kubeletPort == b.kubeletPort
  }

  /** An update is passed over exactly when the objects differ in the ignored status fields at most. */
  lemma NodeUpdateEqualIff(a: NodeObject, b: NodeObject)
    ensures NodeUpdateEqual(a, b) <==> a.(conditions := b.conditions) == b
  {
  }

  // ----- services -----

  /** `IsValidServiceType`: not headless, and of a type that can be balanced from outside. */
  predicate ValidServiceType(s: Service) {
    && !EqualFold(s.clusterIP, "none")
    && (s.serviceType == "NodePort" || s.serviceType == "ClusterIP" || s.serviceType == "LoadBalancer")
  }
}
