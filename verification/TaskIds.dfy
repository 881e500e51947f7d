/** Task ids: how they are built (makeTask, reconcileHost) and how statusUpdate takes them apart. */
module TaskIds {
  import opened Types
  import opened Text

  function Name(svc: Service): string {
    match svc
    case Prober => "quobyte-device-prober"
    case Registry => "quobyte-registry"
    case Metadata => "quobyte-metadata"
    case Data => "quobyte-data"
    case Api => "quobyte-api"
    case S3 => "quobyte-s3"
    case Webconsole => "quobyte-webconsole"
    case Client => "quobyte-client"
  }

  function TaskId(svc: Service, host: string): string {
    Name(svc) + "-" + host
  }

  /** The name lookup of getService; None is its NULL. */
  function ServiceNamed(name: string): Option<Service> {
    if name == "quobyte-device-prober" then Some(Prober)
    else if name == "quobyte-registry" then Some(Registry)
    else if name == "quobyte-metadata" then Some(Metadata)
    else if name == "quobyte-data" then Some(Data)
    else if name == "quobyte-api" then Some(Api)
    else if name == "quobyte-s3" then Some(S3)
    else if name == "quobyte-webconsole" then Some(Webconsole)
    else if name == "quobyte-client" then Some(Client)
    else None
  }

  datatype IdParts = IdParts(name: string, host: string)

  /** statusUpdate splits an id at its last dash; None when there is none. */
  function SplitTaskId(id: string): Option<IdParts> {
    var pos := LastIndexOf(id, '-');
    if pos == -1 then None else Some(IdParts(id[..pos], id[pos + 1..]))
  }

  datatype Address = Address(service: Service, host: string)

  /** The (service, host) pair an update for `id` is credited to. */
  function Route(id: string): Option<Address> {
    match SplitTaskId(id)
    case None => None
    case Some(parts) =>
      match ServiceNamed(parts.name)
      case None => None
      case Some(svc) => Some(Address(svc, parts.host))
  }

  lemma NameRoundTrip(svc: Service)
    ensures ServiceNamed(Name(svc)) == Some(svc)
  {
  }

  lemma NamedIsName(name: string)
    requires ServiceNamed(name).Some?
    ensures Name(ServiceNamed(name).value) == name
  {
  }

  /** No service name extends another one by a dash suffix. */
  lemma NoNameExtends(a: Service, b: Service)
    ensures !(Name(a) + "-" <= Name(b))
  {
    var k := |Name(a)|;
    assert (Name(a) + "-")[k] == '-';
    if k < |Name(b)| && Name(b)[k] == '-' {
      assert (Name(a) + "-")[8] == Name(a)[8] != Name(b)[8];
    }
  }

  /** An id that is routed is exactly the id built for the pair it is routed to, and the host is dash-free. */
  lemma RoutedIdIsBuilt(id: string)
    requires Route(id).Some?
    ensures id == TaskId(Route(id).value.service, Route(id).value.host)
    ensures '-' !in Route(id).value.host
  {
    var pos := LastIndexOf(id, '-');
    NamedIsName(id[..pos]);
    assert id == id[..pos] + "-" + id[pos + 1..];
  }

  /** The last dash of prefix-host is the separator when the host has none of its own. */
  lemma LastDashOf(prefix: string, host: string)
    requires '-' !in host
    ensures LastIndexOf(prefix + "-" + host, '-') == |prefix|
  {
    var s := prefix + "-" + host;
    assert s[|prefix| + 1..] == host;
    LastIndexUnique(s, '-', |prefix|);
  }

  lemma SplitAtSeparator(prefix: string, host: string)
    requires '-' !in host
    ensures SplitTaskId(prefix + "-" + host) == Some(IdParts(prefix, host))
  {
    LastDashOf(prefix, host);
    var s := prefix + "-" + host;
    assert s[..|prefix|] == prefix;
    assert s[|prefix| + 1..] == host;
  }

  lemma DashedNameUnknown(svc: Service, rest: string)
    ensures ServiceNamed(Name(svc) + "-" + rest) == None
  {
    var name := Name(svc) + "-" + rest;
    assert Name(svc) + "-" <= name;
    if ServiceNamed(name).Some? {
      NamedIsName(name);
      NoNameExtends(svc, ServiceNamed(name).value);
    }
  }

  /**
   * Task-id routing: an update for the id of (svc, host) reaches that pair exactly when the host name
   * has no dash; otherwise it reaches no service at all.
   */
  lemma RoutingRoundTrip(svc: Service, host: string)
    ensures Route(TaskId(svc, host)) == (if '-' in host then None else Some(Address(svc, host)))
  {
    if '-' !in host {
      SplitAtSeparator(Name(svc), host);
      NameRoundTrip(svc);
    } else {
      var d := LastIndexOf(host, '-');
      var head, tail := host[..d], host[d + 1..];
      assert host == head + "-" + tail;
      var name := Name(svc) + "-" + head;
      assert TaskId(svc, host) == name + "-" + tail;
      SplitAtSeparator(name, tail);
      DashedNameUnknown(svc, head);
    }
  }

  /** Ids are injective in (service, host), for every pair of host names. */
  lemma TaskIdInjective(a: Service, h: string, b: Service, g: string)
    requires TaskId(a, h) == TaskId(b, g)
    ensures a == b && h == g
  {
    var id := TaskId(a, h);
    var p, q := Name(a) + "-", Name(b) + "-";
    assert id[..|p|] == p && id[..|q|] == q;
    if |p| < |q| {
      assert q[..|p|] == id[..|q|][..|p|] == p;
      assert p <= Name(b);
      NoNameExtends(a, b);
      assert false;
    } else if |q| < |p| {
      assert p[..|q|] == id[..|p|][..|q|] == q;
      assert q <= Name(a);
      NoNameExtends(b, a);
      assert false;
    } else {
      assert p == q;
      assert p[..|p| - 1] == Name(a) && q[..|q| - 1] == Name(b);
      NameRoundTrip(a);
      NameRoundTrip(b);
      assert id[|p|..] == h && id[|q|..] == g;
    }
  }
}
