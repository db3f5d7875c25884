/** The resources document of the Elastic Runtime tile: one Resource per
    job of the product, keyed by the job name, and the three jobs the tile
    binds to load balancers. */
module ResourceCatalog {
  import opened Json
  import opened UserConfig

  /** Sizing and networking of one job. An empty `routerNames` and a zero
      `instances` are Go's zero values, which the marshaller leaves out. */
  datatype Resource = Resource(routerNames: seq<string>, instances: int, internetConnected: bool)

  /** A job the tile does not configure: the zero Resource. */
  const Unset := Resource([], 0, false)

  function Strings(ss: seq<string>): (js: seq<Json>)
    ensures |js| == |ss|
    ensures forall i :: 0 <= i < |ss| ==> js[i] == JString(ss[i])
  {
    seq(|ss|, i requires 0 <= i < |ss| => JString(ss[i]))
  }

  /** Reads back an array of strings. */
  function DecodeStrings(js: seq<Json>): (r: Option<seq<string>>)
  {
    if js == [] then Some([])
    else if !js[0].JString? then None
    else
      match DecodeStrings(js[1..])
      case Some(rest) => Some([js[0].s] + rest)
      case None => None
  }

  /** The JSON object of a Resource. "elb_names" and "instances" carry
      omitempty and are left out when the list is empty or the count is zero;
      "internet_connected" does not and is always present, last. */
  function SerializeResource(r: Resource): (j: Json)
    ensures j.JObject? && |j.fields| >= 1
    ensures ("elb_names" in Keys(j.fields)) <==> |r.routerNames| > 0
    ensures ("instances" in Keys(j.fields)) <==> r.instances != 0
    ensures j.fields[|j.fields| - 1] == ("internet_connected", JBool(r.internetConnected))
  {
    var names := if |r.routerNames| == 0 then [] else [("elb_names", JArray(Strings(r.routerNames)))];
    var count := if r.instances == 0 then [] else [("instances", JInt(r.instances))];
    var fs := names + count + [("internet_connected", JBool(r.internetConnected))];
    var nameKeys := if |r.routerNames| == 0 then [] else ["elb_names"];
    var countKeys := if r.instances == 0 then [] else ["instances"];
    assert Keys(fs) == nameKeys + countKeys + ["internet_connected"];
    JObject(fs)
  }

  /** Reads a Resource back, accepting exactly the shapes SerializeResource
      emits: an absent "elb_names" or "instances" reads as its zero value. */
  function DecodeResource(j: Json): (r: Option<Resource>)
    ensures r.Some? ==>
              (j.JObject? && |j.fields| >= 1 &&
               j.fields[|j.fields| - 1] == ("internet_connected", JBool(r.value.internetConnected)))
  {
    if !j.JObject? then None
    else
      var fs := j.fields;
      if |fs| > 0 && fs[0].0 == "elb_names" then
        if !fs[0].1.JArray? then None
        else
          match DecodeStrings(fs[0].1.items)
          case Some(names) => if names == [] then None else DecodeCount(names, fs[1..])
          case None => None
      else DecodeCount([], fs)
  }

  function DecodeCount(names: seq<string>, fs: seq<(string, Json)>): (r: Option<Resource>)
    ensures r.Some? ==>
              (r.value.routerNames == names && |fs| >= 1 &&
               fs[|fs| - 1] == ("internet_connected", JBool(r.value.internetConnected)))
  {
    if |fs| > 0 && fs[0].0 == "instances" then
      if fs[0].1.JInt? && fs[0].1.n != 0 then DecodeConnected(names, fs[0].1.n, fs[1..]) else None
    else DecodeConnected(names, 0, fs)
  }

  function DecodeConnected(names: seq<string>, instances: int, fs: seq<(string, Json)>): (r: Option<Resource>)
    ensures r.Some? ==>
              (r.value.routerNames == names && r.value.instances == instances &&
               fs == [("internet_connected", JBool(r.value.internetConnected))])
  {
    if |fs| == 1 && fs[0].0 == "internet_connected" && fs[0].1.JBool? then
      Some(Resource(names, instances, fs[0].1.b))
    else None
  }

  /** The json tags of Resources: the job names, in declaration order. */
  const ServiceNames: seq<string> := [
    "tcp_router",
    "router",
    "diego_brain",
    "consul_server",
    "nats",
    "nfs_server",
    "mysql_proxy",
    "mysql",
    "backup-prepare",
    "diego_database",
    "uaa",
    "cloud_controller",
    "ha_proxy",
    "mysql_monitor",
    "clock_global",
    "cloud_controller_worker",
    "diego_cell",
    "loggregator_trafficcontroller",
    "syslog_adapter",
    "syslog_scheduler",
    "doppler",
    "smoke-tests",
    "push-apps-manager",
    "notifications",
    "notifications-ui",
    "push-pivotal-account",
    "push-usage-service",
    "autoscaling",
    "autoscaling-register-broker",
    "nfsbrokerpush",
    "bootstrap",
    "mysql-rejoin-unsafe"
  ]

  /** One Resource per job of the product. */
  datatype Resources = Resources(
    tcpRouter: Resource,
    router: Resource,
    diegoBrain: Resource,
    consulServer: Resource,
    nats: Resource,
    nfsServer: Resource,
    mysqlProxy: Resource,
    mysql: Resource,
    backupPrepare: Resource,
    diegoDatabase: Resource,
    uaa: Resource,
    cloudController: Resource,
    haProxy: Resource,
    mysqlMonitor: Resource,
    clockGlobal: Resource,
    cloudControllerWorker: Resource,
    diegoCell: Resource,
    loggregatorTrafficcontroller: Resource,
    syslogAdapter: Resource,
    syslogScheduler: Resource,
    doppler: Resource,
    smokeTests: Resource,
    pushAppsManager: Resource,
    notifications: Resource,
    notificationsUi: Resource,
    pushPivotalAccount: Resource,
    pushUsageService: Resource,
    autoscaling: Resource,
    autoscalingRegisterBroker: Resource,
    nfsbrokerpush: Resource,
    bootstrap: Resource,
    mysqlRejoinUnsafe: Resource
  )

  /** The resources in declaration order, i.e. in the order they are emitted. */
  function ResourceValues(rs: Resources): (vs: seq<Resource>)
    ensures |vs| == |ServiceNames|
  {
    [rs.tcpRouter, rs.router, rs.diegoBrain] + UnboundValues(rs)
  }

  /** The jobs after the three the tile binds to load balancers, in order. */
  function UnboundValues(rs: Resources): (vs: seq<Resource>)
    ensures |vs| == |ServiceNames| - 3
  {
    [
      rs.consulServer,
      rs.nats,
      rs.nfsServer,
      rs.mysqlProxy,
      rs.mysql,
      rs.backupPrepare,
      rs.diegoDatabase,
      rs.uaa,
      rs.cloudController,
      rs.haProxy,
      rs.mysqlMonitor,
      rs.clockGlobal,
      rs.cloudControllerWorker,
      rs.diegoCell,
      rs.loggregatorTrafficcontroller,
      rs.syslogAdapter,
      rs.syslogScheduler,
      rs.doppler,
      rs.smokeTests,
      rs.pushAppsManager,
      rs.notifications,
      rs.notificationsUi,
      rs.pushPivotalAccount,
      rs.pushUsageService,
      rs.autoscaling,
      rs.autoscalingRegisterBroker,
      rs.nfsbrokerpush,
      rs.bootstrap,
      rs.mysqlRejoinUnsafe
    ]
  }

  /** The resources payload for `cfg`: the TCP router on three instances
      behind the TCP target pool, the router behind the WebSocket pool and the
      HTTP backend service, the SSH-serving brain behind the SSH pool; every
      other job left at its zero value. */
  function Build(cfg: Config): (rs: Resources)
    ensures forall k :: 0 <= k < |ServiceNames| ==> !ResourceValues(rs)[k].internetConnected
    ensures forall k :: 3 <= k < |ServiceNames| ==> ResourceValues(rs)[k] == Unset
  {
    Resources(
      tcpRouter := Resource(["tcp:" + cfg.tcpTargetPoolName], 3, false),
      router := Resource(["tcp:" + cfg.wssTargetPoolName, "http:" + cfg.httpBackendServiceName], 0, false),
      diegoBrain := Resource(["tcp:" + cfg.sshTargetPoolName], 0, false),
      consulServer := Unset,
      nats := Unset,
      nfsServer := Unset,
      mysqlProxy := Unset,
      mysql := Unset,
      backupPrepare := Unset,
      diegoDatabase := Unset,
      uaa := Unset,
      cloudController := Unset,
      haProxy := Unset,
      mysqlMonitor := Unset,
      clockGlobal := Unset,
      cloudControllerWorker := Unset,
      diegoCell := Unset,
      loggregatorTrafficcontroller := Unset,
      syslogAdapter := Unset,
      syslogScheduler := Unset,
      doppler := Unset,
      smokeTests := Unset,
      pushAppsManager := Unset,
      notifications := Unset,
      notificationsUi := Unset,
      pushPivotalAccount := Unset,
      pushUsageService := Unset,
      autoscaling := Unset,
      autoscalingRegisterBroker := Unset,
      nfsbrokerpush := Unset,
      bootstrap := Unset,
      mysqlRejoinUnsafe := Unset
    )
  }

  function SerializeAll(vs: seq<Resource>): (js: seq<Json>)
    ensures |js| == |vs|
    ensures forall i :: 0 <= i < |vs| ==> js[i] == SerializeResource(vs[i])
  {
    seq(|vs|, i requires 0 <= i < |vs| => SerializeResource(vs[i]))
  }

  /** The JSON object json.Marshal emits for `rs`: one member per job, keyed
      by its name, in declaration order. */
  function Document(rs: Resources): (doc: Json)
    ensures doc.JObject? && Keys(doc.fields) == ServiceNames
  {
    Object(ServiceNames, SerializeAll(ResourceValues(rs)))
  }

  function DecodeAll(js: seq<Json>): (r: Option<seq<Resource>>)
    ensures r.Some? ==> |r.value| == |js|
  {
    if js == [] then Some([])
    else
      match (DecodeResource(js[0]), DecodeAll(js[1..]))
      case (Some(v), Some(rest)) => Some([v] + rest)
      case _ => None
  }

  /** Reads a resources document back into the job list, in declaration
      order, provided its member names are exactly the job names. */
  function DecodeDocument(doc: Json): (r: Option<seq<Resource>>)
    ensures r.Some? ==> doc.JObject? && Keys(doc.fields) == ServiceNames && |r.value| == |ServiceNames|
  {
    if doc.JObject? && Keys(doc.fields) == ServiceNames then DecodeAll(Values(doc.fields))
    else None
  }

  lemma {:induction false} DecodeStringsRoundTrip(ss: seq<string>)
    ensures DecodeStrings(Strings(ss)) == Some(ss)
  {
    if ss != [] {
      assert Strings(ss)[1..] == Strings(ss[1..]);
      DecodeStringsRoundTrip(ss[1..]);
      assert [ss[0]] + ss[1..] == ss;
    }
  }

  lemma {:induction false} DecodeStringsCanonical(js: seq<Json>, ss: seq<string>)
    requires DecodeStrings(js) == Some(ss)
    ensures Strings(ss) == js
  {
    if js != [] {
      var rest := DecodeStrings(js[1..]).value;
      DecodeStringsCanonical(js[1..], rest);
      assert ss == [js[0].s] + rest;
      assert js == [js[0]] + js[1..];
    }
  }

  /** Decoding a serialised Resource gives it back; in particular the zero
      values left out by omitempty read back as zero. */
  lemma ResourceRoundTrip(r: Resource)
    ensures DecodeResource(SerializeResource(r)) == Some(r)
  {
    DecodeStringsRoundTrip(r.routerNames);
    var fs := SerializeResource(r).fields;
    var last := [("internet_connected", JBool(r.internetConnected))];
    if r.instances == 0 {
      assert DecodeConnected(r.routerNames, 0, last) == Some(r);
    } else {
      assert DecodeCount(r.routerNames, [("instances", JInt(r.instances))] + last) == Some(r);
    }
    if |r.routerNames| > 0 {
      assert fs[1..] == (if r.instances == 0 then [] else [("instances", JInt(r.instances))]) + last;
    }
  }

  /** Every document DecodeResource accepts is the serialisation of what it
      decodes to: the encoding is canonical. */
  lemma DecodeResourceCanonical(j: Json, r: Resource)
    requires DecodeResource(j) == Some(r)
    ensures SerializeResource(r) == j
  {
    var fs := j.fields;
    var rest := if |fs| > 0 && fs[0].0 == "elb_names" then fs[1..] else fs;
    if |fs| > 0 && fs[0].0 == "elb_names" {
      DecodeStringsCanonical(fs[0].1.items, r.routerNames);
      assert fs == [fs[0]] + rest;
    }
    assert DecodeCount(r.routerNames, rest) == Some(r);
    if |rest| > 0 && rest[0].0 == "instances" {
      assert rest == [rest[0]] + rest[1..];
    }
  }

  lemma {:induction false} DecodeAllSerializeAll(vs: seq<Resource>)
    ensures DecodeAll(SerializeAll(vs)) == Some(vs)
  {
    if vs != [] {
      ResourceRoundTrip(vs[0]);
      assert SerializeAll(vs)[1..] == SerializeAll(vs[1..]);
      DecodeAllSerializeAll(vs[1..]);
      assert [vs[0]] + vs[1..] == vs;
    }
  }

  lemma {:induction false} DecodeAllCanonical(js: seq<Json>, vs: seq<Resource>)
    requires DecodeAll(js) == Some(vs)
    ensures SerializeAll(vs) == js
  {
    if js != [] {
      var rest := DecodeAll(js[1..]).value;
      DecodeResourceCanonical(js[0], vs[0]);
      DecodeAllCanonical(js[1..], rest);
      assert vs == [vs[0]] + rest;
    }
  }

  /** The resources document reads back as the job list it was built from. */
  lemma DocumentRoundTrip(rs: Resources)
    ensures DecodeDocument(Document(rs)) == Some(ResourceValues(rs))
  {
    DecodeAllSerializeAll(ResourceValues(rs));
  }

  /** A document that reads back is exactly the document of what it reads
      back to. */
  lemma DecodeDocumentCanonical(doc: Json, vs: seq<Resource>)
    requires DecodeDocument(doc) == Some(vs)
    ensures |vs| == |ServiceNames| && doc == Object(ServiceNames, SerializeAll(vs))
  {
    DecodeAllCanonical(Values(doc.fields), vs);
    ObjectOfMembers(doc.fields);
  }

  /** The 32 job names are pairwise distinct, so each job has one member. */
  lemma ServiceNamesDistinct()
    ensures |ServiceNames| == 32 && Distinct(ServiceNames)
  {
  }

  /** Looking up the k-th job name in a document finds the k-th job. */
  lemma LookupService(rs: Resources, k: nat)
    requires k < |ServiceNames|
    ensures Lookup(Document(rs).fields, ServiceNames[k]) == Some(SerializeResource(ResourceValues(rs)[k]))
  {
    ServiceNamesDistinct();
    var fs := Document(rs).fields;
    assert fs[k].0 == ServiceNames[k];
    LookupAt(fs, k);
  }

  lemma LookupNamedService(rs: Resources, k: nat, name: string)
    requires k < |ServiceNames| && ServiceNames[k] == name
    ensures Lookup(Document(rs).fields, name) == Some(SerializeResource(ResourceValues(rs)[k]))
  {
    LookupService(rs, k);
  }

  /** The TCP router runs three instances behind "tcp:" + the TCP target
      pool and is not internet connected. */
  lemma TcpRouterBinding(cfg: Config)
    ensures Lookup(Document(Build(cfg)).fields, "tcp_router") ==
      Some(JObject([("elb_names", JArray([JString("tcp:" + cfg.tcpTargetPoolName)])),
                    ("instances", JInt(3)),
                    ("internet_connected", JBool(false))]))
  {
    LookupNamedService(Build(cfg), 0, "tcp_router");
    assert ResourceValues(Build(cfg))[0] == Build(cfg).tcpRouter;
    var names := ["tcp:" + cfg.tcpTargetPoolName];
    assert Strings(names) == [JString("tcp:" + cfg.tcpTargetPoolName)];
    assert SerializeResource(Build(cfg).tcpRouter).fields ==
      [("elb_names", JArray(Strings(names))), ("instances", JInt(3)), ("internet_connected", JBool(false))];
  }

  /** The router sits behind the WebSocket pool ("tcp:") and the HTTP backend
      service ("http:"), in that order, with no instance count emitted and no
      internet connection. */
  lemma RouterBinding(cfg: Config)
    ensures Lookup(Document(Build(cfg)).fields, "router") ==
      Some(JObject([("elb_names", JArray([JString("tcp:" + cfg.wssTargetPoolName),
                                          JString("http:" + cfg.httpBackendServiceName)])),
                    ("internet_connected", JBool(false))]))
  {
    LookupNamedService(Build(cfg), 1, "router");
    assert ResourceValues(Build(cfg))[1] == Build(cfg).router;
    var names := ["tcp:" + cfg.wssTargetPoolName, "http:" + cfg.httpBackendServiceName];
    assert Strings(names) == [JString("tcp:" + cfg.wssTargetPoolName), JString("http:" + cfg.httpBackendServiceName)];
    assert SerializeResource(Build(cfg).router).fields ==
      [("elb_names", JArray(Strings(names))), ("internet_connected", JBool(false))];
  }

  /** The brain sits behind "tcp:" + the SSH target pool, with no instance
      count emitted and no internet connection. */
  lemma DiegoBrainBinding(cfg: Config)
    ensures Lookup(Document(Build(cfg)).fields, "diego_brain") ==
      Some(JObject([("elb_names", JArray([JString("tcp:" + cfg.sshTargetPoolName)])),
                    ("internet_connected", JBool(false))]))
  {
    LookupNamedService(Build(cfg), 2, "diego_brain");
    assert ResourceValues(Build(cfg))[2] == Build(cfg).diegoBrain;
    var names := ["tcp:" + cfg.sshTargetPoolName];
    assert Strings(names) == [JString("tcp:" + cfg.sshTargetPoolName)];
    assert SerializeResource(Build(cfg).diegoBrain).fields ==
      [("elb_names", JArray(Strings(names))), ("internet_connected", JBool(false))];
  }

  /** Every job other than the three bound ones serialises to exactly
      `{"internet_connected": false}`: omitempty drops its empty name list
      and zero instance count. */
  lemma UnboundJobs(cfg: Config)
    ensures forall k :: 3 <= k < |ServiceNames| ==>
      Lookup(Document(Build(cfg)).fields, ServiceNames[k]) == Some(JObject([("internet_connected", JBool(false))]))
  {
    var rs := Build(cfg);
    forall k | 3 <= k < |ServiceNames|
      ensures Lookup(Document(rs).fields, ServiceNames[k]) == Some(JObject([("internet_connected", JBool(false))]))
    {
      LookupService(rs, k);
      assert ResourceValues(rs)[k] == UnboundValues(rs)[k - 3];
      assert UnboundValues(rs)[k - 3] == Unset;
      assert SerializeResource(Unset).fields == [("internet_connected", JBool(false))];
    }
  }

  /** A name that is not a job name is absent from the document: the
      payload configures no job beyond the 32 declared. */
  lemma AbsentService(rs: Resources, name: string)
    requires name !in ServiceNames
    ensures Lookup(Document(rs).fields, name) == None
  {
    LookupFinds(Document(rs).fields, name);
  }
}
