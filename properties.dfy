/** The properties document of the Elastic Runtime tile: the Properties
    struct, whose json tag on each field is the dotted schema path that keys
    the document, and the payload built from a user configuration. */
module PropertyCatalog {
  import opened Json
  import opened TypedValues
  import opened UserConfig

  const GoRouterCiphers := "ECDHE-RSA-AES128-GCM-SHA256:ECDHE-RSA-AES256-GCM-SHA384"
  const HaProxyCiphers :=
    "DHE-RSA-AES128-GCM-SHA256:DHE-RSA-AES256-GCM-SHA384:ECDHE-RSA-AES128-GCM-SHA256:ECDHE-RSA-AES256-GCM-SHA384"

  /** The system-database roles that each get a username/password pair, in
      declaration order. All of them share the one SQL credential. */
  const SystemDatabaseRoles: seq<string> := [
    "app_usage_service", "autoscale", "ccdb", "diego", "locket", "networkpolicyserver",
    "nfsvolume", "notifications", "account", "routing", "silk"
  ]

  const SystemDatabasePrefix := ".properties.system_database.external."
  const UsernameSuffix := "_username"
  const PasswordSuffix := "_password"

  /** The schema path of one credential field of a system-database role. */
  function SystemDatabasePath(role: string, suffix: string): string
  {
    SystemDatabasePrefix + role + suffix
  }

  /** The paths of the fields declared before the system-database credentials. */
  const LeadingPaths: seq<string> := [
    ".cloud_controller.apps_domain",
    ".cloud_controller.system_domain",
    ".properties.networking_point_of_entry",
    ".properties.tcp_routing",
    ".properties.tcp_routing.enable.reservable_ports",
    ".properties.gorouter_ssl_ciphers",
    ".properties.haproxy_ssl_ciphers",
    ".ha_proxy.skip_cert_verify",
    ".properties.haproxy_forward_tls",
    ".properties.networking_poe_ssl_cert",
    ".diego_cell.dns_servers",
    ".properties.security_acknowledgement",
    ".uaa.service_provider_key_credentials",
    ".properties.uaa_database",
    ".properties.uaa_database.external.host",
    ".properties.uaa_database.external.port",
    ".properties.uaa_database.external.uaa_username",
    ".properties.uaa_database.external.uaa_password",
    ".properties.system_database",
    ".properties.system_database.external.host",
    ".properties.system_database.external.port"
  ]

  /** The path of the one field declared after them. */
  const TrailingPaths: seq<string> := [".mysql_monitor.recipient_email"]

  /** The pairs, one after the other: first then second of each, in order. */
  function Flatten<T>(pairs: seq<(T, T)>): (xs: seq<T>)
    ensures |xs| == 2 * |pairs|
    ensures forall j :: 0 <= j < |pairs| ==> xs[2 * j] == pairs[j].0 && xs[2 * j + 1] == pairs[j].1
  {
    if pairs == [] then [] else [pairs[0].0, pairs[0].1] + Flatten(pairs[1..])
  }

  /** A username path then a password path for every role, in role order. */
  function CredentialPaths(roles: seq<string>): (ps: seq<string>)
    ensures |ps| == 2 * |roles|
    ensures forall j :: 0 <= j < |roles| ==>
              ps[2 * j] == SystemDatabasePath(roles[j], UsernameSuffix) &&
              ps[2 * j + 1] == SystemDatabasePath(roles[j], PasswordSuffix)
  {
    Flatten(seq(|roles|, j requires 0 <= j < |roles| =>
      (SystemDatabasePath(roles[j], UsernameSuffix), SystemDatabasePath(roles[j], PasswordSuffix))))
  }

  /** The json tags of Properties, in declaration order: the document's keys. */
  function Paths(): (ps: seq<string>)
    ensures |ps| == 44
  {
    LeadingPaths + CredentialPaths(SystemDatabaseRoles) + TrailingPaths
  }

  /** One value per field of the Properties struct; each field's type admits
      only the wrapper the struct declares it with. */
  datatype Properties = Properties(
    appsDomain: PlainField,
    sysDomain: PlainField,
    networkingPointOfEntry: PlainField,
    tcpRouting: PlainField,
    tcpRoutingReservablePorts: PlainField,
    goRouterSslCiphers: PlainField,
    haProxySslCiphers: PlainField,
    skipSslVerification: BooleanField,
    haProxyForwardTls: PlainField,
    ingressCertificates: CertificateField,
    containerDnsServers: PlainField,
    securityAcknowledgement: PlainField,
    serviceProviderCredentials: CertificateField,
    uaaDbChoice: PlainField,
    uaaDbIp: PlainField,
    uaaDbPort: IntegerField,
    uaaDbUsername: PlainField,
    uaaDbPassword: SecretField,
    ertDbChoice: PlainField,
    ertDbIp: PlainField,
    ertDbPort: IntegerField,
    ertDbAppUsageUsername: PlainField,
    ertDbAppUsagePassword: SecretField,
    ertDbAutoscaleUsername: PlainField,
    ertDbAutoscalePassword: SecretField,
    ertDbCloudControllerUsername: PlainField,
    ertDbCloudControllerPassword: SecretField,
    ertDbDiegoUsername: PlainField,
    ertDbDiegoPassword: SecretField,
    ertDbLocketUsername: PlainField,
    ertDbLocketPassword: SecretField,
    ertDbNetworkPolicyServerUsername: PlainField,
    ertDbNetworkPolicyServerPassword: SecretField,
    ertDbNfsUsername: PlainField,
    ertDbNfsPassword: SecretField,
    ertDbNotificationsUsername: PlainField,
    ertDbNotificationsPassword: SecretField,
    ertDbAccountUsername: PlainField,
    ertDbAccountPassword: SecretField,
    ertDbRoutingUsername: PlainField,
    ertDbRoutingPassword: SecretField,
    ertDbSilkUsername: PlainField,
    ertDbSilkPassword: SecretField,
    mySqlMonitorRecipientEmail: PlainField
  )

  /** The field values in declaration order, i.e. in the order they are emitted. */
  function FieldValues(p: Properties): (vs: seq<TypedValue>)
    ensures |vs| == |Paths()|
  {
    LeadingValues(p) + Flatten(CredentialPairs(p)) + [p.mySqlMonitorRecipientEmail]
  }

  /** The values of the fields declared before the system-database credentials. */
  function LeadingValues(p: Properties): (vs: seq<TypedValue>)
    ensures |vs| == |LeadingPaths|
  {
    [
      p.appsDomain,
      p.sysDomain,
      p.networkingPointOfEntry,
      p.tcpRouting,
      p.tcpRoutingReservablePorts,
      p.goRouterSslCiphers,
      p.haProxySslCiphers,
      p.skipSslVerification,
      p.haProxyForwardTls,
      p.ingressCertificates,
      p.containerDnsServers,
      p.securityAcknowledgement,
      p.serviceProviderCredentials,
      p.uaaDbChoice,
      p.uaaDbIp,
      p.uaaDbPort,
      p.uaaDbUsername,
      p.uaaDbPassword,
      p.ertDbChoice,
      p.ertDbIp,
      p.ertDbPort
    ]
  }

  /** The username and password fields of each system-database role, in role order. */
  function CredentialPairs(p: Properties): (pairs: seq<(TypedValue, TypedValue)>)
    ensures |pairs| == |SystemDatabaseRoles|
  {
    [
      (p.ertDbAppUsageUsername, p.ertDbAppUsagePassword),
      (p.ertDbAutoscaleUsername, p.ertDbAutoscalePassword),
      (p.ertDbCloudControllerUsername, p.ertDbCloudControllerPassword),
      (p.ertDbDiegoUsername, p.ertDbDiegoPassword),
      (p.ertDbLocketUsername, p.ertDbLocketPassword),
      (p.ertDbNetworkPolicyServerUsername, p.ertDbNetworkPolicyServerPassword),
      (p.ertDbNfsUsername, p.ertDbNfsPassword),
      (p.ertDbNotificationsUsername, p.ertDbNotificationsPassword),
      (p.ertDbAccountUsername, p.ertDbAccountPassword),
      (p.ertDbRoutingUsername, p.ertDbRoutingPassword),
      (p.ertDbSilkUsername, p.ertDbSilkPassword)
    ]
  }

  /** The properties payload for `cfg`: user values where the configuration
      supplies them, the one SQL credential for every database role, and
      fixed platform defaults everywhere else. */
  function Build(cfg: Config): (p: Properties)
    ensures p.uaaDbUsername == Value(cfg.ertSqlUsername) && p.uaaDbPassword == SecretValue(Secret(cfg.ertSqlPassword))
    ensures p.ingressCertificates == p.serviceProviderCredentials
              == CertificateValue(Certificate(cfg.sslCertificate, cfg.sslPrivateKey))
  {
    Properties(
      appsDomain := Value(cfg.appsDomain),
      sysDomain := Value(cfg.sysDomain),
      networkingPointOfEntry := Value("external_non_ssl"),
      containerDnsServers := Value("8.8.8.8,8.8.4.4"),
      skipSslVerification := BooleanValue(true),
      haProxyForwardTls := Value("disable"),
      ingressCertificates := CertificateValue(Certificate(cfg.sslCertificate, cfg.sslPrivateKey)),
      tcpRouting := Value("enable"),
      tcpRoutingReservablePorts := Value(cfg.tcpPortRange),
      goRouterSslCiphers := Value(GoRouterCiphers),
      haProxySslCiphers := Value(HaProxyCiphers),
      securityAcknowledgement := Value("X"),
      serviceProviderCredentials := CertificateValue(Certificate(cfg.sslCertificate, cfg.sslPrivateKey)),
      uaaDbChoice := Value("external"),
      uaaDbIp := Value(cfg.externalSqlIp),
      uaaDbPort := IntegerValue(cfg.externalSqlPort),
      uaaDbUsername := Value(cfg.ertSqlUsername),
      uaaDbPassword := SecretValue(Secret(cfg.ertSqlPassword)),
      ertDbChoice := Value("external"),
      ertDbIp := Value(cfg.externalSqlIp),
      ertDbPort := IntegerValue(cfg.externalSqlPort),
      ertDbAppUsageUsername := Value(cfg.ertSqlUsername),
      ertDbAppUsagePassword := SecretValue(Secret(cfg.ertSqlPassword)),
      ertDbAutoscaleUsername := Value(cfg.ertSqlUsername),
      ertDbAutoscalePassword := SecretValue(Secret(cfg.ertSqlPassword)),
      ertDbCloudControllerUsername := Value(cfg.ertSqlUsername),
      ertDbCloudControllerPassword := SecretValue(Secret(cfg.ertSqlPassword)),
      ertDbDiegoUsername := Value(cfg.ertSqlUsername),
      ertDbDiegoPassword := SecretValue(Secret(cfg.ertSqlPassword)),
      ertDbLocketUsername := Value(cfg.ertSqlUsername),
      ertDbLocketPassword := SecretValue(Secret(cfg.ertSqlPassword)),
      ertDbNetworkPolicyServerUsername := Value(cfg.ertSqlUsername),
      ertDbNetworkPolicyServerPassword := SecretValue(Secret(cfg.ertSqlPassword)),
      ertDbNfsUsername := Value(cfg.ertSqlUsername),
      ertDbNfsPassword := SecretValue(Secret(cfg.ertSqlPassword)),
      ertDbNotificationsUsername := Value(cfg.ertSqlUsername),
      ertDbNotificationsPassword := SecretValue(Secret(cfg.ertSqlPassword)),
      ertDbAccountUsername := Value(cfg.ertSqlUsername),
      ertDbAccountPassword := SecretValue(Secret(cfg.ertSqlPassword)),
      ertDbRoutingUsername := Value(cfg.ertSqlUsername),
      ertDbRoutingPassword := SecretValue(Secret(cfg.ertSqlPassword)),
      ertDbSilkUsername := Value(cfg.ertSqlUsername),
      ertDbSilkPassword := SecretValue(Secret(cfg.ertSqlPassword)),
      mySqlMonitorRecipientEmail := Value("admin@example.org")
    )
  }

  /** Serialises each value in turn. */
  function SerializeAll(vs: seq<TypedValue>): (js: seq<Json>)
    ensures |js| == |vs|
    ensures forall i :: 0 <= i < |vs| ==> js[i] == Serialize(vs[i])
  {
    if vs == [] then [] else [Serialize(vs[0])] + SerializeAll(vs[1..])
  }

  /** Reads each value in turn; fails if any one is not a wrapper shape. */
  function DecodeAll(js: seq<Json>): (r: Option<seq<TypedValue>>)
    ensures r.Some? ==> |r.value| == |js|
  {
    if js == [] then Some([])
    else
      match (Decode(js[0]), DecodeAll(js[1..]))
      case (Some(v), Some(vs)) => Some([v] + vs)
      case _ => None
  }

  /** The JSON object json.Marshal emits for `p`: one member per field, keyed
      by its path, in declaration order. */
  function Document(p: Properties): (doc: Json)
    ensures doc.JObject? && Keys(doc.fields) == Paths()
  {
    Object(Paths(), SerializeAll(FieldValues(p)))
  }

  /** Reads a properties document back into its field values: the keys must be
      exactly the schema paths in order and every member a wrapper shape. */
  function DecodeDocument(doc: Json): (r: Option<seq<TypedValue>>)
    ensures r.Some? ==> doc.JObject? && Keys(doc.fields) == Paths() && |r.value| == |Paths()|
  {
    if doc.JObject? && Keys(doc.fields) == Paths() then DecodeAll(Values(doc.fields))
    else None
  }

  /** Decoding the serialised values gives them back, variants included. */
  lemma {:induction false} DecodeAllSerializeAll(vs: seq<TypedValue>)
    ensures DecodeAll(SerializeAll(vs)) == Some(vs)
  {
    if vs != [] {
      var js := SerializeAll(vs);
      assert js[1..] == SerializeAll(vs[1..]);
      RoundTrip(vs[0]);
      DecodeAllSerializeAll(vs[1..]);
      assert [vs[0]] + vs[1..] == vs;
    }
  }

  /** DecodeAll accepts only what SerializeAll produces. */
  lemma {:induction false} DecodeAllCanonical(js: seq<Json>, vs: seq<TypedValue>)
    requires DecodeAll(js) == Some(vs)
    ensures SerializeAll(vs) == js
  {
    if js != [] {
      var v := Decode(js[0]).value;
      var rest := DecodeAll(js[1..]).value;
      assert vs == [v] + rest;
      DecodeAllCanonical(js[1..], rest);
      assert vs[1..] == rest;
      assert [js[0]] + js[1..] == js;
    }
  }

  /** The properties document is read back into exactly the field values. */
  lemma DocumentRoundTrip(p: Properties)
    ensures DecodeDocument(Document(p)) == Some(FieldValues(p))
  {
    var doc := Document(p);
    assert Values(doc.fields) == SerializeAll(FieldValues(p));
    DecodeAllSerializeAll(FieldValues(p));
  }

  /** Every document DecodeDocument accepts is the document of the values it
      returns: the reader loses nothing and invents nothing. */
  lemma DecodeDocumentCanonical(doc: Json, vs: seq<TypedValue>)
    requires DecodeDocument(doc) == Some(vs)
    ensures |vs| == |Paths()|
    ensures doc == Object(Paths(), SerializeAll(vs))
  {
    DecodeAllCanonical(Values(doc.fields), vs);
    ObjectOfMembers(doc.fields);
  }

  /** Two credential paths are equal only for the same role and the same
      suffix, when the suffixes have one length. */
  lemma SystemDatabasePathInjective(r1: string, s1: string, r2: string, s2: string)
    requires |s1| == |s2|
    requires SystemDatabasePath(r1, s1) == SystemDatabasePath(r2, s2)
    ensures r1 == r2 && s1 == s2
  {
    var path := SystemDatabasePath(r1, s1);
    var n := |SystemDatabasePrefix|;
    assert |r1| == |r2|;
    assert path[n..n + |r1|] == r1;
    assert SystemDatabasePath(r2, s2)[n..n + |r2|] == r2;
    assert path[n + |r1|..] == s1;
    assert SystemDatabasePath(r2, s2)[n + |r2|..] == s2;
  }

  /** Distinct roles give pairwise distinct credential paths. */
  lemma CredentialPathsDistinct(roles: seq<string>)
    requires Distinct(roles)
    ensures Distinct(CredentialPaths(roles))
  {
    var ps := CredentialPaths(roles);
    forall i, j | 0 <= i < j < |ps| ensures ps[i] != ps[j] {
      var a, b := i / 2, j / 2;
      var sa := if i % 2 == 0 then UsernameSuffix else PasswordSuffix;
      var sb := if j % 2 == 0 then UsernameSuffix else PasswordSuffix;
      assert ps[i] == SystemDatabasePath(roles[a], sa);
      assert ps[j] == SystemDatabasePath(roles[b], sb);
      if ps[i] == ps[j] {
        SystemDatabasePathInjective(roles[a], sa, roles[b], sb);
      }
    }
  }

  /** Every leading path is shorter than 48 characters, and no two are equal. */
  lemma LeadingPathsShortAndDistinct()
    ensures Distinct(LeadingPaths)
    ensures forall i :: 0 <= i < |LeadingPaths| ==> |LeadingPaths[i]| < 48
  {
  }

  /** Credential paths of roles of at least two characters are at least 48
      characters long. */
  lemma CredentialPathsLong(roles: seq<string>)
    requires forall j :: 0 <= j < |roles| ==> |roles[j]| >= 2
    ensures forall j :: 0 <= j < |CredentialPaths(roles)| ==> |CredentialPaths(roles)[j]| >= 48
  {
    var ps := CredentialPaths(roles);
    forall j | 0 <= j < |ps| ensures |ps[j]| >= 48 {
      assert |roles[j / 2]| >= 2;
    }
  }

  /** The roles table has no duplicate and no role shorter than two characters. */
  lemma RolesDistinct()
    ensures Distinct(SystemDatabaseRoles)
    ensures forall j :: 0 <= j < |SystemDatabaseRoles| ==> |SystemDatabaseRoles[j]| >= 2
  {
  }

  /** Short distinct leading paths, the credential paths of distinct roles
      and short distinct trailing paths never collide. */
  lemma CatalogDistinct(lead: seq<string>, roles: seq<string>, trail: seq<string>)
    requires Distinct(lead) && Distinct(trail) && Distinct(roles)
    requires forall i :: 0 <= i < |lead| ==> |lead[i]| < 48
    requires forall i :: 0 <= i < |trail| ==> |trail[i]| < 48
    requires forall j :: 0 <= j < |roles| ==> |roles[j]| >= 2
    requires forall i, j :: 0 <= i < |lead| && 0 <= j < |trail| ==> lead[i] != trail[j]
    ensures Distinct(lead + CredentialPaths(roles) + trail)
  {
    var creds := CredentialPaths(roles);
    CredentialPathsDistinct(roles);
    CredentialPathsLong(roles);
    DistinctConcat(lead, creds);
    var front := lead + creds;
    forall i, j | 0 <= i < |front| && 0 <= j < |trail| ensures front[i] != trail[j] {
      if i >= |lead| {
        assert front[i] == creds[i - |lead|];
      }
    }
    DistinctConcat(front, trail);
  }

  /** The 44 schema paths are pairwise distinct: the document never repeats a key. */
  lemma PathsDistinct()
    ensures |Paths()| == 44
    ensures Distinct(Paths())
  {
    LeadingPathsShortAndDistinct();
    RolesDistinct();
    assert forall i :: 0 <= i < |LeadingPaths| ==> LeadingPaths[i] != TrailingPaths[0];
    CatalogDistinct(LeadingPaths, SystemDatabaseRoles, TrailingPaths);
  }

  /** The layout of the paths: the 21 leading tags, then for each role its
      username tag and its password tag, in role order, then the monitoring
      e-mail tag last. */
  lemma PathsLayout()
    ensures Paths()[..|LeadingPaths|] == LeadingPaths
    ensures forall j :: 0 <= j < |SystemDatabaseRoles| ==>
              Paths()[|LeadingPaths| + 2 * j] == SystemDatabasePath(SystemDatabaseRoles[j], UsernameSuffix) &&
              Paths()[|LeadingPaths| + 2 * j + 1] == SystemDatabasePath(SystemDatabaseRoles[j], PasswordSuffix)
    ensures Paths()[|Paths()| - 1] == ".mysql_monitor.recipient_email"
  {
    var creds := CredentialPaths(SystemDatabaseRoles);
    forall j | 0 <= j < |SystemDatabaseRoles|
      ensures Paths()[|LeadingPaths| + 2 * j] == creds[2 * j]
      ensures Paths()[|LeadingPaths| + 2 * j + 1] == creds[2 * j + 1]
    {
    }
  }

  /** Looking up the k-th path in the document finds the k-th field's value. */
  lemma LookupField(p: Properties, k: nat)
    requires k < |Paths()|
    ensures Lookup(Document(p).fields, Paths()[k]) == Some(Serialize(FieldValues(p)[k]))
  {
    PathsDistinct();
    var doc := Document(p);
    assert Keys(doc.fields)[k] == doc.fields[k].0;
    assert Values(doc.fields)[k] == doc.fields[k].1;
    LookupAt(doc.fields, k);
  }

  /** The shape of a plain string value in the document. */
  function PlainJson(s: string): Json
  {
    Serialize(Value(s))
  }

  /** The shape of a secret in the document: one level deeper, under "secret". */
  function SecretJson(s: string): Json
  {
    Serialize(SecretValue(Secret(s)))
  }

  /** The credential fields of the built payload, in declaration order: for
      every system-database role its username then its password. */
  lemma BuildCredentialValues(cfg: Config, j: nat)
    requires j < |SystemDatabaseRoles|
    ensures FieldValues(Build(cfg))[21 + 2 * j] == Value(cfg.ertSqlUsername)
    ensures FieldValues(Build(cfg))[22 + 2 * j] == SecretValue(Secret(cfg.ertSqlPassword))
  {
    var p := Build(cfg);
    var pairs := CredentialPairs(p);
    assert forall k :: 0 <= k < |pairs| ==>
             pairs[k] == (Value(cfg.ertSqlUsername), SecretValue(Secret(cfg.ertSqlPassword)));
    var flat := Flatten(pairs);
    assert FieldValues(p)[21 + 2 * j] == flat[2 * j];
    assert FieldValues(p)[22 + 2 * j] == flat[2 * j + 1];
  }

  /** The username and password members of the j-th system-database role. */
  lemma CredentialMembersAt(cfg: Config, j: nat)
    requires j < |SystemDatabaseRoles|
    ensures Lookup(Document(Build(cfg)).fields, SystemDatabasePath(SystemDatabaseRoles[j], UsernameSuffix))
              == Some(PlainJson(cfg.ertSqlUsername))
    ensures Lookup(Document(Build(cfg)).fields, SystemDatabasePath(SystemDatabaseRoles[j], PasswordSuffix))
              == Some(SecretJson(cfg.ertSqlPassword))
  {
    var p := Build(cfg);
    var creds := CredentialPaths(SystemDatabaseRoles);
    assert Paths()[21 + 2 * j] == creds[2 * j];
    assert Paths()[22 + 2 * j] == creds[2 * j + 1];
    BuildCredentialValues(cfg, j);
    LookupField(p, 21 + 2 * j);
    LookupField(p, 22 + 2 * j);
  }

  /** One SQL username and password fan out to every system-database role:
      each role's username member reads {"value": user} and each password
      member reads {"value": {"secret": password}}. */
  lemma CredentialFanOut(cfg: Config)
    ensures forall role :: role in SystemDatabaseRoles ==>
              Lookup(Document(Build(cfg)).fields, SystemDatabasePath(role, UsernameSuffix))
                == Some(PlainJson(cfg.ertSqlUsername)) &&
              Lookup(Document(Build(cfg)).fields, SystemDatabasePath(role, PasswordSuffix))
                == Some(SecretJson(cfg.ertSqlPassword))
  {
    forall role | role in SystemDatabaseRoles
      ensures Lookup(Document(Build(cfg)).fields, SystemDatabasePath(role, UsernameSuffix))
                == Some(PlainJson(cfg.ertSqlUsername))
      ensures Lookup(Document(Build(cfg)).fields, SystemDatabasePath(role, PasswordSuffix))
                == Some(SecretJson(cfg.ertSqlPassword))
    {
      var j :| 0 <= j < |SystemDatabaseRoles| && SystemDatabaseRoles[j] == role;
      CredentialMembersAt(cfg, j);
    }
  }

  /** Looking up the k-th leading path finds the value of the field declared there. */
  lemma LookupLeadingField(p: Properties, k: nat, path: string)
    requires k < |LeadingPaths| && LeadingPaths[k] == path
    ensures Lookup(Document(p).fields, path) == Some(Serialize(LeadingValues(p)[k]))
  {
    LookupField(p, k);
    assert Paths()[k] == LeadingPaths[k];
    assert FieldValues(p)[k] == LeadingValues(p)[k];
  }

  /** The UAA database gets the same SQL credential as the system database roles. */
  lemma UaaCredentials(cfg: Config)
    ensures Lookup(Document(Build(cfg)).fields, ".properties.uaa_database.external.uaa_username")
              == Some(PlainJson(cfg.ertSqlUsername))
    ensures Lookup(Document(Build(cfg)).fields, ".properties.uaa_database.external.uaa_password")
              == Some(SecretJson(cfg.ertSqlPassword))
  {
    LookupLeadingField(Build(cfg), 16, ".properties.uaa_database.external.uaa_username");
    LookupLeadingField(Build(cfg), 17, ".properties.uaa_database.external.uaa_password");
  }

  /** Both certificate properties carry the configured pair: the certificate
      under "cert_pem" and the key under "private_key_pem", never swapped and
      never dropped, and each reads back as that certificate value. */
  lemma CertificatesCarried(cfg: Config)
    ensures var certJson := Wrapped(JObject([("cert_pem", JString(cfg.sslCertificate)),
                                             ("private_key_pem", JString(cfg.sslPrivateKey))]));
            && Lookup(Document(Build(cfg)).fields, ".properties.networking_poe_ssl_cert") == Some(certJson)
            && Lookup(Document(Build(cfg)).fields, ".uaa.service_provider_key_credentials") == Some(certJson)
            && Decode(certJson) == Some(CertificateValue(Certificate(cfg.sslCertificate, cfg.sslPrivateKey)))
  {
    LookupLeadingField(Build(cfg), 9, ".properties.networking_poe_ssl_cert");
    LookupLeadingField(Build(cfg), 12, ".uaa.service_provider_key_credentials");
    RoundTrip(CertificateValue(Certificate(cfg.sslCertificate, cfg.sslPrivateKey)));
  }

  /** The routing and TLS-termination defaults are emitted whatever the configuration says. */
  lemma RoutingDefaults(cfg: Config)
    ensures var fields := Document(Build(cfg)).fields;
            && Lookup(fields, ".properties.networking_point_of_entry") == Some(PlainJson("external_non_ssl"))
            && Lookup(fields, ".properties.tcp_routing") == Some(PlainJson("enable"))
            && Lookup(fields, ".ha_proxy.skip_cert_verify") == Some(Wrapped(JBool(true)))
            && Lookup(fields, ".properties.haproxy_forward_tls") == Some(PlainJson("disable"))
  {
    var p := Build(cfg);
    LookupLeadingField(p, 2, ".properties.networking_point_of_entry");
    LookupLeadingField(p, 3, ".properties.tcp_routing");
    LookupLeadingField(p, 7, ".ha_proxy.skip_cert_verify");
    LookupLeadingField(p, 8, ".properties.haproxy_forward_tls");
  }

  /** The router and load-balancer cipher suites are fixed. */
  lemma CipherDefaults(cfg: Config)
    ensures var fields := Document(Build(cfg)).fields;
            && Lookup(fields, ".properties.gorouter_ssl_ciphers") == Some(PlainJson(GoRouterCiphers))
            && Lookup(fields, ".properties.haproxy_ssl_ciphers") == Some(PlainJson(HaProxyCiphers))
  {
    var p := Build(cfg);
    LookupLeadingField(p, 5, ".properties.gorouter_ssl_ciphers");
    LookupLeadingField(p, 6, ".properties.haproxy_ssl_ciphers");
  }

  /** The container, security, database-choice and monitoring defaults are
      emitted whatever the configuration says. */
  lemma PlatformDefaults(cfg: Config)
    ensures var fields := Document(Build(cfg)).fields;
            && Lookup(fields, ".diego_cell.dns_servers") == Some(PlainJson("8.8.8.8,8.8.4.4"))
            && Lookup(fields, ".properties.security_acknowledgement") == Some(PlainJson("X"))
            && Lookup(fields, ".properties.uaa_database") == Some(PlainJson("external"))
            && Lookup(fields, ".properties.system_database") == Some(PlainJson("external"))
            && Lookup(fields, ".mysql_monitor.recipient_email") == Some(PlainJson("admin@example.org"))
  {
    var p := Build(cfg);
    LookupLeadingField(p, 10, ".diego_cell.dns_servers");
    LookupLeadingField(p, 11, ".properties.security_acknowledgement");
    LookupLeadingField(p, 13, ".properties.uaa_database");
    LookupLeadingField(p, 18, ".properties.system_database");
    LookupField(p, 43);
    assert Paths()[43] == ".mysql_monitor.recipient_email";
  }

  /** The configuration's domains, TCP port range and SQL endpoint reach the
      document unchanged; the SQL endpoint is given to both databases. */
  lemma UserValuesCarried(cfg: Config)
    ensures var fields := Document(Build(cfg)).fields;
            && Lookup(fields, ".cloud_controller.apps_domain") == Some(PlainJson(cfg.appsDomain))
            && Lookup(fields, ".cloud_controller.system_domain") == Some(PlainJson(cfg.sysDomain))
            && Lookup(fields, ".properties.tcp_routing.enable.reservable_ports") == Some(PlainJson(cfg.tcpPortRange))
            && Lookup(fields, ".properties.uaa_database.external.host") == Some(PlainJson(cfg.externalSqlIp))
            && Lookup(fields, ".properties.uaa_database.external.port") == Some(Wrapped(JInt(cfg.externalSqlPort)))
            && Lookup(fields, ".properties.system_database.external.host") == Some(PlainJson(cfg.externalSqlIp))
            && Lookup(fields, ".properties.system_database.external.port") == Some(Wrapped(JInt(cfg.externalSqlPort)))
  {
    var p := Build(cfg);
    LookupLeadingField(p, 0, ".cloud_controller.apps_domain");
    LookupLeadingField(p, 1, ".cloud_controller.system_domain");
    LookupLeadingField(p, 4, ".properties.tcp_routing.enable.reservable_ports");
    LookupLeadingField(p, 14, ".properties.uaa_database.external.host");
    LookupLeadingField(p, 15, ".properties.uaa_database.external.port");
    LookupLeadingField(p, 19, ".properties.system_database.external.host");
    LookupLeadingField(p, 20, ".properties.system_database.external.port");
  }

  /** A name that is not one of the declared paths is absent from the
      document: the payload carries no member beyond the 44 fields. */
  lemma AbsentPath(p: Properties, key: string)
    requires key !in Paths()
    ensures Lookup(Document(p).fields, key) == None
  {
    LookupFinds(Document(p).fields, key);
  }
}
