# Elastic Runtime tile configuration, modelled in Dafny

This project models how the quickstart's Elastic Runtime (ERT) tile builds
and submits its configuration to Ops Manager. The source is
`src/omg-cli/omg/tiles/ert/configuration.go`.

- **Typed values** (`typed_values.dfy`). These are the five wrappers `Value`, `IntegerValue`,
  `BooleanValue`, `SecretValue` and `CertificateValue`. Each has exactly one JSON
  shape: `{"value": s}`, `{"value": n}`, `{"value": b}`, `{"value": {"secret": s}}`,
  or `{"value": {"cert_pem": c, "private_key_pem": k}}`. The shapes come with a
  decoder and a round trip in both directions.
- **Properties** (`properties.dfy`). This is the 44-field `Properties` record and the value
  `Configure` fills it with. Its document is a JSON object keyed by each field's
  dotted `json` tag, in declaration order. The 22 system-database credential
  paths are built from a table of 11 roles as
  `.properties.system_database.external.` + role + `_username`/`_password`.
  These are the same strings as the tags, which the Go struct spells out one by one.
  The lemmas prove:
  - the 44 keys are distinct;
  - each key finds its field;
  - the SQL credential fans out to every role and to UAA;
  - both certificate properties carry the configured pair unswapped;
  - the fixed defaults are always emitted.
- **Resources** (`resources.dfy`). This is the 32-job `Resources` record. Each `Resource`
  marshals under Go's `omitempty` rules: `elb_names` is dropped when empty,
  `instances` is dropped when zero, and `internet_connected` is always present.
  The lemmas prove the three load-balancer bindings. They also prove that every
  other job serialises to exactly `{"internet_connected": false}`.
- **Workflow** (`configuration.dfy`). This is `Configure`, an imperative method over
  an Ops Manager client class. The class has a ghost trace of the calls made on it,
  each recorded with the outcome it reported.
  - A failed stage call is returned unchanged and nothing else is called.
  - Otherwise exactly one configure call follows, last. It carries the product's
    name, the network document, and the properties and resources documents.
    Its outcome is the result.

JSON is modelled as a tree (`json.dfy`). Objects keep their members in
emission order, and a reader's view of an object is `Lookup`, which returns
the first member with a given name.

Go's `encoding/json` names each member after the field's `json` tag, never
after the Go field name. So the properties document is keyed by the dotted
schema paths, and the resources document by the job names.

## Model

| member | source | states |
|---|---|---|
| `TypedValues.Serialize` | src/omg-cli/omg/tiles/ert/configuration.go:85-112 | every wrapper is an object with the single key "value"; per variant, the exact nested shape of its `json` tags (secret under "secret", certificate before key) |
| `TypedValues.Decode` | src/omg-cli/omg/tiles/ert/configuration.go:85-112 | whatever the reader accepts is the serialisation of what it returns (the encoding is canonical) |
| `TypedValues.RoundTrip` | src/omg-cli/omg/tiles/ert/configuration.go:85-112 | decoding a serialised wrapper gives it back, variant included |
| `TypedValues.SerializeInjective` | src/omg-cli/omg/tiles/ert/configuration.go:85-112 | no two wrapper values, of the same or of different types, share a JSON shape |
| `PropertyCatalog.CredentialPaths` | src/omg-cli/omg/tiles/ert/configuration.go:58-79 | for each role, in order, the username path then the password path |
| `PropertyCatalog.Paths` | src/omg-cli/omg/tiles/ert/configuration.go:29-82 | there are 44 tags; their order is fixed by `PathsLayout` and their distinctness by `PathsDistinct` |
| `PropertyCatalog.PathsLayout` | src/omg-cli/omg/tiles/ert/configuration.go:29-82 | the 21 leading tags come first, then each role's username and password tags in role order, then the monitor e-mail tag last |
| `PropertyCatalog.Build` | src/omg-cli/omg/tiles/ert/configuration.go:167-215 | UAA gets the SQL username and the SQL password as a secret; both certificate properties hold the one configured pair. The other 40 fields are fixed by `BuildCredentialValues`, `CredentialFanOut`, `RoutingDefaults`, `CipherDefaults`, `PlatformDefaults` and `UserValuesCarried` |
| `PropertyCatalog.FieldValues` | src/omg-cli/omg/tiles/ert/configuration.go:27-83 | one value per declared path |
| `PropertyCatalog.Document` | src/omg-cli/omg/tiles/ert/configuration.go:27-83 | the marshalled properties object has exactly the declared paths as keys, in declaration order |
| `PropertyCatalog.DecodeAll` | src/omg-cli/omg/tiles/ert/configuration.go:217-220 | a decoded list has one value per JSON element |
| `PropertyCatalog.DecodeDocument` | src/omg-cli/omg/tiles/ert/configuration.go:217-220 | a document it accepts is an object keyed by exactly the 44 paths, and it yields one value per path |
| `PropertyCatalog.DecodeAllSerializeAll` | src/omg-cli/omg/tiles/ert/configuration.go:217-220 | a serialised list of values reads back as that list |
| `PropertyCatalog.DecodeAllCanonical` | src/omg-cli/omg/tiles/ert/configuration.go:217-220 | a JSON list that reads back is the serialisation of what it reads back to |
| `PropertyCatalog.DocumentRoundTrip` | src/omg-cli/omg/tiles/ert/configuration.go:217-220 | the properties document reads back as the 44 field values in order |
| `PropertyCatalog.DecodeDocumentCanonical` | src/omg-cli/omg/tiles/ert/configuration.go:217-220 | a document that reads back has 44 members and is the document of those values |
| `PropertyCatalog.SystemDatabasePathInjective` | src/omg-cli/omg/tiles/ert/configuration.go:58-79 | two credential paths coincide only for the same role and the same suffix |
| `PropertyCatalog.CredentialPathsDistinct` | src/omg-cli/omg/tiles/ert/configuration.go:58-79 | distinct roles give 22 pairwise distinct credential paths |
| `PropertyCatalog.LeadingPathsShortAndDistinct` | src/omg-cli/omg/tiles/ert/configuration.go:29-56 | the 21 paths before the credentials are distinct and shorter than every credential path |
| `PropertyCatalog.CredentialPathsLong` | src/omg-cli/omg/tiles/ert/configuration.go:58-79 | every credential path is at least 48 characters long |
| `PropertyCatalog.RolesDistinct` | src/omg-cli/omg/tiles/ert/configuration.go:58-79 | the 11 system-database roles are distinct |
| `PropertyCatalog.CatalogDistinct` | src/omg-cli/omg/tiles/ert/configuration.go:27-83 | leading paths, credential paths and trailing paths never collide |
| `PropertyCatalog.PathsDistinct` | src/omg-cli/omg/tiles/ert/configuration.go:27-83 | there are 44 paths and no two are equal, so no key repeats |
| `PropertyCatalog.LookupField` | src/omg-cli/omg/tiles/ert/configuration.go:167-220 | looking up the k-th path in the document finds the k-th field's serialised value |
| `PropertyCatalog.AbsentPath` | src/omg-cli/omg/tiles/ert/configuration.go:27-83 | a name that is not one of the 44 paths is absent from the document |
| `PropertyCatalog.LookupLeadingField` | src/omg-cli/omg/tiles/ert/configuration.go:167-215 | looking up a leading path, given by name, finds the serialised value of the field declared there |
| `PropertyCatalog.BuildCredentialValues` | src/omg-cli/omg/tiles/ert/configuration.go:191-212 | every role's username field holds the SQL username and its password field holds the SQL password as a secret |
| `PropertyCatalog.CredentialMembersAt` | src/omg-cli/omg/tiles/ert/configuration.go:191-212 | the document members of the j-th role read `{"value": user}` and `{"value": {"secret": password}}` |
| `PropertyCatalog.CredentialFanOut` | src/omg-cli/omg/tiles/ert/configuration.go:191-212 | the same, for all 11 roles |
| `PropertyCatalog.UaaCredentials` | src/omg-cli/omg/tiles/ert/configuration.go:185-186 | UAA's database username and password are the same SQL credential |
| `PropertyCatalog.CertificatesCarried` | src/omg-cli/omg/tiles/ert/configuration.go:174-180 | both certificate properties carry the configured certificate under "cert_pem" and key under "private_key_pem", and read back as that pair |
| `PropertyCatalog.RoutingDefaults` | src/omg-cli/omg/tiles/ert/configuration.go:170-175 | point of entry "external_non_ssl", TCP routing "enable", skip_cert_verify true, forward TLS "disable", for every configuration |
| `PropertyCatalog.CipherDefaults` | src/omg-cli/omg/tiles/ert/configuration.go:177-178 | the two cipher suites are the fixed strings |
| `PropertyCatalog.PlatformDefaults` | src/omg-cli/omg/tiles/ert/configuration.go:171-214 | DNS "8.8.8.8,8.8.4.4", acknowledgement "X", both database choices "external", monitor e-mail "admin@example.org", for every configuration |
| `PropertyCatalog.UserValuesCarried` | src/omg-cli/omg/tiles/ert/configuration.go:168-190 | domains, TCP port range and the SQL host and port (for both databases) reach the document unchanged |
| `ResourceCatalog.SerializeResource` | src/omg-cli/omg/tiles/ert/configuration.go:149-153 | "elb_names" is present iff the list is non-empty, "instances" iff the count is non-zero, and "internet_connected" is always the last member |
| `ResourceCatalog.DecodeResource` | src/omg-cli/omg/tiles/ert/configuration.go:149-153 | an object it accepts ends with "internet_connected", carrying the flag it reads back; `DecodeResourceCanonical` and `ResourceRoundTrip` make it the exact inverse |
| `ResourceCatalog.DecodeStringsRoundTrip` | src/omg-cli/omg/tiles/ert/configuration.go:150 | a list of names reads back from its JSON array |
| `ResourceCatalog.DecodeStringsCanonical` | src/omg-cli/omg/tiles/ert/configuration.go:150 | an array that reads back as names is the array of those names |
| `ResourceCatalog.ResourceRoundTrip` | src/omg-cli/omg/tiles/ert/configuration.go:149-153 | a serialised Resource reads back as itself; omitted fields read as their zero values |
| `ResourceCatalog.DecodeResourceCanonical` | src/omg-cli/omg/tiles/ert/configuration.go:149-153 | every object that reads back as a Resource is that Resource's serialisation |
| `ResourceCatalog.Build` | src/omg-cli/omg/tiles/ert/configuration.go:222-236 | no job is internet connected, and every job after the first three is the zero Resource. The three bound jobs are fixed by `TcpRouterBinding`, `RouterBinding` and `DiegoBrainBinding` |
| `ResourceCatalog.ResourceValues` | src/omg-cli/omg/tiles/ert/configuration.go:114-147 | one Resource per job name |
| `ResourceCatalog.Document` | src/omg-cli/omg/tiles/ert/configuration.go:114-147 | the marshalled resources object has exactly the 32 job names as keys, in declaration order |
| `ResourceCatalog.DecodeAll` | src/omg-cli/omg/tiles/ert/configuration.go:237-240 | a decoded list has one Resource per JSON element |
| `ResourceCatalog.DecodeDocument` | src/omg-cli/omg/tiles/ert/configuration.go:237-240 | a document it accepts is an object keyed by exactly the 32 job names, and it yields one Resource per job |
| `ResourceCatalog.DecodeAllSerializeAll` | src/omg-cli/omg/tiles/ert/configuration.go:237-240 | a serialised job list reads back as that list |
| `ResourceCatalog.DecodeAllCanonical` | src/omg-cli/omg/tiles/ert/configuration.go:237-240 | a JSON list that reads back is the serialisation of what it reads back to |
| `ResourceCatalog.DocumentRoundTrip` | src/omg-cli/omg/tiles/ert/configuration.go:237-240 | the resources document reads back as the 32 jobs in order |
| `ResourceCatalog.DecodeDocumentCanonical` | src/omg-cli/omg/tiles/ert/configuration.go:237-240 | a document that reads back has 32 members and is the document of those jobs |
| `ResourceCatalog.ServiceNamesDistinct` | src/omg-cli/omg/tiles/ert/configuration.go:114-147 | there are 32 job names and no two are equal |
| `ResourceCatalog.AbsentService` | src/omg-cli/omg/tiles/ert/configuration.go:114-147 | a name that is not one of the 32 job names is absent from the document |
| `ResourceCatalog.LookupService` | src/omg-cli/omg/tiles/ert/configuration.go:222-240 | looking up the k-th job name finds the k-th job's serialisation |
| `ResourceCatalog.LookupNamedService` | src/omg-cli/omg/tiles/ert/configuration.go:222-240 | the same, for a job given by name |
| `ResourceCatalog.TcpRouterBinding` | src/omg-cli/omg/tiles/ert/configuration.go:223-227 | tcp_router reads `{"elb_names": ["tcp:" + TCP pool], "instances": 3, "internet_connected": false}` |
| `ResourceCatalog.RouterBinding` | src/omg-cli/omg/tiles/ert/configuration.go:228-231 | router reads `{"elb_names": ["tcp:" + WebSocket pool, "http:" + HTTP backend], "internet_connected": false}`, with no instances key |
| `ResourceCatalog.DiegoBrainBinding` | src/omg-cli/omg/tiles/ert/configuration.go:232-235 | diego_brain reads `{"elb_names": ["tcp:" + SSH pool], "internet_connected": false}`, with no instances key |
| `ResourceCatalog.UnboundJobs` | src/omg-cli/omg/tiles/ert/configuration.go:222-236 | each of the other 29 jobs reads exactly `{"internet_connected": false}` |
| `ErtTile.ConfigureCount` | src/omg-cli/omg/tiles/ert/configuration.go:242 | counts configure calls in a trace; zero exactly when the trace has none |
| `ErtTile.Sdk.StageProduct` | src/omg-cli/omg/tiles/ert/configuration.go:156 | the call is appended to the trace with the product and the outcome it returns |
| `ErtTile.Sdk.ConfigureProduct` | src/omg-cli/omg/tiles/ert/configuration.go:242 | the call is appended to the trace with its four arguments and the outcome it returns |
| `ErtTile.PropertiesDocument` | src/omg-cli/omg/tiles/ert/configuration.go:167-220 | the submitted properties document is keyed by the 44 declared paths |
| `ErtTile.ResourcesDocument` | src/omg-cli/omg/tiles/ert/configuration.go:222-240 | the submitted resources document is keyed by the 32 job names |
| `ErtTile.Configure` | src/omg-cli/omg/tiles/ert/configuration.go:155-243 | earlier calls are kept and the product is staged first. A stage failure is returned unchanged with nothing called after it. Otherwise one configure call follows, last, with (product name, network, properties, resources), and its outcome is returned. The new calls hold one configure call iff staging succeeded |

## Left out

- Rendering JSON trees as text (key escaping, number formatting). The documents are JSON trees, and the configure call receives trees instead of strings.
- The network document. It is built by `tiles.NetworkConfig` from the ERT subnet and the configuration, which is not part of this model. `Configure` takes it as a parameter and forwards it unchanged.
- The marshal error branches at lines 162-165, 217-220 and 237-240. `json.Marshal` cannot fail on these structs, so the model treats marshalling as total and has no such branch.
- Loading the configuration file. `Config` is a record holding only the fields the tile reads.
- The Ops Manager client's HTTP calls. Each call reports an arbitrary success or failure; the model says nothing about when a remote call fails.
- The product metadata `tile.Product`, which is declared elsewhere in the package. It is a parameter of `Configure`, modelled as a name and a version. The whole record is passed to the stage call and recorded in its trace entry. Only the name is passed to the configure call.
- Go's `int` width. Ports, instance counts and integer values are unbounded integers. The tile does no arithmetic on them: it copies the configured SQL port and the constant 3 into the payload. So a width limit could only change the values the caller supplies, never what the tile does with them.
- `fmt.Sprintf("tcp:%s", …)` and `fmt.Sprintf("http:%s", …)` are modelled as string concatenation.
- The credential paths are not proved equal to the literal tags in the Go struct. They are defined as prefix + role + suffix over the role table; each one reads the same as the tag it stands for. Comparing one such path with its 60-odd-character literal takes close to the solver budget of a single proof, so the 22 comparisons are not stated.
