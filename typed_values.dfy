/** The typed wrappers Value, IntegerValue, BooleanValue, SecretValue and
    CertificateValue of the Elastic Runtime tile, and the one JSON shape
    each of them marshals to. */
module TypedValues {
  import opened Json

  datatype Secret = Secret(value: string)

  datatype Certificate = Certificate(publicKey: string, privateKey: string)

  /** One property value. Each Go wrapper type is one variant. */
  datatype TypedValue =
    | Value(str: string)
    | IntegerValue(num: int)
    | BooleanValue(flag: bool)
    | SecretValue(sec: Secret)
    | CertificateValue(cert: Certificate)

  /** The wrapper type a property field is declared with, as a subset of
      TypedValue: a field of one of these types only ever holds that variant. */
  type PlainField = v: TypedValue | v.Value? witness Value("")
  type IntegerField = v: TypedValue | v.IntegerValue? witness IntegerValue(0)
  type BooleanField = v: TypedValue | v.BooleanValue? witness BooleanValue(false)
  type SecretField = v: TypedValue | v.SecretValue? witness SecretValue(Secret(""))
  type CertificateField = v: TypedValue | v.CertificateValue? witness CertificateValue(Certificate("", ""))

  /** `{"value": x}`: the single member every wrapper marshals to. */
  function Wrapped(x: Json): Json
  {
    JObject([("value", x)])
  }

  /** The JSON tree of a value, following the `json` tags of each wrapper.
      Plain, integer and boolean values sit directly under "value"; a secret
      sits one level deeper under "secret"; a certificate pair is an object
      with "cert_pem" before "private_key_pem". */
  function Serialize(v: TypedValue): (j: Json)
    ensures j.JObject? && Keys(j.fields) == ["value"]
    ensures v.Value? ==> j == Wrapped(JString(v.str))
    ensures v.IntegerValue? ==> j == Wrapped(JInt(v.num))
    ensures v.BooleanValue? ==> j == Wrapped(JBool(v.flag))
    ensures v.SecretValue? ==> j == Wrapped(JObject([("secret", JString(v.sec.value))]))
    ensures v.CertificateValue? ==>
              j == Wrapped(JObject([("cert_pem", JString(v.cert.publicKey)),
                                    ("private_key_pem", JString(v.cert.privateKey))]))
  {
    match v
    case Value(s) => Wrapped(JString(s))
    case IntegerValue(n) => Wrapped(JInt(n))
    case BooleanValue(b) => Wrapped(JBool(b))
    case SecretValue(Secret(s)) => Wrapped(JObject([("secret", JString(s))]))
    case CertificateValue(Certificate(c, k)) =>
      Wrapped(JObject([("cert_pem", JString(c)), ("private_key_pem", JString(k))]))
  }

  /** Reads a wrapper back from its JSON tree. Only the five shapes above
      are accepted; the variant is recovered from the shape alone. */
  function Decode(j: Json): (r: Option<TypedValue>)
    ensures r.Some? ==> Serialize(r.value) == j
  {
    match j
    case JObject(fs) =>
      if |fs| == 1 && fs[0].0 == "value" then
        match fs[0].1
        case JString(s) =>
          assert fs == [("value", JString(s))];
          Some(Value(s))
        case JInt(n) => Some(IntegerValue(n))
        case JBool(b) => Some(BooleanValue(b))
        case JObject(inner) =>
          if |inner| == 1 && inner[0].0 == "secret" && inner[0].1.JString? then
            assert inner == [("secret", JString(inner[0].1.s))];
            Some(SecretValue(Secret(inner[0].1.s)))
          else if |inner| == 2 && inner[0].0 == "cert_pem" && inner[0].1.JString?
                  && inner[1].0 == "private_key_pem" && inner[1].1.JString? then
            assert inner == [("cert_pem", JString(inner[0].1.s)),
                             ("private_key_pem", JString(inner[1].1.s))];
            Some(CertificateValue(Certificate(inner[0].1.s, inner[1].1.s)))
          else None
        case JArray(_) => None
      else None
    case _ => None
  }

  /** Decoding a serialised value gives the value back, variant included. */
  lemma RoundTrip(v: TypedValue)
    ensures Decode(Serialize(v)) == Some(v)
  {
  }

  /** Serialising is injective: two values with the same JSON tree are equal,
      so no two variants share a shape. */
  lemma SerializeInjective(v: TypedValue, w: TypedValue)
    requires Serialize(v) == Serialize(w)
    ensures v == w
  {
    RoundTrip(v);
    RoundTrip(w);
  }
}
