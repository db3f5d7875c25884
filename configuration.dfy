/** The submission workflow of the Elastic Runtime tile: stage the product,
    then send the network, properties and resources documents in one
    configure call, stopping at the first error. */
module ErtTile {
  import opened Json
  import opened UserConfig
  import PropertyCatalog
  import ResourceCatalog

  /** The product metadata of the tile. Only its name reaches the configure
      call; the whole record is handed to the stage call. */
  datatype Product = Product(name: string, version: string)

  /** A Go `error`: nil, or an error carrying its message. */
  datatype Outcome = Success | Failure(message: string)

  /** One call made on the Ops Manager client, with the outcome it reported. */
  datatype Call =
    | StageProductCall(product: Product, outcome: Outcome)
    | ConfigureProductCall(name: string, network: Json, properties: Json, resources: Json, outcome: Outcome)

  /** How many configure calls a trace holds. */
  function ConfigureCount(calls: seq<Call>): (n: nat)
    ensures n <= |calls|
    ensures n == 0 <==> forall i :: 0 <= i < |calls| ==> !calls[i].ConfigureProductCall?
  {
    if calls == [] then 0
    else (if calls[0].ConfigureProductCall? then 1 else 0) + ConfigureCount(calls[1..])
  }

  /** The Ops Manager client. Its calls go over the network and may fail for
      reasons outside this model, so each reports an arbitrary outcome; the
      ghost trace records every call in order with what it reported. */
  class Sdk {
    ghost var calls: seq<Call>

    constructor ()
      ensures calls == []
    {
      calls := [];
    }

    method StageProduct(product: Product) returns (err: Outcome)
      modifies this
      ensures calls == old(calls) + [StageProductCall(product, err)]
    {
      err := *;
      calls := calls + [StageProductCall(product, err)];
    }

    method ConfigureProduct(name: string, network: Json, properties: Json, resources: Json) returns (err: Outcome)
      modifies this
      ensures calls == old(calls) + [ConfigureProductCall(name, network, properties, resources, err)]
    {
      err := *;
      calls := calls + [ConfigureProductCall(name, network, properties, resources, err)];
    }
  }

  /** The properties document the tile submits for `cfg`. */
  function PropertiesDocument(cfg: Config): (doc: Json)
    ensures doc.JObject? && Keys(doc.fields) == PropertyCatalog.Paths()
  {
    PropertyCatalog.Document(PropertyCatalog.Build(cfg))
  }

  /** The resources document the tile submits for `cfg`. */
  function ResourcesDocument(cfg: Config): (doc: Json)
    ensures doc.JObject? && Keys(doc.fields) == ResourceCatalog.ServiceNames
  {
    ResourceCatalog.Document(ResourceCatalog.Build(cfg))
  }

  /** Configures the tile. The network document, derived from the ERT subnet
      elsewhere, is forwarded unchanged. A failed stage call is returned as
      is and nothing else is called; otherwise exactly one configure call
      follows, with the product's name and the three documents, and its
      outcome is the result. */
  method Configure(product: Product, cfg: Config, network: Json, om: Sdk) returns (err: Outcome)
    modifies om
    ensures var n := |old(om.calls)|;
            && |om.calls| > n
            && om.calls[..n] == old(om.calls)
            && om.calls[n] == StageProductCall(product, om.calls[n].outcome)
    ensures var n := |old(om.calls)|; var staged := om.calls[n].outcome;
            staged.Failure? ==> err == staged && om.calls == old(om.calls) + [om.calls[n]]
    ensures var n := |old(om.calls)|; var staged := om.calls[n].outcome;
            staged.Success? ==>
              om.calls == old(om.calls) + [om.calls[n],
                ConfigureProductCall(product.name, network, PropertiesDocument(cfg), ResourcesDocument(cfg), err)]
    ensures ConfigureCount(om.calls[|old(om.calls)|..]) == (if om.calls[|old(om.calls)|].outcome.Success? then 1 else 0)
  {
    ghost var before := om.calls;
    var staged := om.StageProduct(product);
    if staged.Failure? {
      assert om.calls[|before|..] == [StageProductCall(product, staged)];
      return staged;
    }
    var properties := PropertiesDocument(cfg);
    var resources := ResourcesDocument(cfg);
    err := om.ConfigureProduct(product.name, network, properties, resources);
    assert om.calls[|before|..] == [StageProductCall(product, staged),
      ConfigureProductCall(product.name, network, properties, resources, err)];
  }
}
