/** The asset record of the shop floor (types/asset.ts). The category and the
    health status are declared there as unions of string literals, but they are
    read from stored documents that nothing validates, so they are strings here. */
module AssetTypes {
  import opened Wrappers

  datatype CoreIdentity = CoreIdentity(
    displayName: string,
    manufacturer: string,
    modelNumber: string,
    serialNumber: string,
    assetCategory: string,   // declared 'manipulator' | 'end_effector' | 'cnc'
    imageUrl: string)

  datatype OperationalStatus = OperationalStatus(
    isAvailable: bool,
    healthStatus: string,    // declared 'online' | 'warning' | 'error'
    locationArea: string)

  /** Numbers are kept as integers; the cards never compute with them. */
  datatype TechnicalSpecs = TechnicalSpecs(
    payloadCapacityKg: int,
    reachRadiusMm: int,
    supportedProtocols: seq<string>)

  datatype CurrentConfiguration = CurrentConfiguration(mountedToolId: Option<string>)

  datatype Asset = Asset(
    assetId: string,
    ownerId: string,
    coreIdentity: CoreIdentity,
    operationalStatus: OperationalStatus,
    technicalSpecs: TechnicalSpecs,
    currentConfiguration: CurrentConfiguration)

  /** The three categories types/asset.ts declares. */
  predicate IsDeclaredCategory(c: string) {
    c == "manipulator" || c == "end_effector" || c == "cnc"
  }

  /** A stored asset document: its key, the `asset_id` field it may itself
      carry, and the rest of its fields. */
  datatype AssetDoc = AssetDoc(id: string, storedAssetId: Option<string>, body: Asset)

  /** `{ asset_id: doc.id, ...doc.data() }`: the spread comes second, so a
      stored `asset_id` field wins over the document key. */
  function DocToAsset(d: AssetDoc): (a: Asset)
    ensures d.storedAssetId.None? ==> a.assetId == d.id
    ensures d.storedAssetId.Some? ==> a.assetId == d.storedAssetId.value
    ensures a.(assetId := d.body.assetId) == d.body
  {
    d.body.(assetId := d.storedAssetId.GetOr(d.id))
  }

  /** `docs.map(doc => ({ asset_id: doc.id, ...doc.data() }))`. */
  function DocsToAssets(docs: seq<AssetDoc>): (r: seq<Asset>)
    ensures |r| == |docs|
    ensures forall i :: 0 <= i < |docs| ==> r[i] == DocToAsset(docs[i])
  {
    seq(|docs|, i requires 0 <= i < |docs| => DocToAsset(docs[i]))
  }

  /** The converted list holds exactly the conversions of the documents. */
  lemma DocsToAssetsMembers(docs: seq<AssetDoc>)
    ensures forall a :: a in DocsToAssets(docs) <==> exists d :: d in docs && DocToAsset(d) == a
  {
    var r := DocsToAssets(docs);
    forall a ensures a in r <==> exists d :: d in docs && DocToAsset(d) == a {
      if a in r {
        var i :| 0 <= i < |r| && r[i] == a;
        assert docs[i] in docs;
      }
      if exists d :: d in docs && DocToAsset(d) == a {
        var d :| d in docs && DocToAsset(d) == a;
        var i :| 0 <= i < |docs| && docs[i] == d;
        assert r[i] == a;
      }
    }
  }
}
