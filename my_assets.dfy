/** The owned-asset page (app/my-assets/page.tsx): loading the signed-in
    user's assets, the filter buttons, the summary counts, and the local update
    after an availability write. */
module MyAssets {
  import opened Wrappers
  import opened Seqs
  import opened AssetTypes

  /** The filter buttons of the page. */
  datatype FilterType = AllAssets | Manipulator | EndEffector | Cnc | PlcController | AvailableOnly {
    predicate IsCategory() {
      Manipulator? || EndEffector? || Cnc? || PlcController?
    }

    /** The string a category button compares `asset_category` with. */
    function Key(): string
      requires IsCategory()
    {
      match this
      case Manipulator => "manipulator"
      case EndEffector => "end_effector"
      case Cnc => "cnc"
      case PlcController => "plc_controller"
    }
  }

  predicate KeptBy(filter: FilterType, a: Asset) {
    if filter.IsCategory() then a.coreIdentity.assetCategory == filter.Key()
    else if filter.AvailableOnly? then a.operationalStatus.isAvailable
    else true
  }

  /** The `filteredAssets` switch. "all" shows the list itself; a category
      button keeps the assets of exactly that category; "available" keeps the
      available ones; in every case the order is kept. */
  function FilteredAssets(assets: seq<Asset>, filter: FilterType): (r: seq<Asset>)
    ensures IsSubsequence(r, assets)
    ensures filter.AllAssets? ==> r == assets
    ensures filter.IsCategory() ==>
      forall a :: a in r <==> a in assets && a.coreIdentity.assetCategory == filter.Key()
    ensures filter.AvailableOnly? ==>
      forall a :: a in r <==> a in assets && a.operationalStatus.isAvailable
    ensures forall a :: multiset(r)[a] == if KeptBy(filter, a) then multiset(assets)[a] else 0
  {
    if filter.AllAssets? then SubsequenceOfSelf(assets); assets
    else Filter(assets, a => KeptBy(filter, a))
  }

  /** No declared category is "plc_controller", so the Controllers button
      shows nothing for assets whose category is one of the declared three. */
  lemma ControllersShowNothing(assets: seq<Asset>)
    requires forall a :: a in assets ==> IsDeclaredCategory(a.coreIdentity.assetCategory)
    ensures FilteredAssets(assets, PlcController) == []
  {
    var r := FilteredAssets(assets, PlcController);
    forall a | a in assets ensures a.coreIdentity.assetCategory != PlcController.Key() {
      assert IsDeclaredCategory(a.coreIdentity.assetCategory);
      assert PlcController.Key() == "plc_controller";
    }
  }

  /** The four figures of the stats bar. */
  datatype Stats = Stats(total: nat, available: nat, inMaintenance: nat, healthIssues: nat)

  predicate IsAvailable(a: Asset) {
    a.operationalStatus.isAvailable
  }

  predicate InMaintenance(a: Asset) {
    !a.operationalStatus.isAvailable
  }

  predicate HasHealthIssue(a: Asset) {
    a.operationalStatus.healthStatus == "error"
  }

  /** Every asset is either available or in maintenance, so those two figures
      add up to the total; health issues count the assets whose status is
      "error", position by position. */
  function ComputeStats(assets: seq<Asset>): (s: Stats)
    ensures s.total == |assets|
    ensures s.available + s.inMaintenance == s.total
    ensures s.available == |FilteredAssets(assets, AvailableOnly)|
    ensures s.healthIssues <= s.total
    ensures s.healthIssues == 0 <==> forall a :: a in assets ==> !HasHealthIssue(a)
    ensures s.healthIssues == |Positions(assets, HasHealthIssue)|
  {
    FilterComplementCount(assets, IsAvailable, InMaintenance);
    FilterCongruent(assets, IsAvailable, a => KeptBy(AvailableOnly, a));
    var issues := Filter(assets, HasHealthIssue);
    FilterCountsPositions(assets, HasHealthIssue);
    assert issues != [] ==> issues[0] in issues;
    Stats(|assets|, |Filter(assets, IsAvailable)|, |Filter(assets, InMaintenance)|, |issues|)
  }

  function WithAvailability(a: Asset, v: bool): Asset {
    a.(operationalStatus := a.operationalStatus.(isAvailable := v))
  }

  /** The local update after a successful availability write: the asset
      whose id matches gets the new flag, and nothing else changes, neither
      the order, nor another asset, nor another field of the matching one. */
  function SetAvailability(assets: seq<Asset>, id: string, v: bool): (r: seq<Asset>)
    ensures |r| == |assets|
    ensures forall i :: 0 <= i < |r| ==>
      r[i].operationalStatus.isAvailable == (if assets[i].assetId == id then v else assets[i].operationalStatus.isAvailable)
    ensures forall i :: 0 <= i < |r| ==>
      r[i].(operationalStatus := r[i].operationalStatus.(isAvailable := assets[i].operationalStatus.isAvailable)) == assets[i]
  {
    seq(|assets|, i requires 0 <= i < |assets| =>
      if assets[i].assetId == id then WithAvailability(assets[i], v) else assets[i])
  }

  /** A second update of the same asset overrides the first. */
  lemma SetAvailabilityLastWins(assets: seq<Asset>, id: string, v: bool, w: bool)
    ensures SetAvailability(SetAvailability(assets, id, v), id, w) == SetAvailability(assets, id, w)
  {
    var once := SetAvailability(assets, id, v);
    var twice := SetAvailability(once, id, w);
    var direct := SetAvailability(assets, id, w);
    forall i | 0 <= i < |assets| ensures twice[i] == direct[i] {
      assert once[i].assetId == assets[i].assetId;
    }
  }

  /** Updates of two different assets commute. */
  lemma SetAvailabilityCommutes(assets: seq<Asset>, id1: string, v1: bool, id2: string, v2: bool)
    requires id1 != id2
    ensures SetAvailability(SetAvailability(assets, id1, v1), id2, v2)
         == SetAvailability(SetAvailability(assets, id2, v2), id1, v1)
  {
    var a := SetAvailability(SetAvailability(assets, id1, v1), id2, v2);
    var b := SetAvailability(SetAvailability(assets, id2, v2), id1, v1);
    forall i | 0 <= i < |assets| ensures a[i] == b[i] {
      assert SetAvailability(assets, id1, v1)[i].assetId == assets[i].assetId;
      assert SetAvailability(assets, id2, v2)[i].assetId == assets[i].assetId;
    }
  }

  /** An id that no listed asset carries leaves the list as it was. */
  lemma SetAvailabilityUnknownId(assets: seq<Asset>, id: string, v: bool)
    requires forall a :: a in assets ==> a.assetId != id
    ensures SetAvailability(assets, id, v) == assets
  {
    var r := SetAvailability(assets, id, v);
    forall i | 0 <= i < |assets| ensures r[i] == assets[i] {
      assert assets[i] in assets;
    }
  }

  /** A user profile document, as far as this page reads it. */
  datatype ProfileDoc = ProfileDoc(id: string, myAssets: Option<seq<string>>)

  /** The first profile document whose key is the user's id. */
  function FindProfile(docs: seq<ProfileDoc>, uid: string): (r: Option<ProfileDoc>)
    ensures r.None? <==> forall d :: d in docs ==> d.id != uid
    ensures r.Some? ==> r.value.id == uid
    ensures r.Some? ==> (exists k :: 0 <= k < |docs| && docs[k] == r.value &&
                           forall j :: 0 <= j < k ==> docs[j].id != uid)
  {
    if |docs| == 0 then None
    else if docs[0].id == uid then Some(docs[0])
    else
      var rest := FindProfile(docs[1..], uid);
      if rest.Some? then
        ghost var k :| 0 <= k < |docs[1..]| && docs[1..][k] == rest.value &&
                       forall j :: 0 <= j < k ==> docs[1..][j].id != uid;
        assert docs[k + 1] == rest.value;
        rest
      else
        assert forall d :: d in docs[1..] ==> d.id != uid;
        assert docs == [docs[0]] + docs[1..];
        rest
  }

  /** `profile?.myAssets || []`: the ids the user owns, or none when the
      profile or its list is missing. */
  function OwnedIds(docs: seq<ProfileDoc>, uid: string): (ids: seq<string>)
    ensures FindProfile(docs, uid).None? ==> ids == []
    ensures FindProfile(docs, uid).Some? && FindProfile(docs, uid).value.myAssets.Some? ==>
      ids == FindProfile(docs, uid).value.myAssets.value
    ensures FindProfile(docs, uid).Some? && FindProfile(docs, uid).value.myAssets.None? ==> ids == []
  {
    match FindProfile(docs, uid)
    case None => []
    case Some(p) => p.myAssets.GetOr([])
  }

  /** The asset documents whose key is one of the owned ids, in snapshot
      order, each as often as the snapshot holds it. */
  function OwnedDocs(docs: seq<AssetDoc>, ids: seq<string>): (r: seq<AssetDoc>)
    ensures IsSubsequence(r, docs) && |r| <= |docs|
    ensures forall d :: d in r <==> d in docs && d.id in ids
    ensures forall d :: multiset(r)[d] == if d.id in ids then multiset(docs)[d] else 0
  {
    Filter(docs, (d: AssetDoc) => d.id in ids)
  }

  /** The assets the page shows: the owned documents turned into assets. An
      owned id with no document contributes nothing. */
  function SelectUserAssets(docs: seq<AssetDoc>, ids: seq<string>): (r: seq<Asset>)
    ensures |r| <= |docs|
    ensures |r| == |OwnedDocs(docs, ids)|
    ensures forall i :: 0 <= i < |r| ==> r[i] == DocToAsset(OwnedDocs(docs, ids)[i])
    ensures ids == [] ==> r == []
    ensures forall a :: a in r <==> exists d :: d in docs && d.id in ids && DocToAsset(d) == a
  {
    var owned := OwnedDocs(docs, ids);
    DocsToAssetsMembers(owned);
    DocsToAssets(owned)
  }

  const ToggleFailedAlert := "Failed to update asset status. Please try again."

  /** The page's state. */
  class AssetRepositoryPage {
    var assets: seq<Asset>
    var activeFilter: FilterType
    var isLoading: bool

    constructor()
      ensures assets == [] && activeFilter == AllAssets && isLoading
    {
      assets := [];
      activeFilter := AllAssets;
      isLoading := true;
    }

    /** What the grid shows. */
    function Shown(): seq<Asset>
      reads this
    {
      FilteredAssets(assets, activeFilter)
    }

    /** What the stats bar shows. */
    function Summary(): Stats
      reads this
    {
      ComputeStats(assets)
    }

    method SetActiveFilter(f: FilterType)
      modifies this`activeFilter
      ensures activeFilter == f
      ensures Shown() == FilteredAssets(assets, f)
    {
      activeFilter := f;
    }

    /** `fetchUserAssets`. Without a user nothing happens. Otherwise the
        profile is read; when it lists no asset ids the list becomes empty
        without reading the assets; otherwise the asset snapshot is read and
        the owned ones are kept. A failed read keeps the old list. Loading
        ends in every case once a user is present. */
    method FetchUserAssets(user: Option<string>, profiles: Result<seq<ProfileDoc>>, assetDocs: Result<seq<AssetDoc>>)
      modifies this`assets, this`isLoading
      ensures user.None? ==> assets == old(assets) && isLoading == old(isLoading)
      ensures user.Some? ==> !isLoading
      ensures user.Some? && profiles.Failure? ==> assets == old(assets)
      ensures user.Some? && profiles.Success? && OwnedIds(profiles.value, user.value) == [] ==> assets == []
      ensures user.Some? && profiles.Success? && OwnedIds(profiles.value, user.value) != [] && assetDocs.Failure? ==>
        assets == old(assets)
      ensures user.Some? && profiles.Success? && OwnedIds(profiles.value, user.value) != [] && assetDocs.Success? ==>
        assets == SelectUserAssets(assetDocs.value, OwnedIds(profiles.value, user.value))
    {
      if user.None? {
        return;
      }
      if profiles.Success? {
        var ids := OwnedIds(profiles.value, user.value);
        if |ids| == 0 {
          assets := [];
        } else if assetDocs.Success? {
          assets := SelectUserAssets(assetDocs.value, ids);
        }
      }
      isLoading := false;
    }

    /** `handleToggleAvailability`: the write's outcome decides. On success
        the matching asset's flag is updated in the list; on failure the list
        is kept and the alert text is returned. */
    method HandleToggleAvailability(assetId: string, isAvailable: bool, write: Outcome) returns (alert: Option<string>)
      modifies this`assets
      ensures write.Pass? ==> assets == SetAvailability(old(assets), assetId, isAvailable) && alert.None?
      ensures write.Fail? ==> assets == old(assets) && alert == Some(ToggleFailedAlert)
    {
      if write.Pass? {
        assets := SetAvailability(assets, assetId, isAvailable);
        alert := None;
      } else {
        alert := Some(ToggleFailedAlert);
      }
    }
  }
}
