/** The add-asset dialog (components/ProfilePage/AddAssetModal.tsx): the
    repository picker with its search, the three steps, and linking the chosen
    asset to the user's profile. */
module AddAsset {
  import opened Wrappers
  import opened Text
  import opened Seqs
  import opened AssetTypes

  /** An asset matches the picker's search when the lower-cased query occurs
      in the lower-cased display name, manufacturer, model number or
      category. */
  predicate MatchesQuery(a: Asset, query: string) {
    var q := Lower(query);
    Includes(Lower(a.coreIdentity.displayName), q)
    || Includes(Lower(a.coreIdentity.manufacturer), q)
    || Includes(Lower(a.coreIdentity.modelNumber), q)
    || Includes(Lower(a.coreIdentity.assetCategory), q)
  }

  /** The picker's `filteredAssets`: the matching assets of the repository,
      in repository order. */
  function PickerResults(assets: seq<Asset>, query: string): (r: seq<Asset>)
    ensures IsSubsequence(r, assets) && |r| <= |assets|
    ensures forall a :: a in r <==> a in assets && MatchesQuery(a, query)
    ensures forall a :: multiset(r)[a] == if MatchesQuery(a, query) then multiset(assets)[a] else 0
  {
    Filter(assets, a => MatchesQuery(a, query))
  }

  /** An empty search shows the whole repository. */
  lemma EmptyQueryShowsAll(assets: seq<Asset>)
    ensures PickerResults(assets, "") == assets
  {
    forall a | a in assets ensures MatchesQuery(a, "") {
      IncludesEmpty(Lower(a.coreIdentity.displayName));
    }
    FilterKeepsAll(assets, a => MatchesQuery(a, ""));
  }

  /** The search ignores the case of the query's ASCII letters. */
  lemma SearchIgnoresCase(assets: seq<Asset>, query: string)
    ensures PickerResults(assets, Lower(query)) == PickerResults(assets, query)
  {
    LowerIdempotent(query);
    FilterCongruent(assets, a => MatchesQuery(a, Lower(query)), a => MatchesQuery(a, query));
  }

  /** `arrayUnion(id)` on the profile's `myAssets`: the id is added once, at
      the end, unless it is already there. */
  function ArrayUnion(ids: seq<string>, id: string): (r: seq<string>)
    ensures id in r
    ensures forall x :: x in r <==> x in ids || x == id
    ensures NoDuplicates(ids) ==> NoDuplicates(r)
    ensures |ids| <= |r| <= |ids| + 1 && r[..|ids|] == ids
  {
    if id in ids then ids else ids + [id]
  }

  /** Linking an asset that is already linked changes nothing. */
  lemma ArrayUnionIdempotent(ids: seq<string>, id: string)
    ensures ArrayUnion(ArrayUnion(ids, id), id) == ArrayUnion(ids, id)
  {
  }

  /** The three tabs of the dialog. */
  datatype Step = Upload | Select | Manual

  /** What the dialog does beyond its own state, in order: the profile update
      it requests, the parent's `onAssetAdded` and `onClose` callbacks, and
      the alert. */
  datatype Effect = LinkRequested(uid: string, assetId: string) | AssetAddedCallback | CloseCallback | Alert(message: string)

  const AddFailedAlert := "Failed to add asset. Please try again."

  class AddAssetModal {
    var currentStep: Step
    var allAssets: seq<Asset>
    var selectedAssetId: string
    var isLoading: bool
    var searchQuery: string
    var isDragging: bool
    var effects: seq<Effect>

    constructor()
      ensures currentStep == Select && allAssets == [] && selectedAssetId == ""
      ensures !isLoading && searchQuery == "" && !isDragging && effects == []
    {
      currentStep := Select;
      allAssets := [];
      selectedAssetId := "";
      isLoading := false;
      searchQuery := "";
      isDragging := false;
      effects := [];
    }

    /** The assets the picker lists. */
    function Shown(): seq<Asset>
      reads this
    {
      PickerResults(allAssets, searchQuery)
    }

    /** The "Add to My Assets" button is disabled without a selection or
        while a request is in flight. */
    function AddDisabled(): (disabled: bool)
      reads this
      ensures !disabled ==> selectedAssetId != "" && !isLoading
      ensures selectedAssetId == "" || isLoading ==> disabled
    {
      selectedAssetId == "" || isLoading
    }

    /** `fetchAssets`: the whole repository, each document turned into an
        asset; a failed read keeps the old list. Loading ends either way. */
    method FetchAssets(snapshot: Result<seq<AssetDoc>>)
      modifies this`allAssets, this`isLoading
      ensures snapshot.Success? ==> allAssets == DocsToAssets(snapshot.value)
      ensures snapshot.Failure? ==> allAssets == old(allAssets)
      ensures !isLoading
    {
      isLoading := true;
      if snapshot.Success? {
        allAssets := DocsToAssets(snapshot.value);
      }
      isLoading := false;
    }

    method SetSearchQuery(q: string)
      modifies this`searchQuery
      ensures searchQuery == q
      ensures Shown() == PickerResults(allAssets, q)
    {
      searchQuery := q;
    }

    /** Clicking a tile selects its asset, which enables the add button
        unless a request is in flight. */
    method SelectAsset(id: string)
      modifies this`selectedAssetId
      ensures selectedAssetId == id
      ensures AddDisabled() <==> id == "" || isLoading
    {
      selectedAssetId := id;
    }

    method SetStep(step: Step)
      modifies this`currentStep
      ensures currentStep == step
    {
      currentStep := step;
    }

    method DragOver()
      modifies this`isDragging
      ensures isDragging
    {
      isDragging := true;
    }

    method DragLeave()
      modifies this`isDragging
      ensures !isDragging
    {
      isDragging := false;
    }

    /** `handleFileDrop`: the file itself is not read; the dialog leaves the
        drag highlight and moves to manual entry. */
    method HandleFileDrop()
      modifies this`isDragging, this`currentStep
      ensures !isDragging && currentStep == Manual
    {
      isDragging := false;
      currentStep := Manual;
    }

    /** `handleAddAsset`. Without a selection or a user nothing happens.
        Otherwise the profile update is requested; on success the parent is
        told (when it listens), the selection and the search are cleared and
        the dialog asks to be closed; on failure the selection and search are
        kept and the alert is shown. Loading ends in both cases. */
    method HandleAddAsset(user: Option<string>, write: Outcome, hasOnAssetAdded: bool)
      modifies this`isLoading, this`selectedAssetId, this`searchQuery, this`effects
      ensures old(selectedAssetId) == "" || user.None? ==>
        selectedAssetId == old(selectedAssetId) && isLoading == old(isLoading) &&
        searchQuery == old(searchQuery) && effects == old(effects)
      ensures old(selectedAssetId) != "" && user.Some? ==>
        !isLoading && |effects| > |old(effects)| && effects[|old(effects)|] == LinkRequested(user.value, old(selectedAssetId))
      ensures old(selectedAssetId) != "" && user.Some? && write.Pass? ==>
        selectedAssetId == "" && searchQuery == "" &&
        effects == old(effects) + [LinkRequested(user.value, old(selectedAssetId))]
                   + (if hasOnAssetAdded then [AssetAddedCallback] else []) + [CloseCallback]
      ensures old(selectedAssetId) != "" && user.Some? && write.Fail? ==>
        selectedAssetId == old(selectedAssetId) && searchQuery == old(searchQuery) &&
        effects == old(effects) + [LinkRequested(user.value, old(selectedAssetId)), Alert(AddFailedAlert)]
    {
      if selectedAssetId == "" || user.None? {
        return;
      }
      isLoading := true;
      effects := effects + [LinkRequested(user.value, selectedAssetId)];
      if write.Pass? {
        if hasOnAssetAdded {
          effects := effects + [AssetAddedCallback];
        }
        selectedAssetId := "";
        searchQuery := "";
        effects := effects + [CloseCallback];
      } else {
        effects := effects + [Alert(AddFailedAlert)];
      }
      isLoading := false;
    }
  }
}
