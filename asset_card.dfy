/** The asset card (components/ProfilePage/AssetCard.tsx): its own copy of
    the availability flag, the optimistic toggle, and the status dot. */
module AssetCards {
  import opened Wrappers
  import opened AssetTypes
  import opened MyAssets

  const OnlineDot := "bg-emerald-500"
  const WarningDot := "bg-amber-500"
  const ErrorDot := "bg-red-500"
  const UnknownDot := "bg-slate-400"

  /** The colour class of the health dot: one colour per known status and a
      neutral one for anything else. */
  function HealthStatusColor(status: string): (c: string)
    ensures c == OnlineDot <==> status == "online"
    ensures c == WarningDot <==> status == "warning"
    ensures c == ErrorDot <==> status == "error"
    ensures c == UnknownDot <==> status != "online" && status != "warning" && status != "error"
  {
    if status == "online" then OnlineDot
    else if status == "warning" then WarningDot
    else if status == "error" then ErrorDot
    else UnknownDot
  }

  /** The cards with a red dot are exactly the assets the stats bar counts as
      health issues. */
  lemma RedDotIsHealthIssue(a: Asset)
    ensures HealthStatusColor(a.operationalStatus.healthStatus) == ErrorDot <==> HasHealthIssue(a)
  {
  }

  /** The text beside the toggle. */
  function AvailabilityLabel(isAvailable: bool): (s: string)
    ensures s == "Available" <==> isAvailable
    ensures s == "Maintenance" <==> !isAvailable
  {
    if isAvailable then "Available" else "Maintenance"
  }

  class AssetCard {
    const asset: Asset
    var isAvailable: bool
    var isToggling: bool

    /** The card takes its flag from the asset once, when it is created, and
        keeps its own copy from then on. */
    constructor(asset: Asset)
      ensures this.asset == asset
      ensures isAvailable == asset.operationalStatus.isAvailable
      ensures !isToggling
    {
      this.asset := asset;
      isAvailable := asset.operationalStatus.isAvailable;
      isToggling := false;
    }

    /** The toggle button is disabled while a toggle is in flight. */
    function ToggleEnabled(): (enabled: bool)
      reads this
      ensures enabled <==> !isToggling
    {
      !isToggling
    }

    /** The first half of `handleToggle`: the card marks itself busy and
        flips its flag before anything is written; `newState` is the value
        it hands to the callback. */
    method BeginToggle() returns (newState: bool)
      requires ToggleEnabled()
      modifies this`isAvailable, this`isToggling
      ensures newState == !old(isAvailable)
      ensures isAvailable == newState
      ensures isToggling && !ToggleEnabled()
    {
      isToggling := true;
      newState := !isAvailable;
      isAvailable := newState;
    }

    /** The second half: the card is no longer busy, whatever the callback did. */
    method EndToggle()
      modifies this`isToggling
      ensures !isToggling && ToggleEnabled()
    {
      isToggling := false;
    }

    /** `handleToggle` with the page's `handleToggleAvailability` as its
        callback, or with no callback (`page == null`). The card's flag stays
        flipped even when the write fails: the page keeps its list and shows
        the alert, and nothing rolls the card back. */
    method HandleToggle(page: AssetRepositoryPage?, write: Outcome) returns (alert: Option<string>)
      requires ToggleEnabled()
      modifies this`isAvailable, this`isToggling, page
      ensures isAvailable == !old(isAvailable)
      ensures ToggleEnabled()
      ensures page == null ==> alert.None?
      ensures page != null && write.Pass? ==>
        page.assets == SetAvailability(old(page.assets), asset.assetId, isAvailable) && alert.None?
      ensures page != null && write.Fail? ==>
        page.assets == old(page.assets) && alert == Some(ToggleFailedAlert)
    ensures page != null ==>
      page.activeFilter == old(page.activeFilter) && page.isLoading == old(page.isLoading)
    {
      var newState := BeginToggle();
      alert := None;
      if page != null {
        alert := page.HandleToggleAvailability(asset.assetId, newState, write);
      }
      EndToggle();
    }

    /** Two completed toggles bring the card's flag back to where it was. */
    method ToggleTwice(page: AssetRepositoryPage?, first: Outcome, second: Outcome)
      requires ToggleEnabled()
      modifies this`isAvailable, this`isToggling, page
      ensures isAvailable == old(isAvailable)
      ensures ToggleEnabled()
      ensures page != null ==>
        page.activeFilter == old(page.activeFilter) && page.isLoading == old(page.isLoading)
      ensures page != null && first.Pass? && second.Pass? ==>
        page.assets == SetAvailability(old(page.assets), asset.assetId, old(isAvailable))
      ensures page != null && first.Pass? && second.Fail? ==>
        page.assets == SetAvailability(old(page.assets), asset.assetId, !old(isAvailable))
      ensures page != null && first.Fail? && second.Pass? ==>
        page.assets == SetAvailability(old(page.assets), asset.assetId, old(isAvailable))
      ensures page != null && first.Fail? && second.Fail? ==> page.assets == old(page.assets)
    {
      ghost var before := if page != null then page.assets else [];
      var _ := HandleToggle(page, first);
      var _ := HandleToggle(page, second);
      if page != null && first.Pass? && second.Pass? {
        SetAvailabilityLastWins(before, asset.assetId, !old(isAvailable), old(isAvailable));
      }
    }
  }

  /** After a failed write the card and the page disagree: the card shows the
      flipped flag while the page's list still holds the stored one. */
  method FailedToggleDiverges(a: Asset) returns (card: AssetCard, page: AssetRepositoryPage)
    ensures card.isAvailable != a.operationalStatus.isAvailable
    ensures page.assets == [a]
  {
    page := new AssetRepositoryPage();
    page.assets := [a];
    card := new AssetCard(a);
    var alert := card.HandleToggle(page, Fail("permission-denied"));
    assert alert == Some(ToggleFailedAlert);
  }
}
