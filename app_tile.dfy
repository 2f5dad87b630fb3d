/** The connected app tile (components/AppInfoConnected/AppTileConnected.tsx):
    one app document fetched by id, shown as a loading skeleton, an error
    card, or the app's name, description, five rating stars and review
    count. */
module AppTiles {
  import opened Wrappers

  /** A star of the rating row: the blue filled glyph or the grey empty one.
      The loop's "half" branch emits the same glyph as its "full" branch, so
      two kinds are all there is to show. */
  datatype Star = Filled | Empty

  /** The star row as a value: star `i` (1 to 5) is filled exactly when the
      rating reaches `i - 0.5`. */
  function StarRow(rating: real): (r: seq<Star>)
    ensures |r| == 5
  {
    seq(5, j requires 0 <= j < 5 => if rating >= (j + 1) as real - 0.5 then Filled else Empty)
  }

  function FilledCount(stars: seq<Star>): nat {
    if stars == [] then 0
    else (if stars[0] == Filled then 1 else 0) + FilledCount(stars[1..])
  }

  function Clamp(n: int, lo: int, hi: int): int
    requires lo <= hi
  {
    if n < lo then lo else if n > hi then hi else n
  }

  /** A row whose filled stars are exactly its first `k` has `k` filled stars. */
  lemma {:induction false} PrefixCount(stars: seq<Star>, k: nat)
    requires k <= |stars|
    requires forall j :: 0 <= j < |stars| ==> (stars[j] == Filled <==> j < k)
    ensures FilledCount(stars) == k
    decreases |stars|
  {
    if stars != [] {
      if k > 0 {
        PrefixCount(stars[1..], k - 1);
      } else {
        PrefixCount(stars[1..], 0);
      }
    }
  }

  /** The number of filled stars is the rating rounded half up, kept within
      0 to 5. */
  lemma StarCountIsRounded(rating: real)
    ensures FilledCount(StarRow(rating)) == Clamp((rating + 0.5).Floor, 0, 5)
  {
    var row := StarRow(rating);
    var k := Clamp((rating + 0.5).Floor, 0, 5);
    forall j | 0 <= j < 5 ensures row[j] == Filled <==> j < k {
      assert row[j] == Filled <==> (j + 1) as real <= rating + 0.5;
    }
    PrefixCount(row, k);
  }

  /** Between none and all five stars are filled. */
  lemma StarCountBounds(rating: real)
    ensures 0 <= FilledCount(StarRow(rating)) <= 5
  {
    StarCountIsRounded(rating);
  }

  /** A higher rating never fills fewer stars. */
  lemma StarCountMonotone(r1: real, r2: real)
    requires r1 <= r2
    ensures FilledCount(StarRow(r1)) <= FilledCount(StarRow(r2))
  {
    StarCountIsRounded(r1);
    StarCountIsRounded(r2);
    assert (r1 + 0.5).Floor <= (r2 + 0.5).Floor;
  }

  /** `rating || 0`: a missing rating counts as zero. */
  function RatingOrZero(rating: Option<real>): real {
    rating.GetOr(0.0)
  }

  /** A missing or zero rating shows five empty stars. */
  lemma NoRatingNoStars(rating: Option<real>)
    requires rating.None? || rating.value == 0.0
    ensures StarRow(RatingOrZero(rating)) == [Empty, Empty, Empty, Empty, Empty]
    ensures FilledCount(StarRow(RatingOrZero(rating))) == 0
  {
    StarCountIsRounded(RatingOrZero(rating));
  }

  /** `renderStars`: the five-step loop with its three branches. */
  method RenderStars(rating: Option<real>) returns (stars: seq<Star>)
    ensures |stars| == 5
    ensures forall j :: 0 <= j < 5 ==> (stars[j] == Filled <==> RatingOrZero(rating) >= (j + 1) as real - 0.5)
    ensures stars == StarRow(RatingOrZero(rating))
  {
    var actualRating := RatingOrZero(rating);
    stars := [];
    for i := 1 to 6
      invariant |stars| == i - 1
      invariant forall j :: 0 <= j < i - 1 ==> stars[j] == StarRow(actualRating)[j]
    {
      if actualRating >= i as real {
        stars := stars + [Filled];
      } else if actualRating >= i as real - 0.5 {
        stars := stars + [Filled];
      } else {
        stars := stars + [Empty];
      }
    }
  }

  /** The fields of an app document the tile reads. A missing name is the
      empty string. */
  datatype AppData = AppData(appName: string, description: Option<string>, averageRating: Option<real>, reviewCount: Option<int>)

  /** What the document read gave: the data, no such document, or an error. */
  datatype FetchOutcome = Found(data: AppData) | Missing | Threw(message: string)

  const NotFoundError := "App not found"
  const LoadError := "Error loading app"
  const NoDescription := "No description available"

  /** What the tile shows. */
  datatype TileView =
    | LoadingSkeleton
    | ErrorCard(text: string)
    | Content(name: string, description: string, stars: seq<Star>, reviewCount: int)

  /** `Description || 'No description available'`: an absent or empty
      description is replaced. */
  function DescriptionText(d: Option<string>): (s: string)
    ensures s == NoDescription <==> d.None? || d.value == "" || d.value == NoDescription
    ensures d.Some? && d.value != "" ==> s == d.value
  {
    if d.None? || d.value == "" then NoDescription else d.value
  }

  /** `ReviewCount || 0`. */
  function ReviewCountOrZero(c: Option<int>): int {
    c.GetOr(0)
  }

  /** The tile's render: loading first, then an error (any non-empty
      message), then the content, which always has a description and five
      stars and, once data is there, shows its name and rating. */
  function View(loading: bool, error: Option<string>, appData: Option<AppData>): (v: TileView)
    ensures loading ==> v == LoadingSkeleton
    ensures !loading && error.Some? && error.value != "" ==> v == ErrorCard(LoadError)
    ensures v.Content? <==> !loading && (error.None? || error.value == "")
    ensures v.Content? ==> |v.stars| == 5 && v.description != ""
    ensures v.Content? && appData.Some? ==>
      && v.name == appData.value.appName
      && v.description == DescriptionText(appData.value.description)
      && v.stars == StarRow(RatingOrZero(appData.value.averageRating))
      && v.reviewCount == ReviewCountOrZero(appData.value.reviewCount)
    ensures v.Content? && appData.None? ==> v == Content("", NoDescription, StarRow(0.0), 0)
  {
    if loading then LoadingSkeleton
    else if error.Some? && error.value != "" then ErrorCard(LoadError)
    else match appData
      case None => Content("", NoDescription, StarRow(0.0), 0)
      case Some(d) => Content(d.appName, DescriptionText(d.description), StarRow(RatingOrZero(d.averageRating)),
                              ReviewCountOrZero(d.reviewCount))
  }

  /** While loading, nothing else is shown, whatever else the state holds. */
  lemma LoadingComesFirst(error: Option<string>, appData: Option<AppData>)
    ensures View(true, error, appData) == LoadingSkeleton
  {
  }

  /** Both error kinds show the same card, and an error hides any data. */
  lemma ErrorsLookAlike(d1: Option<AppData>, d2: Option<AppData>)
    ensures View(false, Some(NotFoundError), d1) == View(false, Some(LoadError), d2) == ErrorCard(LoadError)
  {
  }

  class AppTile {
    var appData: Option<AppData>
    var loading: bool
    var error: Option<string>

    constructor()
      ensures appData.None? && loading && error.None?
      ensures Render() == LoadingSkeleton
    {
      appData := None;
      loading := true;
      error := None;
    }

    function Render(): TileView
      reads this
    {
      View(loading, error, appData)
    }

    /** The fetch effect's outcome: the data is stored, or the error text
        for a missing document or a failed read is set; loading ends in
        every case. From the initial state a found document shows its
        content and both failures show the error card. */
    method CompleteFetch(outcome: FetchOutcome)
      modifies this`appData, this`loading, this`error
      ensures !loading
      ensures outcome.Found? ==> appData == Some(outcome.data) && error == old(error)
      ensures outcome.Missing? ==> error == Some(NotFoundError) && appData == old(appData)
      ensures outcome.Threw? ==> error == Some(LoadError) && appData == old(appData)
      ensures !outcome.Found? ==> Render() == ErrorCard(LoadError)
      ensures outcome.Found? && old(error).None? ==>
        Render() == Content(outcome.data.appName, DescriptionText(outcome.data.description),
                            StarRow(RatingOrZero(outcome.data.averageRating)),
                            ReviewCountOrZero(outcome.data.reviewCount))
    {
      match outcome {
        case Found(d) => appData := Some(d);
        case Missing => error := Some(NotFoundError);
        case Threw(_) => error := Some(LoadError);
      }
      loading := false;
    }
  }
}
