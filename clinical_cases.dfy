/**
 * The clinical-cases page: the gallery listing turned into case stories, a
 * single placeholder when the listing cannot be loaded, and at most five shown.
 */
module ClinicalCases {
  import opened Wrappers
  import Server
  import Listing
  import Decimal

  datatype CaseStory = CaseStory(id: string, title: string, patient: string, story: string, imageCombined: string)

  const DefaultTitle: string := "Cas clinique"
  const MaxShown: nat := 5

  /** One gallery item as a case: title, else caption, else the default title. */
  function CaseOf(item: Server.GalleryItem): (c: CaseStory)
    ensures c.id == item.publicId && c.imageCombined == item.secureUrl
    ensures c.patient == "" && c.story == OrEmpty(item.captionFr)
  {
    var title :=
      if OrEmpty(item.titleFr) != "" then OrEmpty(item.titleFr)
      else if OrEmpty(item.captionFr) != "" then OrEmpty(item.captionFr)
      else DefaultTitle;
    CaseStory(item.publicId, title, "", OrEmpty(item.captionFr), item.secureUrl)
  }

  /** The title falls back from title to caption to "Cas clinique", and is never empty. */
  lemma CaseTitleFallback(item: Server.GalleryItem)
    ensures OrEmpty(item.titleFr) != "" ==> CaseOf(item).title == item.titleFr.value
    ensures OrEmpty(item.titleFr) == "" && OrEmpty(item.captionFr) != "" ==>
      CaseOf(item).title == item.captionFr.value
    ensures OrEmpty(item.titleFr) == "" && OrEmpty(item.captionFr) == "" ==> CaseOf(item).title == DefaultTitle
    ensures CaseOf(item).title != ""
  {
  }

  /** The placeholder case, its picture under the site's base path. */
  function FallbackCase(base: string): CaseStory {
    CaseStory("fallback-1", "Exemple", "Patient anonyme", "Description du traitement.",
              base + "assets/cases/combined/case-01.svg")
  }

  /** The cases once the listing request settles; `None` is a failed request. */
  function LoadedCases(listing: Option<seq<Server.GalleryItem>>, base: string): (cases: seq<CaseStory>)
    ensures listing.None? ==> cases == [FallbackCase(base)]
    ensures listing.Some? ==>
      |cases| == |listing.value| && forall k :: 0 <= k < |cases| ==> cases[k] == CaseOf(listing.value[k])
  {
    match listing
    case None => [FallbackCase(base)]
    case Some(items) => seq(|items|, k requires 0 <= k < |items| => CaseOf(items[k]))
  }

  /** The cases on screen: none before the request settles, then the first five. */
  function ShownCases(data: Option<seq<CaseStory>>): (shown: seq<CaseStory>)
    ensures data.None? ==> shown == []
    ensures data.Some? ==> shown == data.value[..if |data.value| < MaxShown then |data.value| else MaxShown]
  {
    var cases := data.GetOr([]);
    cases[..if |cases| < MaxShown then |cases| else MaxShown]
  }

  /**
   * At most five cases are shown, the first ones in listing order, each case
   * carrying its item's id and image.
   */
  lemma ShownAreFirstFive(listing: seq<Server.GalleryItem>, base: string)
    ensures var shown := ShownCases(Some(LoadedCases(Some(listing), base)));
      |shown| <= MaxShown
      && |shown| == (if |listing| < MaxShown then |listing| else MaxShown)
      && forall k :: 0 <= k < |shown| ==>
           shown[k].id == listing[k].publicId && shown[k].imageCombined == listing[k].secureUrl
  {
  }

  /** A failed listing shows exactly the one placeholder. */
  lemma FailureShowsPlaceholder(base: string)
    ensures ShownCases(Some(LoadedCases(None, base))) == [FallbackCase(base)]
  {
  }

  /** Fed the server's listing, each shown case links to the image fetch route of its row. */
  lemma ShownCasesFromServer(images: Listing.Table<Server.ImageRow>, base: string, k: int)
    requires images.WellFormed()
    requires 0 <= k < |ShownCases(Some(LoadedCases(Some(Server.ListGallery(images).body.items), base)))|
    ensures var c := ShownCases(Some(LoadedCases(Some(Server.ListGallery(images).body.items), base)))[k];
      exists id :: id in images.rows && c.imageCombined == Server.ImageUrlPrefix + c.id
        && Decimal.ParseDecimal(c.id) == Some(id)
  {
    var items := Server.ListGallery(images).body.items;
    var id := Server.ItemId(items[k]);
    assert id in images.rows;
  }
}
