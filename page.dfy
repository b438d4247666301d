/**
 * The page's state and handlers: the list of download links that both
 * `downloadMediaFromPreview` and `downloadMedia` rebuild, the fetch-then-build
 * flow of `downloadMedia`, and the download button's click handler.
 */
module Page {
  import opened Wrappers
  import opened JsStrings
  import opened Classifier
  import opened PathExtractor
  import opened MediaRecords
  import opened Resolver
  import opened Presentation

  /** Every record the resolver returns gets a complete plan, whose last action is the info block. */
  lemma ResolvedPlanCompletes(url: string, coin: bool, platform: string)
    ensures var data := FetchInstagramMedia(url, coin); var plan := LinkPlan(data, platform);
      plan.completed && plan.actions[|plan.actions| - 1].Info? &&
      |DownloadsOf(plan.actions)| == (if data.mediaType == Some("reel") then 2
                                      else if data.mediaType == Some("carousel") then 3
                                      else 1)
  {
    var data := FetchInstagramMedia(url, coin);
    if IsVideo(data) {
      VideoDownloads(data, platform);
    } else if IsMulti(data) {
      CarouselPlan(data, platform, data.urls.value);
    } else {
      ImageDownloads(data, platform);
    }
    InfoLast(data, platform);
  }

  const SamplePostUrl := "https://instagram.com/p/ABC123"

  /** The gate accepts the sample post link as it is. */
  lemma SamplePostAccepted(hostnameOf: string -> Option<string>)
    requires hostnameOf(SamplePostUrl) == Some("instagram.com")
    ensures Submit(hostnameOf, SamplePostUrl) == Accepted(SamplePostUrl, Instagram)
  {
    var url := SamplePostUrl;
    assert !IsWhitespace(url[0]) && !IsWhitespace(url[|url| - 1]);
    assert Trim(url) == url;
    assert OccursAt(HostMarker, "instagram.com", 0);
  }

  /** The extractor finds the post id `ABC123` in the sample post link. */
  lemma SamplePostPath()
    ensures IsLeftmostMatch(SamplePostUrl, PathMatch(21, Post, "ABC123"))
    ensures ExtractPath(SamplePostUrl) == Some(PathMatch(21, Post, "ABC123"))
  {
    var m := PathMatch(21, Post, "ABC123");
    SamplePostMatch();
    SamplePostNoEarlierMarker();
    assert IsLeftmostMatch(SamplePostUrl, m);
    ExtractPathComplete(SamplePostUrl, m);
  }

  /** `/p/ABC123` sits at index 21 of the sample post link, and the id cannot be extended. */
  lemma SamplePostMatch()
    ensures IsMatch(SamplePostUrl, PathMatch(21, Post, "ABC123"))
  {
    var url := SamplePostUrl;
    assert url[21..24] == Marker(Post);
    assert url[24..30] == "ABC123";
  }

  /** No marker starts before index 21 of the sample post link. */
  lemma SamplePostNoEarlierMarker()
    ensures NoMarkerBetween(SamplePostUrl, 0, 21)
  {
    var url := SamplePostUrl;
    forall i: nat, k | i < 21 ensures !MarkerAt(url, i, k) {
      if MarkerAt(url, i, k) {
        MarkerStart(url, i, k);
        assert false;
      }
    }
  }

  /**
   * A post link, when the draw picks a carousel: three files are offered for
   * download, each an image of that post.
   */
  lemma PostCarouselOffers(url: string, m: PathMatch, platform: string)
    requires IsLeftmostMatch(url, m) && m.kind == Post
    ensures var data := FetchInstagramMedia(url, true);
      var offered := DownloadsOf(LinkPlan(data, platform).actions);
      data.mediaType == Some("carousel") && |offered| == 3 &&
      forall i :: 0 <= i < |offered| ==> offered[i].href.Some? && EndsWith(offered[i].href.value, m.id)
  {
    FetchPostCarousel(url, m);
    var data := FetchInstagramMedia(url, true);
    var items := data.urls.value;
    CarouselPlanUnfolded(data, platform, items);
    CarouselDownloads(data, platform, items);
    var links := CarouselLinks(items, platform);
    forall i | 0 <= i < 3
      ensures links[i].href.Some? && EndsWith(links[i].href.value, m.id)
    {
      CarouselImagesEndWithId(m.id, i + 1);
    }
  }

  /**
   * A post link, when the draw picks a single image: one file is offered for
   * download, an image of that post.
   */
  lemma PostImageOffers(url: string, m: PathMatch, platform: string)
    requires IsLeftmostMatch(url, m) && m.kind == Post
    ensures var data := FetchInstagramMedia(url, false);
      var offered := DownloadsOf(LinkPlan(data, platform).actions);
      data.mediaType == Some("image") && |offered| == 1 &&
      offered[0].href.Some? && EndsWith(offered[0].href.value, m.id)
  {
    FetchPostImage(url, m);
    ImageDownloads(FetchInstagramMedia(url, false), platform);
  }

  /** The sample post link end to end, when the draw picks a carousel. */
  lemma SamplePostCarousel()
    ensures var data := FetchInstagramMedia(SamplePostUrl, true);
      var offered := DownloadsOf(LinkPlan(data, "instagram").actions);
      data.mediaType == Some("carousel") && |offered| == 3 &&
      forall i :: 0 <= i < |offered| ==> offered[i].href.Some? && EndsWith(offered[i].href.value, "ABC123")
  {
    SamplePostPath();
    PostCarouselOffers(SamplePostUrl, PathMatch(21, Post, "ABC123"), "instagram");
  }

  /** The sample post link end to end, when the draw picks a single image. */
  lemma SamplePostImage()
    ensures var data := FetchInstagramMedia(SamplePostUrl, false);
      var offered := DownloadsOf(LinkPlan(data, "instagram").actions);
      data.mediaType == Some("image") && |offered| == 1 &&
      offered[0].href.Some? && EndsWith(offered[0].href.value, "ABC123")
  {
    SamplePostPath();
    PostImageOffers(SamplePostUrl, PathMatch(21, Post, "ABC123"), "instagram");
  }

  /** The `#downloadLinks` container of the page. */
  class DownloadPanel {
    /** The actions currently shown, in document order. */
    var links: seq<Action>

    constructor ()
      ensures links == []
    {
      links := [];
    }

    /**
     * The branching shared by `downloadMediaFromPreview` and the part of
     * `downloadMedia` after the fetch: clear the list, then append containers.
     * `completed` is false where `(data.urls || data.media).forEach` throws.
     */
    method ShowDownloadOptions(data: MediaRecord, platform: string) returns (completed: bool)
      modifies this
      ensures links == LinkPlan(data, platform).actions
      ensures completed == LinkPlan(data, platform).completed
    {
      links := [];
      if IsVideo(data) {
        links := links + [PreviewMedia("video", Title(platform, "Video")),
                          Download(Link(Or(data.videoUrl, data.url), platform + "_video.mp4"))];
        if Truthy(data.thumbnail) {
          links := links + [PreviewThumbnail(data.thumbnail),
                            Download(Link(data.thumbnail, platform + "_thumbnail.jpg"))];
        }
      } else if IsMulti(data) {
        links := links + [PreviewMedia("carousel", Title(platform, "Carousel"))];
        var source := ItemsOf(data);
        if source.None? {
          return false;
        }
        var items := source.value;
        var index := 0;
        while index < |items|
          invariant 0 <= index <= |items|
          invariant links == [PreviewMedia("carousel", Title(platform, "Carousel"))] + ItemActions(items[..index], platform)
        {
          links := links + [PreviewItem(items[index], "Image " + NatToString(index + 1)),
                            Download(Link(ItemHref(items[index]), ImageName(platform, index)))];
          assert items[..index + 1][..index] == items[..index];
          index := index + 1;
        }
        assert items[..index] == items;
        links := links + [DownloadAll(CarouselLinks(items, platform))];
      } else {
        links := links + [PreviewMedia("image", Title(platform, "Image")),
                          Download(Link(data.url, platform + "_image.jpg"))];
      }
      if HasInfo(data) {
        links := links + [Info(data.mediaType, Shown(data.caption), Shown(data.description))];
      }
      completed := true;
    }

    /**
     * `downloadMedia(url, platform)`: resolve the URL, then rebuild the list.
     * `failed` is whether its `catch` block runs; for resolved records it never does.
     */
    method DownloadMedia(url: string, platform: Platform, coin: bool) returns (failed: bool)
      modifies this
      ensures links == LinkPlan(FetchInstagramMedia(url, coin), PlatformName(platform)).actions
      ensures !failed
    {
      var data := FetchInstagramMedia(url, coin);
      var completed := ShowDownloadOptions(data, PlatformName(platform));
      ResolvedPlanCompletes(url, coin, PlatformName(platform));
      failed := !completed;
    }

    /**
     * The download button's click handler: trim, reject an empty field or a
     * non-Instagram URL with an alert (the list is left as it was), else download.
     */
    method OnDownloadClick(hostnameOf: string -> Option<string>, input: string, coin: bool) returns (alert: Option<string>)
      modifies this
      ensures alert.Some? <==> Submit(hostnameOf, input).Rejected?
      ensures alert.Some? ==> alert.value == Submit(hostnameOf, input).alert && links == old(links)
      ensures alert.None? ==>
        var s := Submit(hostnameOf, input);
        links == LinkPlan(FetchInstagramMedia(s.url, coin), PlatformName(s.platform)).actions
    {
      match Submit(hostnameOf, input)
      case Rejected(message) =>
        alert := Some(message);
      case Accepted(url, platform) =>
        var _ := DownloadMedia(url, platform, coin);
        alert := None;
    }
  }
}
