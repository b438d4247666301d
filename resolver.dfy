/**
 * `fetchInstagramMedia`: the placeholder resolver. It extracts the post kind and
 * id from the URL and builds a mock media record. The `Math.random() > 0.7` draw
 * is the parameter `coin`; the artificial delay is not modelled.
 */
module Resolver {
  import opened Wrappers
  import opened JsStrings
  import opened PathExtractor
  import opened MediaRecords

  const PlaceholderImageBase := "https://via.placeholder.com/640x640/E4405F/FFFFFF?text=Instagram+"
  const PlaceholderVideoUrl := "https://sample-videos.com/zip/10/mp4/SampleVideo_1280x720_1mb.mp4"
  const FallbackImageUrl := PlaceholderImageBase + "Image"
  const FallbackDescription := "Instagram Image (Failed to load)"

  /** The record for a `/reel/` or `/tv/` link. */
  function ReelRecord(id: string): MediaRecord {
    MediaRecord(
      mediaType := Some("reel"),
      url := None,
      videoUrl := Some(PlaceholderVideoUrl),
      thumbnail := Some(PlaceholderImageBase + "Reel+" + id),
      urls := None,
      media := None,
      caption := Some("Sample Instagram reel caption"),
      description := Some("Instagram Reel - " + id))
  }

  function CarouselImageUrl(n: string, id: string): string {
    PlaceholderImageBase + "Image+" + n + "+" + id
  }

  /** The record for a `/p/` link when the draw picks a carousel. */
  function CarouselRecord(id: string): MediaRecord {
    MediaRecord(
      mediaType := Some("carousel"),
      url := None,
      videoUrl := None,
      thumbnail := None,
      urls := Some([Entry(Some(CarouselImageUrl("1", id))),
                    Entry(Some(CarouselImageUrl("2", id))),
                    Entry(Some(CarouselImageUrl("3", id)))]),
      media := None,
      caption := Some("Sample Instagram carousel post"),
      description := Some("Instagram Carousel - " + id))
  }

  /** The record for a `/p/` link when the draw picks a single image. */
  function ImageRecord(id: string): MediaRecord {
    MediaRecord(
      mediaType := Some("image"),
      url := Some(PlaceholderImageBase + "Post+" + id),
      videoUrl := None,
      thumbnail := None,
      urls := None,
      media := None,
      caption := Some("Sample Instagram post caption"),
      description := Some("Instagram Image - " + id))
  }

  /** The record the `catch` block returns when the URL has no recognisable path. */
  function FallbackRecord(): MediaRecord {
    MediaRecord(
      mediaType := Some("image"),
      url := Some(FallbackImageUrl),
      videoUrl := None,
      thumbnail := None,
      urls := None,
      media := None,
      caption := None,
      description := Some(FallbackDescription))
  }

  /** `fetchInstagramMedia(url)`: always yields a record, one of three types. */
  function FetchInstagramMedia(url: string, coin: bool): (r: MediaRecord)
    ensures r.mediaType == Some("reel") || r.mediaType == Some("carousel") || r.mediaType == Some("image")
    ensures r.mediaType == Some("image") ==> Truthy(r.url)
    ensures r.mediaType == Some("carousel") ==> r.urls.Some? && |r.urls.value| == 3
    ensures Truthy(r.description)
  {
    match ExtractPath(url)
    case None => FallbackRecord()
    case Some(m) =>
      if m.kind == Reel || m.kind == Tv then ReelRecord(m.id)
      else if coin then CarouselRecord(m.id)
      else ImageRecord(m.id)
  }

  /** `t` ends with `suffix`. */
  ghost predicate EndsWith(t: string, suffix: string) {
    |suffix| <= |t| && t[|t| - |suffix|..] == suffix
  }

  /** A URL without any `/p/`, `/reel/` or `/tv/` path gets the degraded placeholder image. */
  lemma FetchWithoutPath(url: string, coin: bool)
    requires NoMarker(url)
    ensures var r := FetchInstagramMedia(url, coin);
      r.mediaType == Some("image") && r.url == Some(FallbackImageUrl) &&
      r.description == Some(FallbackDescription) && r.caption.None? &&
      r.videoUrl.None? && r.thumbnail.None? && r.urls.None?
  {
  }

  /** A reel or tv link yields a reel with the placeholder video, whatever the draw. */
  lemma FetchReel(url: string, coin: bool, m: PathMatch)
    requires IsLeftmostMatch(url, m) && m.kind != Post
    ensures var r := FetchInstagramMedia(url, coin);
      r.mediaType == Some("reel") && r.videoUrl == Some(PlaceholderVideoUrl) &&
      r.thumbnail.Some? && EndsWith(r.thumbnail.value, m.id) &&
      r.description == Some("Instagram Reel - " + m.id) &&
      r == FetchInstagramMedia(url, !coin)
  {
    ExtractPathComplete(url, m);
  }

  /** A post link never yields a reel, whatever the draw. */
  lemma FetchPostIsNotReel(url: string, coin: bool, m: PathMatch)
    requires IsLeftmostMatch(url, m) && m.kind == Post
    ensures FetchInstagramMedia(url, coin).mediaType != Some("reel")
  {
    ExtractPathComplete(url, m);
  }

  /** A post link with the draw above the threshold yields a carousel of three numbered images of that post. */
  lemma FetchPostCarousel(url: string, m: PathMatch)
    requires IsLeftmostMatch(url, m) && m.kind == Post
    ensures var r := FetchInstagramMedia(url, true);
      r.mediaType == Some("carousel") && r.urls.Some? && |r.urls.value| == 3 &&
      (forall i :: 0 <= i < 3 ==>
        r.urls.value[i] == Entry(Some(PlaceholderImageBase + "Image+" + NatToString(i + 1) + "+" + m.id))) &&
      r.description == Some("Instagram Carousel - " + m.id)
  {
    ExtractPathComplete(url, m);
    assert NatToString(1) == "1" && NatToString(2) == "2" && NatToString(3) == "3";
  }

  /** Every carousel image URL of a post ends with the post's id. */
  lemma CarouselImagesEndWithId(id: string, n: nat)
    ensures EndsWith(PlaceholderImageBase + "Image+" + NatToString(n) + "+" + id, id)
  {
  }

  /** A post link with the draw at or below the threshold yields a single image of that post. */
  lemma FetchPostImage(url: string, m: PathMatch)
    requires IsLeftmostMatch(url, m) && m.kind == Post
    ensures var r := FetchInstagramMedia(url, false);
      r.mediaType == Some("image") && r.url.Some? && EndsWith(r.url.value, m.id) &&
      r.description == Some("Instagram Image - " + m.id)
  {
    ExtractPathComplete(url, m);
  }
}
