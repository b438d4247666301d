/**
 * What the link builders put into the page's list of download links, written
 * as a specification: an ordered list of actions computed from a media record
 * and the platform tag. The builders themselves (`DownloadPanel` in module
 * Page) append these actions one by one and are proved to produce this list.
 */
module Presentation {
  import opened Wrappers
  import opened JsStrings
  import opened MediaRecords

  /** An anchor: its `href` (absent when the source assigns `undefined`) and its `download` name. */
  datatype Link = Link(href: Option<string>, filename: string)

  datatype Action =
    /** A button opening the preview of the whole record, in the given mode ('video', 'carousel' or 'image'). */
    | PreviewMedia(mode: string, title: string)
    /** The "Preview Thumbnail" button: previews `{url: thumbnail}` as an image titled 'Video Thumbnail'. */
    | PreviewThumbnail(url: Option<string>)
    /** The preview button of one carousel item. */
    | PreviewItem(item: Item, title: string)
    /** A download anchor. */
    | Download(link: Link)
    /** The "Download All" button: the anchors its click handler creates and clicks, in order. */
    | DownloadAll(links: seq<Link>)
    /** The media-info block: the type, and the caption and description when they are truthy. */
    | Info(mediaType: Option<string>, caption: Option<string>, description: Option<string>)

  /** The actions appended, and whether the builder ran to its end (it throws a TypeError otherwise). */
  datatype Plan = Plan(actions: seq<Action>, completed: bool)

  /** ASCII `toUpperCase` of one character. */
  function UpperAscii(c: char): char {
    if 'a' <= c <= 'z' then (c as int - 32) as char else c
  }

  /** `platform.charAt(0).toUpperCase() + platform.slice(1)`. */
  function Capitalize(s: string): string {
    if s == [] then [] else [UpperAscii(s[0])] + s[1..]
  }

  function Title(platform: string, noun: string): string {
    Capitalize(platform) + " " + noun
  }

  /** `data.type === 'video' || data.type === 'reel'`. */
  predicate IsVideo(data: MediaRecord) {
    data.mediaType == Some("video") || data.mediaType == Some("reel")
  }

  /** `data.type === 'carousel' || Array.isArray(data.urls)`. */
  predicate IsMulti(data: MediaRecord) {
    data.mediaType == Some("carousel") || data.urls.Some?
  }

  /** `data.urls || data.media` (an array is always truthy). */
  function ItemsOf(data: MediaRecord): Option<seq<Item>> {
    if data.urls.Some? then data.urls else data.media
  }

  /** `item.url || item`, as an anchor's `href` renders it. */
  function ItemHref(item: Item): Option<string> {
    match item
    case Entry(u) => if Truthy(u) then u else Some("[object Object]")
    case Bare(t) => Some(t)
  }

  /** `${platform}_image_${index + 1}.jpg`. */
  function ImageName(platform: string, index: nat): string {
    platform + "_image_" + NatToString(index + 1) + ".jpg"
  }

  /** The anchors of a carousel, one per item in order, numbered from 1. */
  function CarouselLinks(items: seq<Item>, platform: string): (r: seq<Link>)
    ensures |r| == |items|
  {
    seq(|items|, i requires 0 <= i < |items| => Link(ItemHref(items[i]), ImageName(platform, i)))
  }

  /** The preview button and the download anchor of item number `index`. */
  function ItemPair(item: Item, index: nat, platform: string): seq<Action> {
    [PreviewItem(item, "Image " + NatToString(index + 1)), Download(Link(ItemHref(item), ImageName(platform, index)))]
  }

  /** The containers the `forEach` over the items appends, in order. */
  function ItemActions(items: seq<Item>, platform: string): seq<Action> {
    if items == [] then []
    else ItemActions(items[..|items| - 1], platform) + ItemPair(items[|items| - 1], |items| - 1, platform)
  }

  /** The value when it is truthy, else nothing. */
  function Shown(v: Option<string>): Option<string> {
    if Truthy(v) then v else None
  }

  predicate HasInfo(data: MediaRecord) {
    Truthy(data.caption) || Truthy(data.description)
  }

  function InfoActions(data: MediaRecord): seq<Action> {
    if HasInfo(data) then [Info(data.mediaType, Shown(data.caption), Shown(data.description))] else []
  }

  function VideoActions(data: MediaRecord, platform: string): seq<Action> {
    [PreviewMedia("video", Title(platform, "Video")), Download(Link(Or(data.videoUrl, data.url), platform + "_video.mp4"))] +
    (if Truthy(data.thumbnail) then [PreviewThumbnail(data.thumbnail), Download(Link(data.thumbnail, platform + "_thumbnail.jpg"))] else [])
  }

  function CarouselActions(items: seq<Item>, platform: string): seq<Action> {
    [PreviewMedia("carousel", Title(platform, "Carousel"))] + ItemActions(items, platform) + [DownloadAll(CarouselLinks(items, platform))]
  }

  function ImageActions(data: MediaRecord, platform: string): seq<Action> {
    [PreviewMedia("image", Title(platform, "Image")), Download(Link(data.url, platform + "_image.jpg"))]
  }

  /**
   * The links `downloadMediaFromPreview` and `downloadMedia` build after clearing
   * the list: by type first, then carousel or `urls` array, else one image; the
   * info block last. Without `urls` or `media` a carousel stops after its first button.
   */
  function LinkPlan(data: MediaRecord, platform: string): (r: Plan)
    ensures r.actions != [] && r.actions[0].PreviewMedia?
  {
    if IsVideo(data) then Plan(VideoActions(data, platform) + InfoActions(data), true)
    else if IsMulti(data) then
      match ItemsOf(data)
      case None => Plan([PreviewMedia("carousel", Title(platform, "Carousel"))], false)
      case Some(items) => Plan(CarouselActions(items, platform) + InfoActions(data), true)
    else Plan(ImageActions(data, platform) + InfoActions(data), true)
  }

  // ---------------------------------------------------------------------------
  // What the plan offers for download

  /** The download anchors among `actions`, in order. */
  function DownloadsOf(actions: seq<Action>): seq<Link> {
    if actions == [] then []
    else DownloadsOf(actions[..|actions| - 1]) + (if actions[|actions| - 1].Download? then [actions[|actions| - 1].link] else [])
  }

  lemma {:induction false} DownloadsOfAppend(a: seq<Action>, b: seq<Action>)
    ensures DownloadsOf(a + b) == DownloadsOf(a) + DownloadsOf(b)
    decreases |b|
  {
    if b != [] {
      assert (a + b)[..|a + b| - 1] == a + b[..|b| - 1];
      DownloadsOfAppend(a, b[..|b| - 1]);
    } else {
      assert a + b == a;
    }
  }

  lemma DownloadsOfOne(x: Action)
    ensures DownloadsOf([x]) == if x.Download? then [x.link] else []
  {
    assert [x][..0] == [];
  }

  /** Item `i` of a carousel owns actions `2i` (preview) and `2i + 1` (download). */
  lemma {:induction false} ItemActionsAt(items: seq<Item>, platform: string)
    ensures |ItemActions(items, platform)| == 2 * |items|
    ensures forall i :: 0 <= i < |items| ==>
      ItemActions(items, platform)[2 * i] == PreviewItem(items[i], "Image " + NatToString(i + 1)) &&
      ItemActions(items, platform)[2 * i + 1] == Download(CarouselLinks(items, platform)[i])
  {
    if items != [] {
      var init := items[..|items| - 1];
      ItemActionsAt(init, platform);
      forall i | 0 <= i < |init| ensures init[i] == items[i] { }
    }
  }

  /** `ItemActionsAt` for one item, with its anchor spelled out. */
  lemma ItemPairAt(items: seq<Item>, platform: string, i: nat)
    requires i < |items|
    ensures |ItemActions(items, platform)| == 2 * |items|
    ensures ItemActions(items, platform)[2 * i] == PreviewItem(items[i], "Image " + NatToString(i + 1))
    ensures ItemActions(items, platform)[2 * i + 1] == Download(Link(ItemHref(items[i]), ImageName(platform, i)))
  {
    ItemActionsAt(items, platform);
  }

  /** The individual download anchors of a carousel are exactly the carousel's links, in order. */
  lemma {:induction false} ItemDownloads(items: seq<Item>, platform: string)
    ensures DownloadsOf(ItemActions(items, platform)) == CarouselLinks(items, platform)
  {
    if items != [] {
      var n := |items| - 1;
      var init := items[..n];
      ItemDownloads(init, platform);
      DownloadsOfAppend(ItemActions(init, platform), ItemPair(items[n], n, platform));
      ItemPairDownload(items[n], n, platform);
      CarouselLinksSnoc(items, platform);
    }
  }

  /** An item's pair offers exactly that item's anchor. */
  lemma ItemPairDownload(item: Item, index: nat, platform: string)
    ensures DownloadsOf(ItemPair(item, index, platform)) == [Link(ItemHref(item), ImageName(platform, index))]
  {
    var pair := ItemPair(item, index, platform);
    DownloadsOfAppend([pair[0]], [pair[1]]);
    DownloadsOfOne(pair[0]);
    DownloadsOfOne(pair[1]);
    assert pair == [pair[0]] + [pair[1]];
  }

  /** The anchors of a non-empty carousel: those of all items but the last, then the last one's. */
  lemma CarouselLinksSnoc(items: seq<Item>, platform: string)
    requires items != []
    ensures var n := |items| - 1;
      CarouselLinks(items, platform) == CarouselLinks(items[..n], platform) + [Link(ItemHref(items[n]), ImageName(platform, n))]
  {
  }

  lemma InfoHasNoDownloads(data: MediaRecord)
    ensures DownloadsOf(InfoActions(data)) == []
  {
    if HasInfo(data) {
      assert InfoActions(data)[..0] == [];
    }
  }

  /** A video offers its video file, then its thumbnail exactly when it has one. */
  lemma VideoDownloads(data: MediaRecord, platform: string)
    requires IsVideo(data)
    ensures LinkPlan(data, platform).completed
    ensures DownloadsOf(LinkPlan(data, platform).actions) ==
      [Link(Or(data.videoUrl, data.url), platform + "_video.mp4")] +
      (if Truthy(data.thumbnail) then [Link(data.thumbnail, platform + "_thumbnail.jpg")] else [])
  {
    var head := [PreviewMedia("video", Title(platform, "Video")), Download(Link(Or(data.videoUrl, data.url), platform + "_video.mp4"))];
    var thumb := if Truthy(data.thumbnail) then [PreviewThumbnail(data.thumbnail), Download(Link(data.thumbnail, platform + "_thumbnail.jpg"))] else [];
    DownloadsOfAppend(head + thumb, InfoActions(data));
    DownloadsOfAppend(head, thumb);
    InfoHasNoDownloads(data);
    DownloadsOfAppend([head[0]], [head[1]]);
    DownloadsOfOne(head[0]);
    DownloadsOfOne(head[1]);
    assert head == [head[0]] + [head[1]];
    if thumb != [] {
      DownloadsOfAppend([thumb[0]], [thumb[1]]);
      DownloadsOfOne(thumb[0]);
      DownloadsOfOne(thumb[1]);
      assert thumb == [thumb[0]] + [thumb[1]];
    }
  }

  /** A record that is neither a video nor a carousel offers its `url` as the single image. */
  lemma ImageDownloads(data: MediaRecord, platform: string)
    requires !IsVideo(data) && !IsMulti(data)
    ensures LinkPlan(data, platform).completed
    ensures DownloadsOf(LinkPlan(data, platform).actions) == [Link(data.url, platform + "_image.jpg")]
  {
    var head := ImageActions(data, platform);
    DownloadsOfAppend(head, InfoActions(data));
    InfoHasNoDownloads(data);
    DownloadsOfAppend([head[0]], [head[1]]);
    DownloadsOfOne(head[0]);
    DownloadsOfOne(head[1]);
    assert head == [head[0]] + [head[1]];
  }

  /**
   * The whole plan of a video or reel: its preview and its download, then the
   * thumbnail's preview and download exactly when the thumbnail is truthy, then
   * the info block.
   */
  lemma VideoPlan(data: MediaRecord, platform: string)
    requires IsVideo(data)
    ensures var plan := LinkPlan(data, platform); var a := plan.actions;
      var t := if Truthy(data.thumbnail) then 2 else 0;
      plan.completed &&
      |a| == 2 + t + |InfoActions(data)| &&
      a[0] == PreviewMedia("video", Title(platform, "Video")) &&
      a[1] == Download(Link(Or(data.videoUrl, data.url), platform + "_video.mp4")) &&
      (Truthy(data.thumbnail) ==>
        a[2] == PreviewThumbnail(data.thumbnail) &&
        a[3] == Download(Link(data.thumbnail, platform + "_thumbnail.jpg"))) &&
      a[2 + t..] == InfoActions(data)
  {
  }

  /** The whole plan of a single image: one preview/download pair, then the info block. */
  lemma ImagePlan(data: MediaRecord, platform: string)
    requires !IsVideo(data) && !IsMulti(data)
    ensures var plan := LinkPlan(data, platform); var a := plan.actions;
      plan.completed &&
      |a| == 2 + |InfoActions(data)| &&
      a[..2] == [PreviewMedia("image", Title(platform, "Image")), Download(Link(data.url, platform + "_image.jpg"))] &&
      a[2..] == InfoActions(data)
  {
  }

  predicate IsPreview(x: Action) {
    x.PreviewMedia? || x.PreviewThumbnail? || x.PreviewItem?
  }

  /**
   * Every download anchor of every plan comes right after a preview button: the
   * builders append each file as a preview/download pair.
   */
  lemma DownloadFollowsPreview(data: MediaRecord, platform: string, j: nat)
    requires j < |LinkPlan(data, platform).actions| && LinkPlan(data, platform).actions[j].Download?
    ensures 0 < j && IsPreview(LinkPlan(data, platform).actions[j - 1])
  {
    if !IsVideo(data) && IsMulti(data) && ItemsOf(data).Some? {
      var items := ItemsOf(data).value;
      CarouselPlanUnfolded(data, platform, items);
      CarouselDownloadFollowsPreview(items, platform, data, j);
    }
  }

  /** The carousel case of `DownloadFollowsPreview`: a download at `2i + 2` is item `i`'s anchor, right after its preview. */
  lemma CarouselDownloadFollowsPreview(items: seq<Item>, platform: string, data: MediaRecord, j: nat)
    requires j < |CarouselActions(items, platform) + InfoActions(data)|
    requires (CarouselActions(items, platform) + InfoActions(data))[j].Download?
    ensures var a := CarouselActions(items, platform) + InfoActions(data); var i := (j - 2) / 2;
      2 <= j && j % 2 == 0 && i < |items| &&
      a[j] == Download(CarouselLinks(items, platform)[i]) &&
      a[j - 1] == PreviewItem(items[i], "Image " + NatToString(i + 1))
  {
    CarouselActionAt(items, platform, data, j);
    if 0 < j {
      CarouselActionAt(items, platform, data, j - 1);
    }
  }

  /** What sits at index `j` of a carousel's completed plan. */
  lemma CarouselActionAt(items: seq<Item>, platform: string, data: MediaRecord, j: nat)
    requires j < |CarouselActions(items, platform) + InfoActions(data)|
    ensures var a := CarouselActions(items, platform) + InfoActions(data); var n := |items|;
      |a| == 2 * n + 2 + |InfoActions(data)| &&
      (j == 0 ==> a[j] == PreviewMedia("carousel", Title(platform, "Carousel"))) &&
      (0 < j <= 2 * n && j % 2 == 1 ==>
        a[j] == PreviewItem(items[(j - 1) / 2], "Image " + NatToString((j - 1) / 2 + 1))) &&
      (0 < j <= 2 * n && j % 2 == 0 ==> a[j] == Download(CarouselLinks(items, platform)[(j - 2) / 2])) &&
      (j == 2 * n + 1 ==> a[j].DownloadAll?) &&
      (2 * n + 1 < j ==> a[j].Info?)
  {
    var head := [PreviewMedia("carousel", Title(platform, "Carousel"))];
    var body := ItemActions(items, platform);
    var tail := [DownloadAll(CarouselLinks(items, platform))];
    var a := head + body + tail + InfoActions(data);
    ItemActionsLength(items, platform);
    if 0 < j <= |body| {
      assert a[j] == body[j - 1];
      ItemPairAt(items, platform, (j - 1) / 2);
    }
  }

  /** The `forEach` appends two containers per item. */
  lemma {:induction false} ItemActionsLength(items: seq<Item>, platform: string)
    ensures |ItemActions(items, platform)| == 2 * |items|
  {
    if items != [] {
      ItemActionsLength(items[..|items| - 1], platform);
    }
  }

  /** A carousel offers its items' links and nothing else: its buttons and info block are not anchors. */
  lemma CarouselDownloads(data: MediaRecord, platform: string, items: seq<Item>)
    ensures DownloadsOf(CarouselActions(items, platform) + InfoActions(data)) == CarouselLinks(items, platform)
  {
    var head := [PreviewMedia("carousel", Title(platform, "Carousel"))];
    var body := ItemActions(items, platform);
    var tail := [DownloadAll(CarouselLinks(items, platform))];
    ItemDownloads(items, platform);
    DownloadsOfAppend(head + body + tail, InfoActions(data));
    DownloadsOfAppend(head + body, tail);
    DownloadsOfAppend(head, body);
    InfoHasNoDownloads(data);
    DownloadsOfOne(head[0]);
    DownloadsOfOne(tail[0]);
  }

  /** The plan of a carousel-like record whose items are known, with `LinkPlan`'s branches unfolded. */
  lemma CarouselPlanUnfolded(data: MediaRecord, platform: string, items: seq<Item>)
    requires !IsVideo(data) && IsMulti(data) && ItemsOf(data) == Some(items)
    ensures LinkPlan(data, platform) ==
      Plan([PreviewMedia("carousel", Title(platform, "Carousel"))] + ItemActions(items, platform) +
           [DownloadAll(CarouselLinks(items, platform))] + InfoActions(data), true)
  {
  }

  /**
   * A carousel with N items: one preview-all button, then N preview/download pairs
   * in item order, then one download-all button whose anchors are the same N links,
   * in the same order, as the individual download anchors.
   */
  lemma CarouselPlan(data: MediaRecord, platform: string, items: seq<Item>)
    requires !IsVideo(data) && IsMulti(data) && ItemsOf(data) == Some(items)
    ensures var plan := LinkPlan(data, platform); var a := plan.actions; var n := |items|;
      plan.completed &&
      |a| == 2 * n + 2 + |InfoActions(data)| &&
      a[0] == PreviewMedia("carousel", Title(platform, "Carousel")) &&
      (forall i :: 0 <= i < n ==>
        a[2 * i + 1] == PreviewItem(items[i], "Image " + NatToString(i + 1)) &&
        a[2 * i + 2] == Download(Link(ItemHref(items[i]), ImageName(platform, i)))) &&
      a[2 * n + 1] == DownloadAll(DownloadsOf(a)) &&
      |DownloadsOf(a)| == n &&
      a[2 * n + 2..] == InfoActions(data)
  {
    var head := PreviewMedia("carousel", Title(platform, "Carousel"));
    var body := ItemActions(items, platform);
    var links := CarouselLinks(items, platform);
    var rest := [DownloadAll(links)] + InfoActions(data);
    var a := [head] + body + rest;
    CarouselPlanUnfolded(data, platform, items);
    assert LinkPlan(data, platform).actions == a;
    CarouselDownloads(data, platform, items);
    assert DownloadsOf(a) == links;
    ItemPairsAfterHead(items, platform, head, rest);
    assert a[2 * |items| + 1] == rest[0];
  }

  /** Behind one leading action, item `i`'s pair sits at positions `2i + 1` and `2i + 2`. */
  lemma ItemPairsAfterHead(items: seq<Item>, platform: string, head: Action, rest: seq<Action>)
    ensures var a := [head] + ItemActions(items, platform) + rest;
      |a| == 2 * |items| + 1 + |rest| &&
      forall i :: 0 <= i < |items| ==>
        a[2 * i + 1] == PreviewItem(items[i], "Image " + NatToString(i + 1)) &&
        a[2 * i + 2] == Download(Link(ItemHref(items[i]), ImageName(platform, i)))
  {
    var body := ItemActions(items, platform);
    var a := [head] + body + rest;
    ItemActionsAt(items, platform);
    forall i | 0 <= i < |items|
      ensures a[2 * i + 1] == body[2 * i] && a[2 * i + 2] == body[2 * i + 1]
    { }
  }

  /** The anchors of a carousel carry pairwise distinct file names. */
  lemma CarouselNamesDistinct(items: seq<Item>, platform: string, i: nat, j: nat)
    requires i < |items| && j < |items| && i != j
    ensures CarouselLinks(items, platform)[i].filename != CarouselLinks(items, platform)[j].filename
  {
    NatToStringInjective(i + 1, j + 1);
    MiddleCancels(platform + "_image_", NatToString(i + 1), NatToString(j + 1), ".jpg");
  }

  /**
   * Among the records modelled here (items are never `null` or `undefined`), the
   * builder stops early exactly for a carousel-like record without `urls` or
   * `media`, after one button.
   */
  lemma IncompletePlan(data: MediaRecord, platform: string)
    ensures !LinkPlan(data, platform).completed <==> !IsVideo(data) && IsMulti(data) && ItemsOf(data).None?
    ensures !LinkPlan(data, platform).completed ==>
      LinkPlan(data, platform).actions == [PreviewMedia("carousel", Title(platform, "Carousel"))] &&
      DownloadsOf(LinkPlan(data, platform).actions) == []
  {
    if !LinkPlan(data, platform).completed {
      assert LinkPlan(data, platform).actions[..0] == [];
    }
  }

  /** No action of `pre` is an info block. */
  ghost predicate InfoFree(pre: seq<Action>) {
    forall j :: 0 <= j < |pre| ==> !pre[j].Info?
  }

  /** Appending the info block to actions without one puts it last, and only there. */
  lemma InfoAfterInfoFreePrefix(pre: seq<Action>, data: MediaRecord)
    requires pre != [] && InfoFree(pre)
    ensures var a := pre + InfoActions(data);
      (a[|a| - 1].Info? <==> HasInfo(data)) &&
      (forall j :: 0 <= j < |a| - 1 ==> !a[j].Info?) &&
      (HasInfo(data) ==> a[|a| - 1] == Info(data.mediaType, Shown(data.caption), Shown(data.description)))
  {
  }

  lemma ItemActionsInfoFree(items: seq<Item>, platform: string)
    ensures InfoFree(ItemActions(items, platform))
  {
    var body := ItemActions(items, platform);
    forall j | 0 <= j < |body| ensures !body[j].Info? {
      ItemActionsAt(items, platform);
      var i := j / 2;
      ItemPairAt(items, platform, i);
      assert j == 2 * i || j == 2 * i + 1;
    }
  }

  /**
   * On a completed plan the info block comes last, exactly when the caption or the
   * description is truthy, and nowhere else; it shows each of them only when truthy.
   */
  lemma InfoLast(data: MediaRecord, platform: string)
    requires LinkPlan(data, platform).completed
    ensures var a := LinkPlan(data, platform).actions;
      (a[|a| - 1].Info? <==> HasInfo(data)) &&
      (forall j :: 0 <= j < |a| - 1 ==> !a[j].Info?) &&
      (HasInfo(data) ==> a[|a| - 1] == Info(data.mediaType, Shown(data.caption), Shown(data.description)))
  {
    if IsVideo(data) {
      InfoAfterInfoFreePrefix(VideoActions(data, platform), data);
    } else if IsMulti(data) {
      var items := ItemsOf(data).value;
      var body := ItemActions(items, platform);
      var pre := [PreviewMedia("carousel", Title(platform, "Carousel"))] + body + [DownloadAll(CarouselLinks(items, platform))];
      CarouselPlanUnfolded(data, platform, items);
      ItemActionsInfoFree(items, platform);
      assert InfoFree(pre) by {
        forall j | 0 <= j < |pre| ensures !pre[j].Info? {
          if 1 <= j <= |body| { assert pre[j] == body[j - 1]; }
        }
      }
      InfoAfterInfoFreePrefix(pre, data);
    } else {
      InfoAfterInfoFreePrefix(ImageActions(data, platform), data);
    }
  }

  /**
   * The click handler of "Download All": creates and clicks one anchor per item,
   * in item order, with the item's `href` and its 1-based file name.
   */
  method ClickAll(items: seq<Item>, platform: string) returns (clicked: seq<Link>)
    ensures clicked == CarouselLinks(items, platform)
  {
    clicked := [];
    var index := 0;
    while index < |items|
      invariant 0 <= index <= |items|
      invariant clicked == CarouselLinks(items, platform)[..index]
    {
      clicked := clicked + [Link(ItemHref(items[index]), ImageName(platform, index))];
      index := index + 1;
    }
  }
}
