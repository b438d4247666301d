/**
 * The media object the resolver returns and the link builders read. It is a
 * loosely shaped JavaScript object, so every property may be absent; the
 * builders reach it through fallbacks (`videoUrl || url`, `urls || media`,
 * `item.url || item`), which the Option fields keep visible.
 */
module MediaRecords {
  import opened Wrappers

  /** An element of a `urls`/`media` array: an object with a `url` property, or a bare string. */
  datatype Item = Entry(url: Option<string>) | Bare(text: string)

  /**
   * The properties the page reads. `mediaType` is the object's `type`; `urls` and
   * `media` are `Some` exactly when the property holds an array.
   */
  datatype MediaRecord = MediaRecord(
    mediaType: Option<string>,
    url: Option<string>,
    videoUrl: Option<string>,
    thumbnail: Option<string>,
    urls: Option<seq<Item>>,
    media: Option<seq<Item>>,
    caption: Option<string>,
    description: Option<string>)
}
