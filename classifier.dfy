/**
 * The URL gate: `validateUrl` and the trim/empty checks the two buttons run
 * before it. Parsing a URL is the browser's `new URL(...)`; it is a parameter
 * here, `hostnameOf`, which yields the parsed hostname or `None` where the
 * constructor throws.
 */
module Classifier {
  import opened Wrappers
  import opened JsStrings

  /** The platforms the page recognises: only one. */
  datatype Platform = Instagram

  /** The tag `validateUrl` returns, as later used in file names. */
  function PlatformName(p: Platform): string {
    match p
    case Instagram => "instagram"
  }

  /** The substring a hostname must contain to be accepted. */
  const HostMarker := "instagram.com"

  /** `validateUrl(url)`: the platform tag, or `None` for the source's `false`. */
  function ValidateUrl(hostnameOf: string -> Option<string>, url: string): (r: Option<Platform>)
    ensures r.Some? <==> hostnameOf(url).Some? && Contains(hostnameOf(url).value, HostMarker)
  {
    match hostnameOf(url)
    case None => None
    case Some(host) => if Includes(host, HostMarker) then Some(Instagram) else None
  }

  /** The check is a plain substring test, so look-alike hosts pass it. */
  lemma LookalikeHostAccepted(hostnameOf: string -> Option<string>, url: string)
    requires hostnameOf(url) == Some("notinstagram.com")
    ensures ValidateUrl(hostnameOf, url) == Some(Instagram)
  {
    assert "notinstagram.com"[3..16] == HostMarker;
    assert OccursAt(HostMarker, "notinstagram.com", 3);
  }

  const EmptyUrlAlert := "Please enter a URL"
  const InvalidUrlAlert := "Please enter a valid Instagram URL"

  /** What a click on either button does with the text field's value. */
  datatype Submission = Rejected(alert: string) | Accepted(url: string, platform: Platform)

  /** The gate in the click handlers of the download and preview buttons. */
  function Submit(hostnameOf: string -> Option<string>, input: string): (r: Submission)
    ensures r == Rejected(EmptyUrlAlert) <==> AllWhitespace(input)
    ensures r == Rejected(InvalidUrlAlert) <==> !AllWhitespace(input) && ValidateUrl(hostnameOf, Trim(input)).None?
    ensures r.Accepted? <==> !AllWhitespace(input) && ValidateUrl(hostnameOf, Trim(input)).Some?
    ensures r.Accepted? ==> r.url == Trim(input) && r.url != [] &&
                            !IsWhitespace(r.url[0]) && !IsWhitespace(r.url[|r.url| - 1]) &&
                            hostnameOf(r.url).Some? && Contains(hostnameOf(r.url).value, HostMarker)
  {
    var url := Trim(input);
    if url == [] then Rejected(EmptyUrlAlert)
    else match ValidateUrl(hostnameOf, url)
      case None => Rejected(InvalidUrlAlert)
      case Some(platform) => Accepted(url, platform)
  }
}
