/**
 * The media-id extraction at the top of `fetchInstagramMedia`: the regular
 * expression `/\/(p|reel|tv)\/([A-Za-z0-9_-]+)/` applied with `String.prototype.match`,
 * which reports the leftmost match. The expression is written out here as an
 * explicit scanner over the characters of the URL string.
 */
module PathExtractor {
  import opened Wrappers

  /** The alternatives of the first capture group, in the order the expression lists them. */
  datatype Kind = Post | Reel | Tv

  /** The text the first capture group matches. */
  function Word(k: Kind): string {
    match k
    case Post => "p"
    case Reel => "reel"
    case Tv => "tv"
  }

  /** The fixed part of the expression: a slash, the word, a slash. */
  function Marker(k: Kind): string {
    "/" + Word(k) + "/"
  }

  /** The class `[A-Za-z0-9_-]` (case-sensitive ASCII). */
  predicate IsIdChar(c: char) {
    'A' <= c <= 'Z' || 'a' <= c <= 'z' || '0' <= c <= '9' || c == '_' || c == '-'
  }

  /** A match: where it starts, the word matched, and the id (the second capture group). */
  datatype PathMatch = PathMatch(start: nat, kind: Kind, id: string)

  /** The marker of kind `k` sits at index `i` and at least one id character follows it. */
  predicate MarkerAt(s: string, i: nat, k: Kind) {
    i + |Marker(k)| < |s| && s[i..i + |Marker(k)|] == Marker(k) && IsIdChar(s[i + |Marker(k)|])
  }

  /** The expression has no match in `s`. */
  ghost predicate NoMarker(s: string) {
    forall i: nat, k :: !MarkerAt(s, i, k)
  }

  /**
   * `m` is what `s.match(...)` reports: a marker at `m.start` with the longest run of
   * id characters after it, and no marker at any earlier index.
   */
  ghost predicate IsLeftmostMatch(s: string, m: PathMatch) {
    IsMatch(s, m) && NoMarkerBetween(s, 0, m.start)
  }

  /** `m` is a match of the expression at `m.start`: the marker and the longest id after it. */
  ghost predicate IsMatch(s: string, m: PathMatch) {
    MarkerAt(s, m.start, m.kind) && IsMaximalIdAt(s, m.start + |Marker(m.kind)|, m.id)
  }

  /** No match starts at index `lo` or later. */
  ghost predicate NoMarkerFrom(s: string, lo: nat) {
    forall i: nat, k :: lo <= i ==> !MarkerAt(s, i, k)
  }

  /** No match starts in the index range `[lo, hi)`. */
  ghost predicate NoMarkerBetween(s: string, lo: nat, hi: nat) {
    forall i: nat, k :: lo <= i < hi ==> !MarkerAt(s, i, k)
  }

  /** `id` is a non-empty run of id characters at index `p` of `s` that cannot be extended. */
  ghost predicate IsMaximalIdAt(s: string, p: nat, id: string) {
    p + |id| <= |s| && s[p..p + |id|] == id && id != [] &&
    (forall j :: 0 <= j < |id| ==> IsIdChar(id[j])) &&
    (p + |id| == |s| || !IsIdChar(s[p + |id|]))
  }

  /** The end of the run of id characters that starts at `from` (greedy `+`). */
  function IdRunEnd(s: string, from: nat): (e: nat)
    requires from <= |s|
    ensures from <= e <= |s|
    ensures forall i :: from <= i < e ==> IsIdChar(s[i])
    ensures e == |s| || !IsIdChar(s[e])
    decreases |s| - from
  {
    if from < |s| && IsIdChar(s[from]) then IdRunEnd(s, from + 1) else from
  }

  /** The alternative that matches at index `i`, trying `p`, `reel`, `tv` in turn. */
  function KindAt(s: string, i: nat): (r: Option<Kind>)
    ensures r.Some? ==> MarkerAt(s, i, r.value)
    ensures r.None? ==> forall k :: !MarkerAt(s, i, k)
  {
    if MarkerAt(s, i, Post) then Some(Post)
    else if MarkerAt(s, i, Reel) then Some(Reel)
    else if MarkerAt(s, i, Tv) then Some(Tv)
    else None
  }

  /** The match of kind `k` at index `i`, with the greedy id after the marker. */
  function MatchAt(s: string, i: nat, k: Kind): (m: PathMatch)
    requires MarkerAt(s, i, k)
    ensures m.start == i && m.kind == k && IsMatch(s, m)
  {
    var p := i + |Marker(k)|;
    IdRunIsMaximal(s, p);
    PathMatch(i, k, s[p..IdRunEnd(s, p)])
  }

  /** The first match that starts at index `from` or later. */
  function ScanFrom(s: string, from: nat): (r: Option<PathMatch>)
    ensures r.None? ==> NoMarkerFrom(s, from)
    ensures r.Some? ==> from <= r.value.start && IsMatch(s, r.value) && NoMarkerBetween(s, from, r.value.start)
    decreases |s| - from
  {
    if from >= |s| then NoMarkerPastEnd(s, from); None
    else match KindAt(s, from)
      case Some(k) => Some(MatchAt(s, from, k))
      case None =>
        var r := ScanFrom(s, from + 1);
        NoMarkerAtStep(s, from, r);
        r
  }

  /** A match needs at least one character after its marker, so none starts past the end. */
  lemma NoMarkerPastEnd(s: string, from: nat)
    requires |s| <= from
    ensures NoMarkerFrom(s, from)
  {
  }

  /** With no marker at `from`, what holds of the scan from `from + 1` holds from `from`. */
  lemma NoMarkerAtStep(s: string, from: nat, r: Option<PathMatch>)
    requires forall k :: !MarkerAt(s, from, k)
    requires r.None? ==> NoMarkerFrom(s, from + 1)
    requires r.Some? ==> from + 1 <= r.value.start && NoMarkerBetween(s, from + 1, r.value.start)
    ensures r.None? ==> NoMarkerFrom(s, from)
    ensures r.Some? ==> NoMarkerBetween(s, from, r.value.start)
  {
  }

  /** `url.match(/\/(p|reel|tv)\/([A-Za-z0-9_-]+)/)`. */
  function ExtractPath(s: string): (r: Option<PathMatch>)
    ensures r.Some? ==> IsLeftmostMatch(s, r.value)
    ensures r.None? <==> NoMarker(s)
  {
    ScanFrom(s, 0)
  }

  /** The greedy run after a marker is a maximal id. */
  lemma IdRunIsMaximal(s: string, p: nat)
    requires p < |s| && IsIdChar(s[p])
    ensures IsMaximalIdAt(s, p, s[p..IdRunEnd(s, p)])
  {
    var id := s[p..IdRunEnd(s, p)];
    forall j | 0 <= j < |id| ensures IsIdChar(id[j]) {
      assert id[j] == s[p + j];
    }
  }

  /** A marker starts with a slash followed by the first letter of its word. */
  lemma MarkerStart(s: string, i: nat, k: Kind)
    requires MarkerAt(s, i, k)
    ensures s[i] == '/' && s[i + 1] == Word(k)[0]
  {
    assert s[i] == s[i..i + |Marker(k)|][0];
    assert s[i + 1] == s[i..i + |Marker(k)|][1];
  }

  /** At one index at most one of the three words can match. */
  lemma KindIsDetermined(s: string, i: nat, k1: Kind, k2: Kind)
    requires MarkerAt(s, i, k1) && MarkerAt(s, i, k2)
    ensures k1 == k2
  {
    MarkerStart(s, i, k1);
    MarkerStart(s, i, k2);
  }

  /** The leftmost match is unique: its start, word and id are all determined by `s`. */
  lemma LeftmostMatchUnique(s: string, m1: PathMatch, m2: PathMatch)
    requires IsLeftmostMatch(s, m1) && IsLeftmostMatch(s, m2)
    ensures m1 == m2
  {
    LeftmostStartUnique(s, m1, m2);
    KindIsDetermined(s, m1.start, m1.kind, m2.kind);
    MaximalIdUnique(s, m1.start + |Marker(m1.kind)|, m1.id, m2.id);
  }

  /** Two leftmost matches start at the same index. */
  lemma LeftmostStartUnique(s: string, m1: PathMatch, m2: PathMatch)
    requires IsLeftmostMatch(s, m1) && IsLeftmostMatch(s, m2)
    ensures m1.start == m2.start
  {
  }

  /** At one index there is only one maximal run of id characters. */
  lemma MaximalIdUnique(s: string, p: nat, id1: string, id2: string)
    requires IsMaximalIdAt(s, p, id1) && IsMaximalIdAt(s, p, id2)
    ensures id1 == id2
  {
    MaximalIdIsGreedy(s, p, id1);
    MaximalIdIsGreedy(s, p, id2);
  }

  /** A maximal id is the greedy run that `IdRunEnd` finds. */
  lemma MaximalIdIsGreedy(s: string, p: nat, id: string)
    requires IsMaximalIdAt(s, p, id)
    ensures p + |id| == IdRunEnd(s, p)
  {
    forall i | p <= i < p + |id| ensures IsIdChar(s[i]) {
      assert s[i] == s[p..p + |id|][i - p];
    }
    RunEndIsIdRunEnd(s, p, p + |id|);
  }

  /** Any end of a run of id characters that cannot be extended is the one `IdRunEnd` finds. */
  lemma {:induction false} RunEndIsIdRunEnd(s: string, from: nat, e: nat)
    requires from <= e <= |s|
    requires forall i :: from <= i < e ==> IsIdChar(s[i])
    requires e == |s| || !IsIdChar(s[e])
    ensures IdRunEnd(s, from) == e
    decreases e - from
  {
    if from < e {
      RunEndIsIdRunEnd(s, from + 1, e);
    }
  }

  /** The scanner reports exactly the leftmost match, whenever there is one. */
  lemma ExtractPathComplete(s: string, m: PathMatch)
    requires IsLeftmostMatch(s, m)
    ensures ExtractPath(s) == Some(m)
  {
    var r := ExtractPath(s);
    if r.Some? {
      LeftmostMatchUnique(s, r.value, m);
    }
  }
}
