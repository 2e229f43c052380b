/** The identifier extractor (`extract_douyin_id`): three regular expressions
    tried in a fixed order with `re.search`, the first one that matches
    anywhere in the URL supplying its capture group.

    Every pattern has the shape `https?://<host>(<class>+)`: a literal scheme
    with an optional `s`, a literal host and path, and a greedy capture of one
    or more characters of a class. `IsMatchAt` states declaratively what a
    match of such a pattern at a position is; `MatchAt`, `SearchFrom` and
    `FirstMatch` compute it and are proved against that statement. */
module Extractor {
  import opened Outcomes

  /** The two classes the patterns capture: `\w` and `\d`. */
  datatype CharClass = Word | Digit

  predicate IsDigit(c: char) {
    '0' <= c <= '9'
  }

  predicate IsWordChar(c: char) {
    'a' <= c <= 'z' || 'A' <= c <= 'Z' || IsDigit(c) || c == '_'
  }

  predicate InClass(c: char, cls: CharClass) {
    match cls
    case Word => IsWordChar(c)
    case Digit => IsDigit(c)
  }

  /** The pattern `https?://<host>(<cls>+)`; `host` is the literal text
      between the scheme and the capture group. */
  datatype Pattern = Pattern(host: string, cls: CharClass)

  /** The supported share-link shapes, in the order they are tried. */
  const Patterns: seq<Pattern> := [
    Pattern("v.douyin.com/", Word),
    Pattern("www.douyin.com/video/", Digit),
    Pattern("vm.tiktok.com/", Word)
  ]

  const InvalidUrlDetail: string :=
    "Invalid Douyin URL. Supported formats: "
    + "1. https://v.douyin.com/ABC123/ "
    + "2. https://www.douyin.com/video/1234567890123456789 "
    + "3. https://vm.tiktok.com/ABC123/"

  // ---------------------------------------------------------------------
  // What a match is

  predicate StartsAt(url: string, i: nat, lead: string) {
    i + |lead| <= |url| && url[i..i + |lead|] == lead
  }

  /** `id` is a non-empty run of `cls` characters starting at `start` that
      cannot be extended: what a greedy `(<cls>+)` captures there. */
  predicate MaximalRunAt(url: string, start: nat, cls: CharClass, id: string) {
    && start + |id| <= |url|
    && url[start..start + |id|] == id
    && |id| > 0
    && (forall k :: 0 <= k < |id| ==> InClass(id[k], cls))
    && (start + |id| == |url| || !InClass(url[start + |id|], cls))
  }

  /** `lead` starts at index `i` and a maximal `cls` run `id` follows it. */
  predicate MatchWithLead(url: string, i: nat, lead: string, cls: CharClass, id: string) {
    StartsAt(url, i, lead) && MaximalRunAt(url, i + |lead|, cls, id)
  }

  /** Pattern `p` matches at index `i` of `url`, capturing `id`: one of the
      two scheme spellings, the host, then the capture. */
  predicate IsMatchAt(url: string, i: nat, p: Pattern, id: string) {
    MatchWithLead(url, i, "https://" + p.host, p.cls, id) || MatchWithLead(url, i, "http://" + p.host, p.cls, id)
  }

  // ---------------------------------------------------------------------
  // Computing a match

  /** Number of consecutive `cls` characters from `start` on. */
  function RunLength(url: string, start: nat, cls: CharClass): (n: nat)
    requires start <= |url|
    ensures start + n <= |url|
    ensures forall k :: start <= k < start + n ==> InClass(url[k], cls)
    ensures start + n == |url| || !InClass(url[start + n], cls)
    decreases |url| - start
  {
    if start < |url| && InClass(url[start], cls) then 1 + RunLength(url, start + 1, cls) else 0
  }

  /** Length of the `https://<host>` or `http://<host>` text at `i`, if any;
      `s?` is greedy, so the `https` form is tried first. */
  function LeadLength(url: string, i: nat, host: string): Option<nat>
  {
    if StartsAt(url, i, "https://" + host) then Some(|"https://" + host|)
    else if StartsAt(url, i, "http://" + host) then Some(|"http://" + host|)
    else None
  }

  /** The two scheme spellings never both start at the same index: the fifth
      character is `s` in one and `:` in the other. */
  lemma SchemesExclusive(url: string, i: nat, host: string)
    ensures StartsAt(url, i, "https://" + host) ==> !StartsAt(url, i, "http://" + host)
  {
    if StartsAt(url, i, "https://" + host) {
      assert url[i + 4] == url[i..i + |"https://" + host|][4] == 's';
      if i + |"http://" + host| <= |url| {
        assert url[i..i + |"http://" + host|][4] == url[i + 4];
      }
    }
  }

  /** A maximal run is the whole run that `RunLength` measures. */
  lemma MaximalRunIsRunLength(url: string, start: nat, cls: CharClass, id: string)
    requires MaximalRunAt(url, start, cls, id)
    ensures |id| == RunLength(url, start, cls)
    ensures id == url[start..start + RunLength(url, start, cls)]
  {
    var n := RunLength(url, start, cls);
    assert |id| >= n;
    assert forall k :: 0 <= k < |id| ==> url[start + k] == id[k];
    assert |id| <= n;
  }

  /** The whole class run at `start`, when it is not empty, is a maximal run. */
  lemma RunIsMaximal(url: string, start: nat, cls: CharClass)
    requires start <= |url| && RunLength(url, start, cls) > 0
    ensures MaximalRunAt(url, start, cls, url[start..start + RunLength(url, start, cls)])
  {
  }

  /** Matching a pattern at one index, as the regex engine does once
      `re.search` has reached that index. */
  function MatchAt(url: string, i: nat, p: Pattern): Option<string>
    requires i <= |url|
  {
    match LeadLength(url, i, p.host)
    case None => None
    case Some(lead) =>
      if i + lead > |url| then None
      else
        var n := RunLength(url, i + lead, p.cls);
        if n == 0 then None else Some(url[i + lead..i + lead + n])
  }

  /** What `MatchAt` returns is a match. */
  lemma MatchAtSound(url: string, i: nat, p: Pattern)
    requires i <= |url| && MatchAt(url, i, p).Some?
    ensures IsMatchAt(url, i, p, MatchAt(url, i, p).value)
  {
    var lead := LeadLength(url, i, p.host).value;
    RunIsMaximal(url, i + lead, p.cls);
  }

  /** Whichever scheme spelling starts at `i`, `LeadLength` finds it. */
  lemma LeadFound(url: string, i: nat, host: string, lead: string)
    requires lead == "https://" + host || lead == "http://" + host
    requires StartsAt(url, i, lead)
    ensures LeadLength(url, i, host) == Some(|lead|)
  {
    SchemesExclusive(url, i, host);
  }

  /** A match of `p` at `i` is what `MatchAt` returns. */
  lemma MatchAtComplete(url: string, i: nat, p: Pattern, id: string)
    requires i <= |url| && IsMatchAt(url, i, p, id)
    ensures MatchAt(url, i, p) == Some(id)
  {
    var lead := if MatchWithLead(url, i, "https://" + p.host, p.cls, id) then "https://" + p.host else "http://" + p.host;
    assert MatchWithLead(url, i, lead, p.cls, id);
    LeadFound(url, i, p.host, lead);
    MaximalRunIsRunLength(url, i + |lead|, p.cls, id);
  }

  /** `MatchAt` decides matching at one index: `p` matches at `i` capturing
      `id` exactly when `MatchAt` returns `id`. */
  lemma MatchAtSpec(url: string, i: nat, p: Pattern)
    requires i <= |url|
    ensures forall id :: IsMatchAt(url, i, p, id) <==> MatchAt(url, i, p) == Some(id)
  {
    if MatchAt(url, i, p).Some? {
      MatchAtSound(url, i, p);
    }
    forall id | IsMatchAt(url, i, p, id)
      ensures MatchAt(url, i, p) == Some(id)
    {
      MatchAtComplete(url, i, p, id);
    }
  }

  /** A successful `re.search`: where the match starts and its group 1. */
  datatype Match = Match(start: nat, group: string)

  /** `re.search` from index `from` on: the regex engine tries each start
      index in increasing order and stops at the first one that matches. */
  function SearchFrom(url: string, p: Pattern, from: nat): (r: Option<Match>)
    ensures r.Some? ==> from <= r.value.start && IsMatchAt(url, r.value.start, p, r.value.group)
    ensures forall j: nat, id :: from <= j && IsMatchAt(url, j, p, id) ==> r.Some? && r.value.start <= j
    decreases |url| + 1 - from
  {
    if from > |url| then None
    else
      MatchAtSpec(url, from, p);
      match MatchAt(url, from, p)
      case Some(id) => Some(Match(from, id))
      case None => SearchFrom(url, p, from + 1)
  }

  /** `re.search(p, url)`: the leftmost match of `p` anywhere in `url`. */
  function ReSearch(p: Pattern, url: string): (r: Option<Match>)
    ensures r.Some? ==> IsMatchAt(url, r.value.start, p, r.value.group)
    ensures r.Some? ==> forall j: nat, id :: j < r.value.start ==> !IsMatchAt(url, j, p, id)
    ensures r.None? <==> forall j: nat, id :: !IsMatchAt(url, j, p, id)
  {
    SearchFrom(url, p, 0)
  }

  /** The pattern that matched (its index in the list) and the match. */
  datatype Hit = Hit(pattern: nat, m: Match)

  /** The `for pattern in patterns` loop from pattern `k` on: the first
      pattern whose search succeeds ends the loop. */
  function FirstMatch(url: string, ps: seq<Pattern>, k: nat): (r: Option<Hit>)
    requires k <= |ps|
    ensures r.Some? ==> k <= r.value.pattern < |ps| && ReSearch(ps[r.value.pattern], url) == Some(r.value.m)
    ensures forall j :: k <= j < |ps| && ReSearch(ps[j], url).Some? ==> r.Some? && r.value.pattern <= j
    decreases |ps| - k
  {
    if k == |ps| then None
    else
      match ReSearch(ps[k], url)
      case Some(m) => Some(Hit(k, m))
      case None => FirstMatch(url, ps, k + 1)
  }

  /** `extract_douyin_id`: the group of the first pattern that matches
      anywhere in `url`, or HTTP 400 listing the supported formats. */
  function ExtractDouyinId(url: string): (r: Outcome<string>)
    ensures r.Raise? ==> r.exc == HTTPException(400, InvalidUrlDetail)
    ensures r.Raise? <==> forall k: nat, i: nat, id :: k < |Patterns| ==> !IsMatchAt(url, i, Patterns[k], id)
    ensures r.Return? ==> exists k: nat, i: nat :: k < |Patterns| && IsMatchAt(url, i, Patterns[k], r.value)
    ensures r.Return? ==> |r.value| > 0 && forall c :: c in r.value ==> IsWordChar(c)
  {
    match FirstMatch(url, Patterns, 0)
    case Some(hit) => Return(hit.m.group)
    case None => Raise(HTTPException(400, InvalidUrlDetail))
  }

  // ---------------------------------------------------------------------
  // The extractor against a declarative statement of "first pattern, then
  // leftmost occurrence"

  /** `id` is what the extractor should return: pattern `k` matches at `i`
      capturing `id`, no earlier index matches pattern `k`, and no earlier
      pattern matches anywhere, whatever the position of its occurrence. */
  ghost predicate Winner(url: string, k: nat, i: nat, id: string) {
    && k < |Patterns|
    && IsMatchAt(url, i, Patterns[k], id)
    && (forall j: nat, other :: j < i ==> !IsMatchAt(url, j, Patterns[k], other))
    && (forall k': nat, j: nat, other :: k' < k ==> !IsMatchAt(url, j, Patterns[k'], other))
  }

  /** Two matches of one pattern at one index capture the same text. */
  lemma MatchUnique(url: string, i: nat, p: Pattern, a: string, b: string)
    requires IsMatchAt(url, i, p, a) && IsMatchAt(url, i, p, b)
    ensures a == b
  {
    MatchAtComplete(url, i, p, a);
    MatchAtComplete(url, i, p, b);
  }

  /** The winner's capture is what the extractor returns. */
  lemma WinnerIsExtracted(url: string, k: nat, i: nat, id: string)
    requires Winner(url, k, i, id)
    ensures ExtractDouyinId(url) == Return(id)
  {
    var m := ReSearch(Patterns[k], url);
    assert m.Some?;
    assert m.value.start == i;
    MatchUnique(url, i, Patterns[k], m.value.group, id);
    var hit := FirstMatch(url, Patterns, 0);
    assert hit.Some? && hit.value.pattern <= k;
    var h := hit.value;
    assert IsMatchAt(url, h.m.start, Patterns[h.pattern], h.m.group);
    assert h.pattern == k;
  }

  /** Whatever the extractor returns is a winner's capture. */
  lemma ExtractedIsWinner(url: string)
    requires ExtractDouyinId(url).Return?
    ensures exists k: nat, i: nat :: Winner(url, k, i, ExtractDouyinId(url).value)
  {
    var h := FirstMatch(url, Patterns, 0).value;
    forall k': nat, j: nat, other | k' < h.pattern
      ensures !IsMatchAt(url, j, Patterns[k'], other)
    {
      assert ReSearch(Patterns[k'], url).None?;
    }
    assert Winner(url, h.pattern, h.m.start, h.m.group);
  }

  /** The extractor is specified by `Winner`: it returns `id` exactly when
      some pattern and index make `id` the winner. */
  lemma ExtractSpec(url: string, id: string)
    ensures ExtractDouyinId(url) == Return(id) <==> exists k: nat, i: nat :: Winner(url, k, i, id)
  {
    if ExtractDouyinId(url) == Return(id) {
      ExtractedIsWinner(url);
    }
    if exists k: nat, i: nat :: Winner(url, k, i, id) {
      var k: nat, i: nat :| Winner(url, k, i, id);
      WinnerIsExtracted(url, k, i, id);
    }
  }

  /** The first format the 400 detail advertises is accepted, and its id is
      the path segment after the host. */
  lemma AdvertisedShortLinkAccepted()
    ensures ExtractDouyinId("https://v.douyin.com/ABC123/") == Return("ABC123")
  {
    var url := "https://v.douyin.com/ABC123/";
    assert StartsAt(url, 0, "https://" + Patterns[0].host);
    assert |url| == 28 && url[27] == '/' && !InClass(url[27], Word);
    assert url[21..27] == "ABC123";
    assert MaximalRunAt(url, 21, Word, "ABC123");
    WinnerIsExtracted(url, 0, 0, "ABC123");
  }
}
