/** The view side of the dashboard (index.js:17-161): which view `render`
    shows for a state, and how `createStopCardsHTML` shapes the stop list.
    The HTML text is replaced by a small tree of view values. */
module Render {
  import opened Common
  import opened Sorting
  import opened TflService

  /** `{ ...stop, arrivals }`: a discovered stop with its arrivals. */
  datatype StopWithArrivals = StopWithArrivals(stop: StopPoint, arrivals: seq<Arrival>)

  function StopDistance(s: StopWithArrivals): int { s.stop.distance }

  const MetroStationType := "NaptanMetroStation"
  const UnknownPlatform := "Unknown Platform"
  const UnknownDestination := "Unknown Destination"
  const MaxArrivalsShown: nat := 5
  const LineClassPrefix := "line-"

  // ---------------------------------------------------------------------
  // slugify (index.js:17)
  // ---------------------------------------------------------------------

  /** `toLowerCase` on one character (ASCII letters only). */
  function LowerChar(c: char): char
  {
    if 'A' <= c <= 'Z' then (c as int + 32) as char else c
  }

  function ToLower(s: string): (r: string)
    ensures |r| == |s|
    ensures forall i :: 0 <= i < |s| ==> r[i] == LowerChar(s[i])
  {
    if s == [] then [] else [LowerChar(s[0])] + ToLower(s[1..])
  }

  /** The characters the class `[a-z0-9]` matches. */
  predicate IsSlugChar(c: char)
  {
    'a' <= c <= 'z' || '0' <= c <= '9'
  }

  /** The letters and digits of `s`, in order. */
  function SlugChars(s: string): string
  {
    if s == [] then [] else (if IsSlugChar(s[0]) then [s[0]] else []) + SlugChars(s[1..])
  }

  /** Drops the leading run of characters outside `[a-z0-9]`. */
  function SkipRun(s: string): (r: string)
    ensures |r| <= |s|
    ensures r == s[|s| - |r|..]
    ensures r == [] || IsSlugChar(r[0])
    ensures s != [] && !IsSlugChar(s[0]) ==> |r| < |s|
    ensures SlugChars(r) == SlugChars(s)
  {
    if s == [] || IsSlugChar(s[0]) then s
    else
      var r := SkipRun(s[1..]);
      assert SlugChars(s) == SlugChars(s[1..]);
      assert s[1..][|s| - 1 - |r|..] == s[|s| - |r|..];
      r
  }

  /** `.replace(/[^a-z0-9]+/g, '-')`: every maximal run of other characters
      becomes a single dash. */
  function CollapseRuns(s: string): (r: string)
    ensures forall i :: 0 <= i < |r| ==> IsSlugChar(r[i]) || r[i] == '-'
    ensures forall i :: 0 <= i < |r| - 1 ==> r[i] != '-' || r[i + 1] != '-'
    ensures r == [] <==> s == []
    ensures s != [] && !IsSlugChar(s[0]) ==> r[0] == '-'
    ensures s != [] && IsSlugChar(s[0]) ==> r[0] == s[0]
    ensures SlugChars(r) == SlugChars(s)
    decreases |s|
  {
    if s == [] then []
    else if IsSlugChar(s[0]) then
      var rest := CollapseRuns(s[1..]);
      assert SlugChars([s[0]] + rest) == [s[0]] + SlugChars(rest);
      [s[0]] + rest
    else
      var rest := CollapseRuns(SkipRun(s));
      assert SlugChars("-" + rest) == SlugChars(rest);
      "-" + rest
  }

  /** A text ending in a letter or digit keeps that character when its
      leading run is skipped. */
  lemma {:induction false} SkipRunKeepsLast(s: string)
    requires s != [] && IsSlugChar(s[|s| - 1])
    ensures SkipRun(s) != [] && SkipRun(s)[|SkipRun(s)| - 1] == s[|s| - 1]
  {
    if !IsSlugChar(s[0]) {
      SkipRunKeepsLast(s[1..]);
    }
  }

  /** Skipping the leading run of `x + y` skips it in `x`, and on into `y`
      when `x` holds no letter or digit. */
  lemma {:induction false} SkipRunAppend(x: string, y: string)
    ensures SkipRun(x + y) == if SkipRun(x) == [] then SkipRun(y) else SkipRun(x) + y
  {
    if x == [] {
      assert x + y == y;
    } else if !IsSlugChar(x[0]) {
      assert (x + y)[1..] == x[1..] + y;
      SkipRunAppend(x[1..], y);
    }
  }

  /** A text with no letter or digit is skipped entirely. */
  lemma {:induction false} SkipRunOfRun(s: string)
    requires forall i :: 0 <= i < |s| ==> !IsSlugChar(s[i])
    ensures SkipRun(s) == []
  {
    if s != [] {
      SkipRunOfRun(s[1..]);
    }
  }

  /** A non-empty run of characters outside `[a-z0-9]` becomes one dash. */
  lemma CollapseRunsOfRun(s: string)
    requires s != []
    requires forall i :: 0 <= i < |s| ==> !IsSlugChar(s[i])
    ensures CollapseRuns(s) == "-"
  {
    SkipRunOfRun(s);
    assert CollapseRuns(s) == "-" + CollapseRuns([]);
  }

  lemma AppendAssoc(a: string, b: string, c: string)
    ensures a + (b + c) == (a + b) + c
  {
  }

  /** The replacement works piece by piece across a letter or digit: no run
      spans the boundary, so the pieces collapse independently. With
      `CollapseRunsOfRun` and the letters and digits kept as they are, this
      fixes the result: every maximal run, a leading or trailing one
      included, becomes exactly one dash. */
  lemma {:induction false} CollapseRunsSplit(x: string, y: string)
    requires (x != [] && IsSlugChar(x[|x| - 1])) || (y != [] && IsSlugChar(y[0]))
    ensures CollapseRuns(x + y) == CollapseRuns(x) + CollapseRuns(y)
    decreases |x|, 1
  {
    if x == [] {
      assert x + y == y;
      assert CollapseRuns(x) == [];
    } else if IsSlugChar(x[0]) {
      CollapseRunsSplitAtChar(x, y);
    } else {
      CollapseRunsSplitAtRun(x, y);
    }
  }

  /** `CollapseRunsSplit` when `x` starts with a letter or digit. */
  lemma {:induction false} CollapseRunsSplitAtChar(x: string, y: string)
    requires x != [] && IsSlugChar(x[0])
    requires IsSlugChar(x[|x| - 1]) || (y != [] && IsSlugChar(y[0]))
    ensures CollapseRuns(x + y) == CollapseRuns(x) + CollapseRuns(y)
    decreases |x|, 0
  {
    var x' := x[1..];
    assert (x + y)[1..] == x' + y;
    assert CollapseRuns(x) == [x[0]] + CollapseRuns(x');
    assert CollapseRuns(x + y) == [x[0]] + CollapseRuns(x' + y);
    if x' == [] {
      assert x' + y == y;
    } else {
      CollapseRunsSplit(x', y);
    }
    assert CollapseRuns(x' + y) == CollapseRuns(x') + CollapseRuns(y);
    AppendAssoc([x[0]], CollapseRuns(x'), CollapseRuns(y));
  }

  /** `CollapseRunsSplit` when `x` starts with a run to be replaced. */
  lemma {:induction false} CollapseRunsSplitAtRun(x: string, y: string)
    requires x != [] && !IsSlugChar(x[0])
    requires IsSlugChar(x[|x| - 1]) || (y != [] && IsSlugChar(y[0]))
    ensures CollapseRuns(x + y) == CollapseRuns(x) + CollapseRuns(y)
    decreases |x|, 0
  {
    SkipRunAppend(x, y);
    var x' := SkipRun(x);
    assert CollapseRuns(x) == "-" + CollapseRuns(x');
    if IsSlugChar(x[|x| - 1]) {
      SkipRunKeepsLast(x);
    }
    if x' == [] {
      assert SkipRun(y) == y;
      assert CollapseRuns(x') == [];
      assert CollapseRuns(x + y) == "-" + CollapseRuns(y);
    } else {
      CollapseRunsSplit(x', y);
      assert CollapseRuns(x + y) == "-" + CollapseRuns(x' + y);
      AppendAssoc("-", CollapseRuns(x'), CollapseRuns(y));
    }
  }

  /** `.replace(/ & /g, '-and-')`, left to right without overlaps. */
  function ReplaceAmpersands(s: string): string
    decreases |s|
  {
    if |s| < 3 then s
    else if s[..3] == " & " then "-and-" + ReplaceAmpersands(s[3..])
    else [s[0]] + ReplaceAmpersands(s[1..])
  }

  /** The CSS class suffix for a line (index.js:17): lower-case letters,
      digits and single dashes, keeping the letters and digits of the
      lower-cased text in order. */
  function Slugify(text: string): (r: string)
    ensures forall i :: 0 <= i < |r| ==> IsSlugChar(r[i]) || r[i] == '-'
    ensures forall i :: 0 <= i < |r| - 1 ==> r[i] != '-' || r[i + 1] != '-'
    ensures SlugChars(r) == SlugChars(ToLower(text))
    ensures r == [] <==> text == []
  {
    ReplaceAmpersandsWithoutSpaces(CollapseRuns(ToLower(text)));
    ReplaceAmpersands(CollapseRuns(ToLower(text)))
  }

  lemma {:induction false} ReplaceAmpersandsWithoutSpaces(s: string)
    requires forall i :: 0 <= i < |s| ==> s[i] != ' '
    ensures ReplaceAmpersands(s) == s
  {
    if |s| >= 3 {
      assert s[..3][0] == s[0] != ' ';
      ReplaceAmpersandsWithoutSpaces(s[1..]);
    }
  }

  /** The ampersand replacement never applies, because no space survives
      the first replacement: a slug is the collapsed lower-cased text. */
  lemma SlugifyShape(text: string)
    ensures Slugify(text) == CollapseRuns(ToLower(text))
  {
    ReplaceAmpersandsWithoutSpaces(CollapseRuns(ToLower(text)));
  }

  // ---------------------------------------------------------------------
  // Arrival rows (index.js:63-79, 104-118)
  // ---------------------------------------------------------------------

  /** The time column of an arrival row: "N min" or "Due". */
  datatype TimeLabel = Due | Minutes(count: nat)

  /** `Math.floor(t / 60)`, then "N min" when positive and "Due" otherwise.
      Dafny's `/` by a positive divisor rounds down, as `Math.floor` does. */
  function TimeLabelOf(timeToStation: int): (r: TimeLabel)
    ensures r == Due <==> timeToStation < 60
    ensures r.Minutes? ==> 1 <= r.count && r.count * 60 <= timeToStation < r.count * 60 + 60
  {
    var minutesAway := timeToStation / 60;
    if minutesAway > 0 then Minutes(minutesAway) else Due
  }

  /** A row of a metro platform group. */
  datatype MetroRow = MetroRow(lineClass: string, lineName: string, towards: string, time: TimeLabel)

  /** A metro platform heading with its rows. */
  datatype PlatformGroup = PlatformGroup(title: string, rows: seq<MetroRow>)

  /** A row of a bus stop card. */
  datatype BusRow = BusRow(lineName: string, destination: string, time: TimeLabel)

  /** A stop card; an empty `platforms` or `rows` stands for the card's
      "no arrivals" footer. */
  datatype Card =
    | MetroCard(name: string, disrupted: bool, distance: int, platforms: seq<PlatformGroup>)
    | BusCard(name: string, stopLetter: Option<string>, direction: Option<string>,
              towards: Option<string>, disrupted: bool, distance: int, rows: seq<BusRow>)

  /** The loading message is always one of four fixed texts. */
  datatype LoadingMessage = Waiting | Locating | Finding | Fetching

  /** The text shown for each loading message (index.js:12, 204, 209, 219);
      the views carry the message itself. */
  function Text(m: LoadingMessage): string
  {
    match m
    case Waiting => "Waiting for location permission..."
    case Locating => "Getting your location..."
    case Finding => "Finding nearby bus stops & Tube stations..."
    case Fetching => "Fetching live data..."
  }

  /** The four texts differ, so naming a message by its case loses nothing
      the page can show. */
  lemma TextDistinct(m1: LoadingMessage, m2: LoadingMessage)
    ensures Text(m1) == Text(m2) <==> m1 == m2
  {
    assert |Text(Waiting)| != |Text(Locating)|;
  }

  /** What `render` writes into the content container. */
  datatype View =
    | Spinner(loading: LoadingMessage)
    | ErrorDisplay(message: string)
    | NothingFound
    | StopList(banner: Option<string>, cards: seq<Card>)

  /** A metro row (index.js:63-79): the line's slug as its colour class, the
      destination or 'Unknown Destination' when it is empty, and the time. */
  function MetroRowOf(a: Arrival): (r: MetroRow)
    ensures |LineClassPrefix| <= |r.lineClass|
    ensures r.lineClass[..|LineClassPrefix|] == LineClassPrefix
    ensures r.lineClass[|LineClassPrefix|..] == Slugify(a.lineId)
    ensures r.lineName == a.lineName
    ensures r.towards != ""
    ensures a.towards != "" ==> r.towards == a.towards
    ensures a.towards == "" ==> r.towards == UnknownDestination
    ensures r.time == TimeLabelOf(a.timeToStation)
  {
    MetroRow(LineClassPrefix + Slugify(a.lineId), a.lineName,
             if a.towards != "" then a.towards else UnknownDestination,
             TimeLabelOf(a.timeToStation))
  }

  /** A bus row (index.js:105-117): line, destination and time. */
  function BusRowOf(a: Arrival): (r: BusRow)
    ensures r.lineName == a.lineName && r.destination == a.destinationName
    ensures r.time == TimeLabelOf(a.timeToStation)
  {
    BusRow(a.lineName, a.destinationName, TimeLabelOf(a.timeToStation))
  }

  /** `.slice(0, 5)`. */
  function FirstFive<T>(s: seq<T>): (r: seq<T>)
    ensures |r| == Min(MaxArrivalsShown, |s|)
    ensures r == s[..|r|]
  {
    if |s| <= MaxArrivalsShown then s else s[..MaxArrivalsShown]
  }

  // ---------------------------------------------------------------------
  // Platform grouping (index.js:46-56)
  // ---------------------------------------------------------------------

  /** `arrival.platformName || 'Unknown Platform'` (index.js:47): the key is
      never empty, and is the platform name whenever that is not empty. */
  function PlatformOf(a: Arrival): (r: string)
    ensures r != ""
    ensures a.platformName != "" ==> r == a.platformName
    ensures a.platformName == "" ==> r == UnknownPlatform
  {
    if a.platformName != "" then a.platformName else UnknownPlatform
  }

  /** The arrivals the `reduce` pushes into bucket `p`, in input order. */
  function InPlatform(s: seq<Arrival>, p: string): (r: seq<Arrival>)
    ensures forall a :: a in r ==> a in s && PlatformOf(a) == p
    ensures |r| <= |s|
  {
    if s == [] then []
    else InPlatform(s[..|s| - 1], p) + (if PlatformOf(s[|s| - 1]) == p then [s[|s| - 1]] else [])
  }

  /** The bucket keys in the order the `reduce` creates them. */
  function PlatformKeys(s: seq<Arrival>): (r: seq<string>)
    ensures Distinct(r)
  {
    if s == [] then []
    else
      var keys := PlatformKeys(s[..|s| - 1]);
      var p := PlatformOf(s[|s| - 1]);
      if p in keys then keys else keys + [p]
  }

  /** Every arrival's platform is a key. */
  lemma {:induction false} ArrivalHasKey(s: seq<Arrival>, k: nat)
    requires k < |s|
    ensures PlatformOf(s[k]) in PlatformKeys(s)
  {
    var init := s[..|s| - 1];
    if k < |s| - 1 {
      ArrivalHasKey(init, k);
      assert init[k] == s[k];
    }
  }

  /** Every key names a bucket that received at least one arrival. */
  lemma {:induction false} KeyHasBucket(s: seq<Arrival>, p: string)
    requires p in PlatformKeys(s)
    ensures InPlatform(s, p) != []
  {
    var init := s[..|s| - 1];
    if p in PlatformKeys(init) {
      KeyHasBucket(init, p);
    }
  }

  /** Each arrival lands in the bucket of its own platform as often as it
      occurs in the input, and in no other bucket. */
  lemma {:induction false} InPlatformCount(s: seq<Arrival>, p: string, x: Arrival)
    ensures multiset(InPlatform(s, p))[x] == if PlatformOf(x) == p then multiset(s)[x] else 0
  {
    if s != [] {
      var init := s[..|s| - 1];
      InPlatformCount(init, p, x);
      assert s == init + [s[|s| - 1]];
    }
  }

  lemma InPlatformSnoc(s: seq<Arrival>, a: Arrival, p: string)
    ensures InPlatform(s + [a], p) == InPlatform(s, p) + (if PlatformOf(a) == p then [a] else [])
  {
    assert (s + [a])[..|s|] == s;
  }

  lemma PlatformKeysSnoc(s: seq<Arrival>, a: Arrival)
    ensures PlatformKeys(s + [a]) == if PlatformOf(a) in PlatformKeys(s) then PlatformKeys(s)
                                     else PlatformKeys(s) + [PlatformOf(a)]
  {
    assert (s + [a])[..|s|] == s;
  }

  /** A platform without a key has an empty bucket. */
  lemma NoBucketWithoutKey(s: seq<Arrival>, p: string)
    requires p !in PlatformKeys(s)
    ensures InPlatform(s, p) == []
  {
  }

  /** The accumulator object the `reduce` builds: one bucket per key. */
  ghost function Buckets(s: seq<Arrival>): map<string, seq<Arrival>>
  {
    map p | p in PlatformKeys(s) :: InPlatform(s, p)
  }

  /** One step of the `reduce`: create the arrival's bucket if it is
      missing, then push the arrival onto it. */
  lemma BucketsSnoc(s: seq<Arrival>, a: Arrival)
    ensures var p := PlatformOf(a);
      Buckets(s + [a]) == Buckets(s)[p := (if p in Buckets(s) then Buckets(s)[p] else []) + [a]]
  {
    var p := PlatformOf(a);
    var before, after := Buckets(s), Buckets(s + [a]);
    var expected := before[p := (if p in before then before[p] else []) + [a]];
    assert after.Keys == expected.Keys by {
      PlatformKeysSnoc(s, a);
    }
    forall q | q in after ensures after[q] == expected[q] {
      InPlatformSnoc(s, a, q);
      if q == p && p !in before {
        NoBucketWithoutKey(s, p);
      }
    }
  }

  /** The `reduce` of index.js:46-53: a loop that creates a bucket on a
      platform's first arrival and pushes each arrival onto its bucket. */
  method GroupByPlatform(arrivals: seq<Arrival>) returns (groups: map<string, seq<Arrival>>, keys: seq<string>)
    ensures keys == PlatformKeys(arrivals)
    ensures forall p :: p in groups <==> p in keys
    ensures forall p :: p in groups ==> groups[p] == InPlatform(arrivals, p)
  {
    groups, keys := map[], [];
    for i := 0 to |arrivals|
      invariant groups == Buckets(arrivals[..i])
      invariant keys == PlatformKeys(arrivals[..i])
    {
      var arrival := arrivals[i];
      var platform := PlatformOf(arrival);
      ghost var done := arrivals[..i];
      assert arrivals[..i + 1] == done + [arrival];
      BucketsSnoc(done, arrival);
      PlatformKeysSnoc(done, arrival);
      var bucket := [];
      if platform in groups {
        bucket := groups[platform];
      } else {
        keys := keys + [platform];
      }
      groups := groups[platform := bucket + [arrival]];
    }
    assert arrivals[..|arrivals|] == arrivals;
  }

  /** The group shown under one platform heading: its first five arrivals. */
  function GroupFor(arrivals: seq<Arrival>): string -> PlatformGroup
  {
    p => PlatformGroup(p, Map(FirstFive(InPlatform(arrivals, p)), MetroRowOf))
  }

  /** The platform groups of a metro card, headings ordered by the
      comparator `platformLe` (the page's numeric-aware `localeCompare`). */
  function PlatformGroups(arrivals: seq<Arrival>, platformLe: (string, string) -> bool): seq<PlatformGroup>
  {
    Map(SortWith(PlatformKeys(arrivals), platformLe), GroupFor(arrivals))
  }

  /** Each heading is a bucket key, in the comparator's order of keys; each
      group holds the first (at most) five arrivals of its platform, in their
      given order, and is never empty. */
  lemma PlatformGroupsRows(arrivals: seq<Arrival>, platformLe: (string, string) -> bool)
    ensures var gs := PlatformGroups(arrivals, platformLe);
      && |gs| == |PlatformKeys(arrivals)|
      && forall i :: 0 <= i < |gs| ==>
           && gs[i].title in PlatformKeys(arrivals)
           && 1 <= |gs[i].rows| <= MaxArrivalsShown
           && gs[i].rows == Map(FirstFive(InPlatform(arrivals, gs[i].title)), MetroRowOf)
  {
    var keys := PlatformKeys(arrivals);
    var sorted := SortWith(keys, platformLe);
    var gs := PlatformGroups(arrivals, platformLe);
    forall i | 0 <= i < |gs|
      ensures gs[i].title in keys
      ensures 1 <= |gs[i].rows| <= MaxArrivalsShown
      ensures gs[i].rows == Map(FirstFive(InPlatform(arrivals, gs[i].title)), MetroRowOf)
    {
      assert gs[i] == GroupFor(arrivals)(sorted[i]);
      assert sorted[i] in multiset(sorted);
      KeyHasBucket(arrivals, sorted[i]);
    }
  }

  /** The headings of a metro card, top to bottom. */
  function Titles(groups: seq<PlatformGroup>): (r: seq<string>)
    ensures |r| == |groups|
    ensures forall i :: 0 <= i < |groups| ==> r[i] == groups[i].title
  {
    if groups == [] then [] else [groups[0].title] + Titles(groups[1..])
  }

  /** The headings are the bucket keys in comparator order. */
  lemma PlatformGroupTitles(arrivals: seq<Arrival>, platformLe: (string, string) -> bool)
    ensures Titles(PlatformGroups(arrivals, platformLe)) == SortWith(PlatformKeys(arrivals), platformLe)
  {
  }

  /** No platform heading appears twice. */
  lemma PlatformTitlesDistinct(arrivals: seq<Arrival>, platformLe: (string, string) -> bool)
    ensures Distinct(Titles(PlatformGroups(arrivals, platformLe)))
  {
    PlatformGroupTitles(arrivals, platformLe);
    SortWithDistinct(PlatformKeys(arrivals), platformLe);
  }

  /** Every arrival's platform has a heading. */
  lemma PlatformTitlesCover(arrivals: seq<Arrival>, platformLe: (string, string) -> bool)
    ensures forall k :: 0 <= k < |arrivals| ==> PlatformOf(arrivals[k]) in Titles(PlatformGroups(arrivals, platformLe))
  {
    PlatformGroupTitles(arrivals, platformLe);
    forall k | 0 <= k < |arrivals|
      ensures PlatformOf(arrivals[k]) in SortWith(PlatformKeys(arrivals), platformLe)
    {
      ArrivalHasKey(arrivals, k);
      SortWithMembers(PlatformKeys(arrivals), platformLe, PlatformOf(arrivals[k]));
    }
  }

  /** The headings follow the comparator whenever it orders every pair. */
  lemma PlatformTitlesOrdered(arrivals: seq<Arrival>, platformLe: (string, string) -> bool)
    requires Connected(platformLe)
    ensures ChainedBy(Titles(PlatformGroups(arrivals, platformLe)), platformLe)
  {
    PlatformGroupTitles(arrivals, platformLe);
    SortWithOrdered(PlatformKeys(arrivals), platformLe);
  }

  // ---------------------------------------------------------------------
  // Stop cards (index.js:36-139)
  // ---------------------------------------------------------------------

  /** `value ? value : ''` on an optional text field. */
  function Present(o: Option<string>): (r: Option<string>)
    ensures r.Some? <==> o.Some? && o.value != ""
    ensures r.Some? ==> r == o
  {
    if o.Some? && o.value != "" then o else None
  }

  function CardOf(s: StopWithArrivals, platformLe: (string, string) -> bool): (c: Card)
    ensures c.distance == s.stop.distance
    ensures c.name == s.stop.commonName
    ensures c.disrupted <==> s.stop.status == Some(false)
    ensures c.MetroCard? <==> s.stop.stopType == MetroStationType
    ensures c.MetroCard? ==> c.platforms == PlatformGroups(s.arrivals, platformLe)
    ensures c.BusCard? ==> c.rows == Map(FirstFive(s.arrivals), BusRowOf)
    ensures c.BusCard? ==> c.stopLetter == Present(s.stop.stopLetter)
    ensures c.BusCard? ==> c.direction == Present(s.stop.direction)
    ensures c.BusCard? ==> c.towards == Present(s.stop.towards)
  {
    var stop := s.stop;
    var disrupted := stop.status == Some(false);
    if stop.stopType == MetroStationType then
      MetroCard(stop.commonName, disrupted, stop.distance, PlatformGroups(s.arrivals, platformLe))
    else
      BusCard(stop.commonName, Present(stop.stopLetter), Present(stop.direction), Present(stop.towards),
              disrupted, stop.distance, Map(FirstFive(s.arrivals), BusRowOf))
  }

  function CardFor(platformLe: (string, string) -> bool): StopWithArrivals -> Card
  {
    s => CardOf(s, platformLe)
  }

  function CardDistance(c: Card): int { c.distance }

  /** `createStopCardsHTML`: the stops sorted by distance (a stable sort),
      one card each. */
  function StopCards(stops: seq<StopWithArrivals>, platformLe: (string, string) -> bool): seq<Card>
  {
    Map(SortBy(stops, StopDistance), CardFor(platformLe))
  }

  /** The cards come out nearest first, one per stop: a permutation of the
      stops' cards in which stops at equal distance keep their order. */
  lemma StopCardsArrangement(stops: seq<StopWithArrivals>, platformLe: (string, string) -> bool)
    ensures var cards := StopCards(stops, platformLe);
      && |cards| == |stops|
      && SortedBy(cards, CardDistance)
      && multiset(cards) == multiset(Map(stops, CardFor(platformLe)))
      && forall d :: KeyFilter(cards, CardDistance, d) == Map(KeyFilter(stops, StopDistance, d), CardFor(platformLe))
  {
    var sorted := SortBy(stops, StopDistance);
    var f := CardFor(platformLe);
    var cards := Map(sorted, f);
    assert forall i :: 0 <= i < |cards| ==> CardDistance(cards[i]) == StopDistance(sorted[i]);
    SortByMapPermutation(stops, StopDistance, f);
    forall d ensures KeyFilter(cards, CardDistance, d) == Map(KeyFilter(stops, StopDistance, d), f) {
      SortByStable(stops, StopDistance, d);
      MapKeyFilter(sorted, f, StopDistance, CardDistance, d);
    }
  }

  /** Cards of a list that is already in distance order come out in that order. */
  lemma StopCardsOfSorted(stops: seq<StopWithArrivals>, platformLe: (string, string) -> bool)
    requires SortedBy(stops, StopDistance)
    ensures StopCards(stops, platformLe) == Map(stops, CardFor(platformLe))
  {
    SortBySortedIdentity(stops, StopDistance);
  }

  // ---------------------------------------------------------------------
  // render (index.js:142-161)
  // ---------------------------------------------------------------------

  /** The view for a state, by priority: spinner, then error only, then
      "nothing found" while there are no stops; otherwise the cards, under
      an error banner when there is an error to show. */
  function RenderView(stops: seq<StopWithArrivals>, isRefreshing: bool, loadingMessage: LoadingMessage,
                      error: Option<string>, platformLe: (string, string) -> bool): (v: View)
    ensures v.Spinner? <==> stops == [] && isRefreshing
    ensures v.ErrorDisplay? <==> stops == [] && !isRefreshing && Present(error).Some?
    ensures v.NothingFound? <==> stops == [] && !isRefreshing && Present(error).None?
    ensures v.StopList? <==> stops != []
    ensures v.Spinner? ==> v.loading == loadingMessage
    ensures v.ErrorDisplay? ==> v.message == error.value
    ensures v.StopList? ==> v.banner == Present(error) && v.cards == StopCards(stops, platformLe)
  {
    if stops == [] then
      if isRefreshing then Spinner(loadingMessage)
      else if Present(error).Some? then ErrorDisplay(error.value)
      else NothingFound
    else
      StopList(Present(error), StopCards(stops, platformLe))
  }

  /** Rendering does not depend on the order of the stop list, only on its
      distance order: the list `render` leaves behind renders the same. */
  lemma RenderViewAfterSort(stops: seq<StopWithArrivals>, isRefreshing: bool, loadingMessage: LoadingMessage,
                            error: Option<string>, platformLe: (string, string) -> bool)
    ensures RenderView(SortBy(stops, StopDistance), isRefreshing, loadingMessage, error, platformLe)
         == RenderView(stops, isRefreshing, loadingMessage, error, platformLe)
  {
    SortByIdempotent(stops, StopDistance);
  }
}
