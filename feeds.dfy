/** News ingestion: the keyword threat classifier, the per-feed entry filter,
    the severity/recency sort and the 40-character title de-duplication
    (feeds/feeds.go). RSS fetching and parsing are outside the model: a feed
    arrives as the sequence of entries gofeed would have produced. */
module Feeds {
  import opened Wrappers
  import opened Strings

  // ---------------------------------------------------------------------------
  // Threat levels
  // ---------------------------------------------------------------------------

  /** feeds.ThreatLevel is a plain Go int; the five named levels are 0..4. */
  type ThreatLevel = int

  const ThreatInfo: ThreatLevel := 0
  const ThreatLow: ThreatLevel := 1
  const ThreatMedium: ThreatLevel := 2
  const ThreatHigh: ThreatLevel := 3
  const ThreatCritical: ThreatLevel := 4

  /** ThreatLevel.String: the upper-case name of a named level, "INFO" otherwise. */
  function LevelName(t: ThreatLevel): (r: string)
    ensures t == ThreatCritical <==> r == "CRITICAL"
    ensures t == ThreatHigh <==> r == "HIGH"
    ensures t == ThreatMedium <==> r == "MEDIUM"
    ensures t == ThreatLow <==> r == "LOW"
    ensures !(ThreatLow <= t <= ThreatCritical) <==> r == "INFO"
  {
    if t == ThreatCritical then "CRITICAL"
    else if t == ThreatHigh then "HIGH"
    else if t == ThreatMedium then "MEDIUM"
    else if t == ThreatLow then "LOW"
    else "INFO"
  }

  datatype NewsItem = NewsItem(
    title: string,
    source: string,
    published: int,
    url: string,
    level: ThreatLevel,
    category: string,
    isLocal: bool)

  // ---------------------------------------------------------------------------
  // Classifier
  // ---------------------------------------------------------------------------

  datatype KeywordTier = KeywordTier(level: ThreatLevel, category: string, words: seq<string>)

  /** threatKeywords, in scan order; each tier's word list is its own
      constant so that a proof about one tier does not unfold the others. */
  const ThreatKeywords: seq<KeywordTier> := [
    KeywordTier(ThreatCritical, "conflict", ConflictWords),
    KeywordTier(ThreatHigh, "security", SecurityWords),
    KeywordTier(ThreatHigh, "disaster", DisasterWords),
    KeywordTier(ThreatMedium, "politics", PoliticsWords),
    KeywordTier(ThreatMedium, "economy", EconomyWords),
    KeywordTier(ThreatMedium, "cyber", CyberWords),
    KeywordTier(ThreatLow, "general", GeneralWords)
  ]

  const ConflictWords: seq<string> := [
    "nuclear", "missile strike", "war declared", "invasion", "airstrike kills",
    "coup", "assassination", "mass casualty", "chemical weapon", "dirty bomb",
    "martial law", "genocide"]
  const SecurityWords: seq<string> := [
    "attack", "bombing", "explosion", "shooting", "killed", "hostage",
    "terrorist", "conflict", "offensive", "troops deployed", "sanctions",
    "ceasefire", "escalation", "warship", "military exercises"]
  const DisasterWords: seq<string> := [
    "earthquake", "tsunami", "hurricane", "typhoon", "flood kills",
    "wildfire", "eruption", "catastrophic"]
  const PoliticsWords: seq<string> := [
    "election", "protest", "crisis", "emergency", "shutdown",
    "impeachment", "indicted", "arrested", "detained", "expelled",
    "diplomatic", "summit", "agreement"]
  const EconomyWords: seq<string> := [
    "recession", "crash", "collapse", "default", "bankrupt",
    "inflation", "unemployment spike", "rate hike", "supply chain"]
  const CyberWords: seq<string> := [
    "hack", "breach", "ransomware", "cyberattack", "data leak",
    "malware", "phishing campaign", "zero-day"]
  const GeneralWords: seq<string> := [
    "trade deal", "policy", "reform", "budget", "statement",
    "meeting", "conference", "report"]

  ghost predicate TierMatches(lower: string, tier: KeywordTier) {
    exists k :: 0 <= k < |tier.words| && Contains(lower, tier.words[k])
  }

  /** The inner keyword loop: does any word of the list occur in `lower`? */
  function AnyContained(lower: string, words: seq<string>): (b: bool)
    ensures b <==> exists k :: 0 <= k < |words| && Contains(lower, words[k])
  {
    if |words| == 0 then false
    else if Contains(lower, words[0]) then true
    else
      var b := AnyContained(lower, words[1..]);
      assert b ==> exists k :: 0 <= k < |words| && Contains(lower, words[k]) by {
        if b {
          var k :| 0 <= k < |words| - 1 && Contains(lower, words[1..][k]);
          assert Contains(lower, words[k + 1]);
        }
      }
      assert (exists k :: 0 <= k < |words| && Contains(lower, words[k])) ==> b by {
        if exists k :: 0 <= k < |words| && Contains(lower, words[k]) {
          var k :| 0 <= k < |words| && Contains(lower, words[k]);
          assert k != 0 && Contains(lower, words[1..][k - 1]);
        }
      }
      b
  }

  /** The outer tier loop with its early return: the index of the first tier
      that has a matching keyword. */
  function FirstMatchingTier(lower: string, tiers: seq<KeywordTier>): (r: Option<nat>)
    ensures r.Some? ==> r.value < |tiers| && TierMatches(lower, tiers[r.value])
    ensures r.Some? ==> forall t :: 0 <= t < r.value ==> !TierMatches(lower, tiers[t])
    ensures r.None? ==> forall t :: 0 <= t < |tiers| ==> !TierMatches(lower, tiers[t])
  {
    if |tiers| == 0 then None
    else if AnyContained(lower, tiers[0].words) then Some(0)
    else
      match FirstMatchingTier(lower, tiers[1..])
      case None =>
        assert forall t :: 1 <= t < |tiers| ==> tiers[t] == tiers[1..][t - 1];
        None
      case Some(t) =>
        assert forall u :: 1 <= u <= t ==> tiers[u] == tiers[1..][u - 1];
        Some(t + 1)
  }

  /** classifyThreat: the level and category of the first tier, in table order,
      with a keyword contained in the lower-cased title; Info/"general" when no
      tier matches. */
  function ClassifyThreat(title: string): (r: (ThreatLevel, string))
    ensures r == (ThreatInfo, "general")
      || exists t :: 0 <= t < |ThreatKeywords| && r == (ThreatKeywords[t].level, ThreatKeywords[t].category)
  {
    var lower := ToLower(title);
    match FirstMatchingTier(lower, ThreatKeywords)
    case Some(t) => (ThreatKeywords[t].level, ThreatKeywords[t].category)
    case None => (ThreatInfo, "general")
  }

  /** The classification is the first tier, in table order, with a keyword in
      the lower-cased title, or Info/"general" when there is none. */
  lemma ClassifyIsFirstMatch(title: string)
    ensures var lower := ToLower(title); var r := ClassifyThreat(title);
      || (exists t :: 0 <= t < |ThreatKeywords| && TierMatches(lower, ThreatKeywords[t])
            && (forall u :: 0 <= u < t ==> !TierMatches(lower, ThreatKeywords[u]))
            && r == (ThreatKeywords[t].level, ThreatKeywords[t].category))
      || ((forall t :: 0 <= t < |ThreatKeywords| ==> !TierMatches(lower, ThreatKeywords[t]))
            && r == (ThreatInfo, "general"))
  {
    var lower := ToLower(title);
    var first := FirstMatchingTier(lower, ThreatKeywords);
    if first.Some? {
      var t := first.value;
      assert TierMatches(lower, ThreatKeywords[t]);
    }
  }

  lemma ClassifiedLevelIsNamed(title: string)
    ensures ThreatInfo <= ClassifyThreat(title).0 <= ThreatCritical
  {
    var first := FirstMatchingTier(ToLower(title), ThreatKeywords);
    if first.Some? {
      var t := first.value;
      assert ThreatKeywords[t].level in {ThreatCritical, ThreatHigh, ThreatMedium, ThreatLow};
    }
  }

  /** A title holding any critical keyword is Critical/"conflict", whatever
      lower-tier keywords it also holds: the critical tier is scanned first. */
  lemma CriticalWins(title: string)
    requires AnyContained(ToLower(title), ConflictWords)
    ensures ClassifyThreat(title) == (ThreatCritical, "conflict")
  {
  }

  /** An instance of CriticalWins: "election" is a medium keyword, but
      "nuclear" is critical. */
  lemma CriticalBeatsMedium()
    ensures ClassifyThreat("Nuclear election") == (ThreatCritical, "conflict")
  {
    var lower := ToLower("Nuclear election");
    assert lower == "nuclear election";
    assert InfixAt(lower, "nuclear", 0);
    assert AnyContained(lower, ThreatKeywords[0].words);
    assert FirstMatchingTier(lower, ThreatKeywords) == Some(0);
  }

  /** "cyberattack" contains "attack", which the security tier scans before the
      cyber tier's own keyword "cyberattack": a title with "cyberattack" in it
      and no critical keyword is classified as security, never as cyber. */
  lemma CyberattackIsSecurity(title: string)
    requires Contains(ToLower(title), "cyberattack")
    requires !AnyContained(ToLower(title), ConflictWords)
    ensures ClassifyThreat(title) == (ThreatHigh, "security")
  {
    var lower := ToLower(title);
    AttackInCyberattack(lower);
    assert Contains(lower, SecurityWords[0]);
    assert AnyContained(lower, SecurityWords);
    var rest := ThreatKeywords[1..];
    assert rest[0] == ThreatKeywords[1];
    assert FirstMatchingTier(lower, rest) == Some(0);
  }

  /** The title "Cyberattack" meets the conditions of CyberattackIsSecurity. */
  lemma CyberattackTitleQualifies()
    ensures Contains(ToLower("Cyberattack"), "cyberattack")
    ensures !AnyContained(ToLower("Cyberattack"), ConflictWords)
  {
    LowerCyberattack();
    CyberattackLacksCriticalLetters();
    CriticalNeedsLetters("cyberattack");
    ContainsItself("cyberattack");
  }

  lemma LowerCyberattack()
    ensures ToLower("Cyberattack") == "cyberattack"
  {
  }

  lemma CyberattackLacksCriticalLetters()
    ensures LacksCriticalLetters("cyberattack")
  {
  }

  /** Whatever contains "cyberattack" contains "attack". */
  lemma AttackInCyberattack(text: string)
    requires Contains(text, "cyberattack")
    ensures Contains(text, "attack")
  {
    var i :| InfixAt(text, "cyberattack", i);
    assert "cyberattack"[5..] == "attack";
    assert text[i + 5..i + 11] == text[i..i + 11][5..];
    assert InfixAt(text, "attack", i + 5);
  }

  /** The letters n, m, w, i, o, s, h, d, g: each critical keyword has one. */
  predicate CriticalLetter(c: char) {
    c == 'n' || c == 'm' || c == 'w' || c == 'i' || c == 'o' ||
    c == 's' || c == 'h' || c == 'd' || c == 'g'
  }

  predicate LacksCriticalLetters(text: string) {
    forall k | 0 <= k < |text| :: !CriticalLetter(text[k])
  }

  lemma LacksLetter(text: string, c: char)
    requires LacksCriticalLetters(text) && CriticalLetter(c)
    ensures c !in text
  {
  }

  /** A text without any of those letters misses the whole critical tier. */
  lemma CriticalNeedsLetters(text: string)
    requires LacksCriticalLetters(text)
    ensures !AnyContained(text, ConflictWords)
  {
    var words := ConflictWords;
    CriticalTailNeedsLetters(text);
    MissesFrom(text, words, 5, 1);
    MissesFrom(text, words, 4, 1);
    MissesFrom(text, words, 3, 0);
    MissesFrom(text, words, 2, 0);
    MissesFrom(text, words, 1, 0);
    MissesFrom(text, words, 0, 0);
    assert words[0..] == words;
  }

  lemma CriticalTailNeedsLetters(text: string)
    requires LacksCriticalLetters(text)
    ensures !AnyContained(text, ConflictWords[6..])
  {
    var words := ConflictWords;
    assert words[12..] == [];
    MissesFrom(text, words, 11, 0);
    MissesFrom(text, words, 10, 0);
    MissesFrom(text, words, 9, 0);
    MissesFrom(text, words, 8, 1);
    MissesFrom(text, words, 7, 0);
    MissesFrom(text, words, 6, 1);
  }

  /** A word with a critical letter (its `j`th), in front of words none of
      which occurs in a text lacking those letters, leaves no word occurring. */
  lemma MissesFrom(text: string, words: seq<string>, i: nat, j: nat)
    requires LacksCriticalLetters(text)
    requires i < |words| && j < |words[i]| && CriticalLetter(words[i][j])
    requires !AnyContained(text, words[i + 1..])
    ensures !AnyContained(text, words[i..])
  {
    assert words[i..][1..] == words[i + 1..];
    LacksLetter(text, words[i][j]);
    AbsentLetter(text, words[i], words[i][j]);
  }

  /** A word with a letter the text lacks does not occur in it. */
  lemma AbsentLetter(text: string, w: string, c: char)
    requires c in w && c !in text
    ensures !Contains(text, w)
  {
  }

  // ---------------------------------------------------------------------------
  // Ingestion of one parsed feed (the body of the per-source goroutine)
  // ---------------------------------------------------------------------------

  /** An RSS entry as gofeed parses it; times are integer seconds. */
  datatype FeedEntry = FeedEntry(
    title: string,
    link: string,
    publishedParsed: Option<int>,
    updatedParsed: Option<int>)

  const DaySeconds: int := 24 * 60 * 60

  /** The publish time: PublishedParsed, else UpdatedParsed, else now. */
  function EntryTime(e: FeedEntry, now: int): int {
    if e.publishedParsed.Some? then e.publishedParsed.value
    else if e.updatedParsed.Some? then e.updatedParsed.value
    else now
  }

  /** An entry survives when it has a title and is not older than the cutoff. */
  predicate Keeps(e: FeedEntry, now: int) {
    e.title != "" && !(EntryTime(e, now) < now - DaySeconds)
  }

  function ToItem(e: FeedEntry, name: string, isLocal: bool, now: int): NewsItem {
    var (level, cat) := ClassifyThreat(e.title);
    NewsItem(e.title, name, EntryTime(e, now), e.link, level, cat, isLocal)
  }

  /** The news items the first `n` entries of a feed contribute. */
  function Ingested(entries: seq<FeedEntry>, n: nat, name: string, isLocal: bool, now: int): (items: seq<NewsItem>)
    requires n <= |entries|
    ensures |items| <= n
  {
    if n == 0 then []
    else
      var prev := Ingested(entries, n - 1, name, isLocal, now);
      var e := entries[n - 1];
      if Keeps(e, now) then prev + [ToItem(e, name, isLocal, now)] else prev
  }

  /** An ingested item has a title, is at most a day old, carries its feed's
      name and locality, and is classified by its title. */
  predicate FreshItem(item: NewsItem, name: string, isLocal: bool, now: int) {
    && item.title != "" && item.published >= now - DaySeconds
    && item.source == name && item.isLocal == isLocal
    && (item.level, item.category) == ClassifyThreat(item.title)
  }

  lemma {:induction false} IngestedAreFresh(entries: seq<FeedEntry>, n: nat, name: string, isLocal: bool, now: int)
    requires n <= |entries|
    ensures forall item | item in Ingested(entries, n, name, isLocal, now) :: FreshItem(item, name, isLocal, now)
  {
    if n > 0 {
      IngestedAreFresh(entries, n - 1, name, isLocal, now);
      var prev := Ingested(entries, n - 1, name, isLocal, now);
      var e := entries[n - 1];
      if Keeps(e, now) {
        assert FreshItem(ToItem(e, name, isLocal, now), name, isLocal, now);
      }
    }
  }

  /** Every kept entry yields an item, in entry order, and no other entry does. */
  lemma {:induction false} IngestedCount(entries: seq<FeedEntry>, n: nat, name: string, isLocal: bool, now: int)
    requires n <= |entries|
    ensures |Ingested(entries, n, name, isLocal, now)| == |set k | 0 <= k < n && Keeps(entries[k], now)|
  {
    if n > 0 {
      IngestedCount(entries, n - 1, name, isLocal, now);
      var before := set k | 0 <= k < n - 1 && Keeps(entries[k], now);
      var after := set k | 0 <= k < n && Keeps(entries[k], now);
      var prev := Ingested(entries, n - 1, name, isLocal, now);
      if Keeps(entries[n - 1], now) {
        assert Ingested(entries, n, name, isLocal, now) == prev + [ToItem(entries[n - 1], name, isLocal, now)];
        assert after == before + {n - 1} && n - 1 !in before;
      } else {
        assert Ingested(entries, n, name, isLocal, now) == prev;
        assert after == before;
      }
    }
  }

  /** The entry loop of one feed in fetchFeeds. */
  method IngestEntries(entries: seq<FeedEntry>, name: string, isLocal: bool, now: int)
    returns (items: seq<NewsItem>)
    ensures items == Ingested(entries, |entries|, name, isLocal, now)
  {
    var cutoff := now - DaySeconds;
    items := [];
    var i := 0;
    while i < |entries|
      invariant 0 <= i <= |entries|
      invariant items == Ingested(entries, i, name, isLocal, now)
    {
      var entry := entries[i];
      i := i + 1;
      if entry.title == "" {
        continue;
      }
      var pub := now;
      if entry.publishedParsed.Some? {
        pub := entry.publishedParsed.value;
      } else if entry.updatedParsed.Some? {
        pub := entry.updatedParsed.value;
      }
      if pub < cutoff {
        continue;
      }
      var (level, cat) := ClassifyThreat(entry.title);
      var link := "";
      if entry.link != "" {
        link := entry.link;
      }
      items := items + [NewsItem(entry.title, name, pub, link, level, cat, isLocal)];
    }
  }

  // ---------------------------------------------------------------------------
  // Sort: higher level first, then more recent first
  // ---------------------------------------------------------------------------

  /** The sort.Slice comparator as a total preorder: may `x` precede `y`? */
  predicate Before(x: NewsItem, y: NewsItem) {
    x.level > y.level || (x.level == y.level && x.published >= y.published)
  }

  predicate SortedBySeverity(s: seq<NewsItem>) {
    forall i, j :: 0 <= i < j < |s| ==> Before(s[i], s[j])
  }

  /** sort.Slice in place. The library does not promise stability, so the
      contract says only "ordered and a permutation"; full ties may come out in
      any order. */
  method SortBySeverity(a: array<NewsItem>)
    modifies a
    ensures SortedBySeverity(a[..])
    ensures multiset(a[..]) == multiset(old(a[..]))
  {
    if a.Length == 0 {
      return;
    }
    var i := 1;
    while i < a.Length
      invariant 1 <= i <= a.Length
      invariant forall p, q :: 0 <= p < q < i ==> Before(a[p], a[q])
      invariant multiset(a[..]) == multiset(old(a[..]))
    {
      var j := i;
      while j > 0 && !Before(a[j - 1], a[j])
        invariant 0 <= j <= i < a.Length
        invariant forall p, q :: 0 <= p < q <= i && q != j ==> Before(a[p], a[q])
        invariant multiset(a[..]) == multiset(old(a[..]))
      {
        a[j - 1], a[j] := a[j], a[j - 1];
        j := j - 1;
      }
      i := i + 1;
    }
  }

  // ---------------------------------------------------------------------------
  // De-duplication on the lower-cased 40-character title prefix
  // ---------------------------------------------------------------------------

  /** The de-duplication key: the first 40 characters of the title, lowercased. */
  function TitleKey(title: string): (r: string)
    ensures |r| == (if |title| < 40 then |title| else 40)
    ensures forall k :: 0 <= k < |r| ==> r[k] == LowerChar(title[k])
  {
    ToLower(title[..if |title| < 40 then |title| else 40])
  }

  function KeysOf(s: seq<NewsItem>): set<string> {
    set k | 0 <= k < |s| :: TitleKey(s[k].title)
  }

  /** Item `i` is the first one with its key. */
  ghost predicate FirstWithKey(s: seq<NewsItem>, i: int)
    requires 0 <= i < |s|
  {
    forall j :: 0 <= j < i ==> TitleKey(s[j].title) != TitleKey(s[i].title)
  }

  /** The first-seen items among the first `n`, in order. */
  ghost function FirstOfEachKey(s: seq<NewsItem>, n: nat): seq<NewsItem>
    requires n <= |s|
  {
    if n == 0 then []
    else if FirstWithKey(s, n - 1) then FirstOfEachKey(s, n - 1) + [s[n - 1]]
    else FirstOfEachKey(s, n - 1)
  }

  /** The de-duplication loop of fetchFeeds, with its `seen` set. */
  method Dedup(items: seq<NewsItem>) returns (deduped: seq<NewsItem>)
    ensures deduped == FirstOfEachKey(items, |items|)
  {
    var seen: set<string> := {};
    deduped := [];
    var i := 0;
    while i < |items|
      invariant 0 <= i <= |items|
      invariant seen == KeysOf(items[..i])
      invariant deduped == FirstOfEachKey(items, i)
    {
      var item := items[i];
      var key := TitleKey(item.title);
      assert key in seen <==> !FirstWithKey(items, i) by {
        if key in seen {
          var j :| 0 <= j < i && TitleKey(items[..i][j].title) == key;
          assert items[..i][j] == items[j];
        }
        if !FirstWithKey(items, i) {
          var j :| 0 <= j < i && TitleKey(items[j].title) == key;
          assert items[..i][j] == items[j];
        }
      }
      if key !in seen {
        seen := seen + {key};
        deduped := deduped + [item];
      }
      assert items[..i + 1] == items[..i] + [item];
      assert KeysOf(items[..i + 1]) == KeysOf(items[..i]) + {key};
      i := i + 1;
    }
    assert items[..i] == items;
  }

  /** The indices of the items FirstOfEachKey keeps: de-duplication keeps an
      order-preserving subsequence made of first-of-their-key items. */
  ghost function KeptIndices(s: seq<NewsItem>, n: nat): (idx: seq<nat>)
    requires n <= |s|
    ensures |idx| == |FirstOfEachKey(s, n)|
    ensures forall k :: 0 <= k < |idx| ==>
      idx[k] < n && FirstOfEachKey(s, n)[k] == s[idx[k]] && FirstWithKey(s, idx[k])
    ensures forall k, l :: 0 <= k < l < |idx| ==> idx[k] < idx[l]
  {
    if n == 0 then []
    else if FirstWithKey(s, n - 1) then KeptIndices(s, n - 1) + [n - 1]
    else KeptIndices(s, n - 1)
  }

  /** No two surviving items share a key. */
  lemma {:induction false} DedupKeysDistinct(s: seq<NewsItem>, n: nat)
    requires n <= |s|
    ensures var r := FirstOfEachKey(s, n);
      forall k, l :: 0 <= k < l < |r| ==> TitleKey(r[k].title) != TitleKey(r[l].title)
  {
    var r, idx := FirstOfEachKey(s, n), KeptIndices(s, n);
    forall k, l | 0 <= k < l < |r|
      ensures TitleKey(r[k].title) != TitleKey(r[l].title)
    {
      assert idx[k] < idx[l] && FirstWithKey(s, idx[l]);
    }
  }

  /** Every key of the input survives. */
  lemma {:induction false} DedupKeepsEveryKey(s: seq<NewsItem>, n: nat)
    requires n <= |s|
    ensures KeysOf(FirstOfEachKey(s, n)) == KeysOf(s[..n])
  {
    if n > 0 {
      DedupKeepsEveryKey(s, n - 1);
      var r := FirstOfEachKey(s, n);
      var key := TitleKey(s[n - 1].title);
      assert s[..n] == s[..n - 1] + [s[n - 1]];
      assert KeysOf(s[..n]) == KeysOf(s[..n - 1]) + {key};
      if FirstWithKey(s, n - 1) {
        KeysOfAppend(FirstOfEachKey(s, n - 1), s[n - 1]);
      } else {
        var j :| 0 <= j < n - 1 && TitleKey(s[j].title) == key;
        assert s[..n - 1][j] == s[j];
        assert key in KeysOf(s[..n - 1]);
      }
    }
  }

  lemma KeysOfAppend(r: seq<NewsItem>, x: NewsItem)
    ensures KeysOf(r + [x]) == KeysOf(r) + {TitleKey(x.title)}
  {
    var rx := r + [x];
    assert rx[|r|] == x;
    forall key | key in KeysOf(r) ensures key in KeysOf(rx) {
      var k :| 0 <= k < |r| && TitleKey(r[k].title) == key;
      assert rx[k] == r[k];
    }
  }

  // ---------------------------------------------------------------------------
  // The tail of fetchFeeds
  // ---------------------------------------------------------------------------

  /** One source's outcome: the entries of its parsed feed, or None when the
      fetch or parse failed (that source is then silently skipped). */
  datatype SourceFeed = SourceFeed(name: string, parsed: Option<seq<FeedEntry>>)

  /** All items collected, in the order the sources finished. */
  function Collected(done: seq<SourceFeed>, isLocal: bool, now: int): seq<NewsItem> {
    if |done| == 0 then []
    else
      var last := done[|done| - 1];
      var prev := Collected(done[..|done| - 1], isLocal, now);
      match last.parsed
      case None => prev
      case Some(es) => prev + Ingested(es, |es|, last.name, isLocal, now)
  }

  /** fetchFeeds after the WaitGroup: the items of every source that parsed,
      sorted, then de-duplicated. It never reports an error. */
  method FetchFeeds(done: seq<SourceFeed>, isLocal: bool, now: int)
    returns (deduped: seq<NewsItem>, ghost sorted: seq<NewsItem>)
    ensures multiset(sorted) == multiset(Collected(done, isLocal, now))
    ensures SortedBySeverity(sorted)
    ensures deduped == FirstOfEachKey(sorted, |sorted|)
  {
    var items: seq<NewsItem> := [];
    var s := 0;
    while s < |done|
      invariant 0 <= s <= |done|
      invariant items == Collected(done[..s], isLocal, now)
    {
      assert done[..s + 1][..s] == done[..s];
      var src := done[s];
      if src.parsed.Some? {
        var got := IngestEntries(src.parsed.value, src.name, isLocal, now);
        items := items + got;
      }
      s := s + 1;
    }
    assert done[..s] == done;
    var a := new NewsItem[|items|](k requires 0 <= k < |items| => items[k]);
    assert a[..] == items;
    SortBySeverity(a);
    sorted := a[..];
    deduped := Dedup(a[..]);
  }
}
