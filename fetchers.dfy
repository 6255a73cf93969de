/**
 * The mock fetchers: the sector-scoped updates feed, the alerts list and the
 * profile save that echoes its input. Their simulated latency is left out;
 * each is the value the awaited promise resolves to.
 */
module Fetchers {
  import opened Wrappers
  import opened MockData

  // ------------------------------------------------------- lower-casing

  /** Lower-cases one ASCII letter and leaves every other character alone. */
  function LowerChar(c: char): (r: char)
    ensures 'A' <= c <= 'Z' ==> r == "abcdefghijklmnopqrstuvwxyz"[c as int - 'A' as int]
    ensures !('A' <= r <= 'Z')
  {
    if 'A' <= c <= 'Z' then (c as int + 32) as char else c
  }

  predicate IsLowerCase(s: string) {
    forall i :: 0 <= i < |s| ==> !('A' <= s[i] <= 'Z')
  }

  /** The string with every ASCII capital replaced by its small letter. */
  function ToLower(s: string): (r: string)
    ensures |r| == |s|
    ensures forall i :: 0 <= i < |s| ==> r[i] == LowerChar(s[i])
    ensures IsLowerCase(r)
  {
    if s == [] then [] else [LowerChar(s[0])] + ToLower(s[1..])
  }

  /** A string that is already lower-case comes back unchanged. */
  lemma ToLowerKeepsLowerCase(s: string)
    requires IsLowerCase(s)
    ensures ToLower(s) == s
  {
  }

  /** Lower-casing twice is lower-casing once. */
  lemma ToLowerIdempotent(s: string)
    ensures ToLower(ToLower(s)) == ToLower(s)
  {
  }

  // ------------------------------------------------------- updates feed

  /**
   * The key the feed filters on: a missing or empty sector falls back to "all",
   * anything else is lower-cased.
   */
  function SectorKey(sector: Option<string>): (key: string)
    ensures sector.None? || sector == Some("") ==> key == "all"
    ensures sector.Some? && sector.value != "" ==>
              |key| == |sector.value| && forall i :: 0 <= i < |key| ==> key[i] == LowerChar(sector.value[i])
    ensures IsLowerCase(key)
  {
    match sector
    case None => "all"
    case Some(s) => if s == "" then "all" else ToLower(s)
  }

  /** An update is kept for `key` when it is tagged with that key or with "all". */
  function InScope(u: ComplianceUpdate, key: string): (b: bool)
    ensures key == "all" ==> (b <==> u.sector == "all")
  {
    u.sector == key || u.sector == "all"
  }

  /** `a` is `b` with some elements dropped and the rest kept in order. */
  ghost predicate IsSubsequence<T>(a: seq<T>, b: seq<T>)
    decreases |b|
  {
    a == [] || (b != [] && ((a[0] == b[0] && IsSubsequence(a[1..], b[1..])) || IsSubsequence(a, b[1..])))
  }

  /** The updates of `us` that are in scope for `key`, in their original order. */
  function FilterBySector(us: seq<ComplianceUpdate>, key: string): (r: seq<ComplianceUpdate>)
    ensures |r| <= |us|
  {
    if us == [] then []
    else
      var rest := FilterBySector(us[1..], key);
      if InScope(us[0], key) then [us[0]] + rest else rest
  }

  /** The filter drops entries and keeps the rest in order. */
  lemma {:induction false} FilterIsSubsequence(us: seq<ComplianceUpdate>, key: string)
    ensures IsSubsequence(FilterBySector(us, key), us)
  {
    if us != [] {
      FilterIsSubsequence(us[1..], key);
      var rest := FilterBySector(us[1..], key);
      if InScope(us[0], key) {
        assert ([us[0]] + rest)[1..] == rest;
      }
    }
  }

  /** An update survives the filter exactly when it is in the input and in scope. */
  lemma {:induction false} FilterMembership(us: seq<ComplianceUpdate>, key: string)
    ensures forall u :: u in FilterBySector(us, key) <==> u in us && InScope(u, key)
  {
    if us != [] {
      FilterMembership(us[1..], key);
      assert us == [us[0]] + us[1..];
    }
  }

  /**
   * The updates feed for a requested sector. `since` is accepted and not used:
   * the mock applies no date filter.
   */
  function FetchComplianceUpdates(sector: Option<string>, since: Option<string>): (r: seq<ComplianceUpdate>)
    ensures IsSubsequence(r, MockUpdates)
    ensures forall u :: u in r <==> u in MockUpdates && InScope(u, SectorKey(sector))
  {
    FilterIsSubsequence(MockUpdates, SectorKey(sector));
    FilterMembership(MockUpdates, SectorKey(sector));
    FilterBySector(MockUpdates, SectorKey(sector))
  }

  /** Only the sector decides the feed; the date argument never changes it. */
  lemma SinceIsIgnored(sector: Option<string>, since1: Option<string>, since2: Option<string>)
    ensures FetchComplianceUpdates(sector, since1) == FetchComplianceUpdates(sector, since2)
  {
  }

  /**
   * Asking for "all" does not widen the feed: both halves of the test read
   * `sector == "all"`, so only the updates tagged "all" survive.
   */
  lemma AllKeepsOnlyWildcardUpdates(us: seq<ComplianceUpdate>)
    ensures forall u :: u in FilterBySector(us, "all") <==> u in us && u.sector == "all"
  {
  }

  /** One step of the filter: the head is kept or dropped, the tail is filtered. */
  lemma FilterStep(us: seq<ComplianceUpdate>, key: string)
    requires us != []
    ensures FilterBySector(us, key) == (if InScope(us[0], key) then [us[0]] else []) + FilterBySector(us[1..], key)
  {
  }

  /** The catalogue filtered for `key`, spelled out entry by entry. */
  lemma CatalogueFilter(key: string)
    ensures FilterBySector(MockUpdates, key) ==
              (if InScope(Gst001, key) then [Gst001] else []) +
              (if InScope(Labour017, key) then [Labour017] else []) +
              (if InScope(Safety009, key) then [Safety009] else []) +
              (if InScope(Env103, key) then [Env103] else [])
  {
    var s1, s2, s3 := [Labour017, Safety009, Env103], [Safety009, Env103], [Env103];
    var k0 := if InScope(Gst001, key) then [Gst001] else [];
    var k1 := if InScope(Labour017, key) then [Labour017] else [];
    var k2 := if InScope(Safety009, key) then [Safety009] else [];
    var k3 := if InScope(Env103, key) then [Env103] else [];
    assert FilterBySector(s3, key) == k3 by {
      assert s3[1..] == [];
      FilterStep(s3, key);
    }
    assert FilterBySector(s2, key) == k2 + k3 by {
      assert s2[1..] == s3;
      FilterStep(s2, key);
    }
    assert FilterBySector(s1, key) == k1 + (k2 + k3) by {
      assert s1[1..] == s2;
      FilterStep(s1, key);
    }
    assert FilterBySector(MockUpdates, key) == k0 + (k1 + (k2 + k3)) by {
      assert MockUpdates[1..] == s1;
      FilterStep(MockUpdates, key);
    }
  }

  /** The key a non-empty lower-case request is filtered on is the request itself. */
  lemma LowerCaseKey(s: string)
    requires s != [] && IsLowerCase(s)
    ensures SectorKey(Some(s)) == s
  {
  }

  /** The feed for a lower-case sector, spelled out entry by entry. */
  lemma CatalogueFeed(key: string, since: Option<string>)
    requires key != [] && IsLowerCase(key)
    ensures FetchComplianceUpdates(Some(key), since) ==
              (if InScope(Gst001, key) then [Gst001] else []) +
              (if InScope(Labour017, key) then [Labour017] else []) +
              (if InScope(Safety009, key) then [Safety009] else []) +
              (if InScope(Env103, key) then [Env103] else [])
  {
    LowerCaseKey(key);
    CatalogueFilter(key);
  }

  /** A lower-case sector that tags none of the catalogue's own entries gets the wildcard update alone. */
  lemma OnlyWildcardFeed(key: string, since: Option<string>)
    requires key != [] && IsLowerCase(key) && key !in {"food", "textile", "it"}
    ensures FetchComplianceUpdates(Some(key), since) == [Labour017]
  {
    CatalogueFeed(key, since);
  }

  /** The sector of the GST entry gets that entry followed by the wildcard update; `TextileFeed` rests on it. */
  lemma GstSectorFeed(key: string, since: Option<string>)
    requires key != [] && IsLowerCase(key) && key == Gst001.sector
    ensures FetchComplianceUpdates(Some(key), since) == [Gst001, Labour017]
  {
    CatalogueFeed(key, since);
  }

  lemma FoodFeed(since: Option<string>)
    ensures FetchComplianceUpdates(Some("food"), since) == [Labour017, Safety009]
  {
    CatalogueFeed("food", since);
  }

  lemma TextileFeed(since: Option<string>)
    ensures FetchComplianceUpdates(Some("textile"), since) == [Gst001, Labour017]
  {
    GstSectorFeed("textile", since);
  }

  lemma ItFeed(since: Option<string>)
    ensures FetchComplianceUpdates(Some("it"), since) == [Labour017, Env103]
  {
    CatalogueFeed("it", since);
  }

  /** A sector with no updates of its own gives only the wildcard update. */
  lemma ManufacturingFeed(since: Option<string>)
    ensures FetchComplianceUpdates(Some("manufacturing"), since) == [Labour017]
  {
    OnlyWildcardFeed("manufacturing", since);
  }

  /**
   * Asking for "all", or for no sector at all, gives only the wildcard update,
   * not the whole catalogue.
   */
  lemma AllFeed(since: Option<string>)
    ensures FetchComplianceUpdates(Some("all"), since) == [Labour017]
    ensures FetchComplianceUpdates(None, since) == [Labour017]
    ensures FetchComplianceUpdates(Some(""), since) == [Labour017]
  {
    LowerCaseKey("all");
    CatalogueFilter("all");
  }

  /** The requested sector is matched without regard to ASCII case. */
  lemma SectorIsCaseInsensitive(since: Option<string>)
    ensures FetchComplianceUpdates(Some("FOOD"), since) == [Labour017, Safety009]
  {
    var k := SectorKey(Some("FOOD"));
    assert k == ['f', 'o', 'o', 'd'];
    FoodFeed(since);
  }

  // ----------------------------------------------------- alerts and save

  /** The alerts list: the whole catalogue, whatever enterprise asks. */
  function FetchAlerts(): (r: seq<Alert>)
    ensures |r| == 3
    ensures forall i :: 0 <= i < |r| ==> r[i].severity in {"high", "medium", "low"}
  {
    MockAlerts
  }

  /** What the profile endpoint answers: a success flag and the stored profile. */
  datatype SaveResponse = SaveResponse(ok: bool, profile: Profile)

  /** The mock save always succeeds and stores exactly what it was sent. */
  function SaveProfile(profile: Profile): SaveResponse {
    SaveResponse(true, profile)
  }
}
