/** The sector selector's options and the alert severity badge. */
module UiHelpers {
  import opened MockData
  import Fetchers

  datatype SectorOption = SectorOption(key: string, caption: string)

  /** The sectors both selectors offer, in display order. */
  const Sectors: seq<SectorOption> := [
    SectorOption("food", "Processed Food / Restaurants"),
    SectorOption("textile", "Textile / Apparel"),
    SectorOption("it", "IT / Services"),
    SectorOption("manufacturing", "Manufacturing"),
    SectorOption("all", "All Sectors")
  ]

  /** The keys of a list of options. */
  function KeysOf(options: seq<SectorOption>): set<string> {
    if options == [] then {} else {options[0].key} + KeysOf(options[1..])
  }

  /** The keys of `Sectors`. */
  const SectorKeys: set<string> := KeysOf(Sectors)

  /** The keys the selectors offer, written out. */
  lemma SectorKeysListed()
    ensures SectorKeys == {"food", "textile", "it", "manufacturing", "all"}
  {
    var s := Sectors;
    assert KeysOf(s[4..]) == {"all"} by { assert s[4..][1..] == []; }
    assert KeysOf(s[3..]) == {"manufacturing", "all"} by { assert s[3..][1..] == s[4..]; }
    assert KeysOf(s[2..]) == {"it", "manufacturing", "all"} by { assert s[2..][1..] == s[3..]; }
    assert KeysOf(s[1..]) == {"textile", "it", "manufacturing", "all"} by { assert s[1..][1..] == s[2..]; }
  }

  const HighBadge := "bg-red-100 text-red-700 border-red-200"
  const MediumBadge := "bg-amber-100 text-amber-700 border-amber-200"
  const LowBadge := "bg-emerald-100 text-emerald-700 border-emerald-200"
  const DefaultBadge := "bg-slate-100 text-slate-700 border-slate-200"

  /** The severity lookup table. */
  const SeverityClasses: map<string, string> := map["high" := HighBadge, "medium" := MediumBadge, "low" := LowBadge]

  /**
   * The class string for a severity: the table's entry when it has a non-empty
   * one (the `||` falls back on a miss or a falsy value), otherwise the slate default.
   */
  function SeverityBadge(s: string): (r: string)
    ensures r == DefaultBadge <==> s != "high" && s != "medium" && s != "low"
    ensures s == "high" ==> r == HighBadge
    ensures s == "medium" ==> r == MediumBadge
    ensures s == "low" ==> r == LowBadge
  {
    if s in SeverityClasses && SeverityClasses[s] != "" then SeverityClasses[s] else DefaultBadge
  }

  /** The three known severities get pairwise different badges. */
  lemma SeverityBadgeInjective(a: string, b: string)
    requires a in SeverityClasses && b in SeverityClasses
    requires SeverityBadge(a) == SeverityBadge(b)
    ensures a == b
  {
  }

  /** Every alert the alerts fetcher serves is drawn with a severity colour, never the default. */
  lemma AlertsHaveKnownSeverity()
    ensures forall a :: a in Fetchers.FetchAlerts() ==> SeverityBadge(a.severity) != DefaultBadge
  {
  }

  /** No two options share a key. */
  lemma SectorKeysDistinct()
    ensures |SectorKeys| == |Sectors|
  {
    SectorKeysListed();
    var keys: set<string> := {"food", "textile", "it", "manufacturing", "all"};
    assert |keys| == 5 by {
      assert keys == {"food", "textile", "it", "manufacturing"} + {"all"};
      assert {"food", "textile", "it", "manufacturing"} == {"food", "textile", "it"} + {"manufacturing"};
      assert {"food", "textile", "it"} == {"food", "textile"} + {"it"};
    }
  }

  /** Every key the selectors offer is already lower-case. */
  lemma SectorKeysLowerCase()
    ensures forall o :: o in Sectors ==> Fetchers.IsLowerCase(o.key)
  {
    forall o | o in Sectors
      ensures Fetchers.IsLowerCase(o.key)
    {
      assert o.key in {"food", "textile", "it", "manufacturing", "all"};
    }
  }
}
