/**
 * The two data panels. Each `load` sets the loading flag, awaits its fetcher,
 * stores the answer and clears the flag; the await splits it into a
 * `BeginLoad` and a `CompleteLoad`. Nothing orders or discards overlapping
 * loads: whichever completes last decides what is shown.
 */
module Panels {
  import opened Wrappers
  import opened MockData
  import opened Fetchers

  /** What a panel shows: the loading line, the "nothing found" line, or the list. */
  datatype PanelView<T> = Loading | Empty | Listing(items: seq<T>)

  /** Loading takes precedence over an empty list, which takes precedence over the list. */
  function ViewOf<T>(loading: bool, items: seq<T>): PanelView<T> {
    if loading then Loading else if |items| == 0 then Empty else Listing(items)
  }

  /** While loading, the panel shows the same thing whatever it holds. */
  lemma LoadingHidesItems<T>(a: seq<T>, b: seq<T>)
    ensures ViewOf(true, a) == ViewOf(true, b)
  {
  }

  /** Once settled, two panels look the same exactly when they hold the same list. */
  lemma SettledViewShowsItems<T>(a: seq<T>, b: seq<T>)
    ensures ViewOf(false, a) == ViewOf(false, b) <==> a == b
  {
  }

  /** The arguments one load of the updates panel passes to the feed. */
  datatype UpdatesQuery = UpdatesQuery(sector: string, since: string)

  const DefaultSince := "2025-08-01"

  /** The updates panel: its sector prop, its date input, and its state. */
  class UpdatesCard {
    var sector: string
    var since: string
    var loading: bool
    var updates: seq<ComplianceUpdate>

    /** Whatever the panel holds comes from the catalogue, in catalogue order. */
    ghost predicate Valid()
      reads this
    {
      IsSubsequence(updates, MockUpdates)
    }

    function View(): PanelView<ComplianceUpdate>
      reads this
    {
      ViewOf(loading, updates)
    }

    /** The first render, before the mount effect runs. */
    constructor (sector: string)
      ensures Valid()
      ensures this.sector == sector && since == DefaultSince && !loading && updates == []
      ensures View() == Empty
    {
      this.sector := sector;
      since := DefaultSince;
      loading := false;
      updates := [];
    }

    /** A load starts (on mount, on a sector change, or from Refresh): it captures the current props. */
    method BeginLoad() returns (q: UpdatesQuery)
      requires Valid()
      modifies this
      ensures Valid()
      ensures q == UpdatesQuery(old(sector), old(since))
      ensures loading && View() == Loading
      ensures sector == old(sector) && since == old(since) && updates == old(updates)
    {
      q := UpdatesQuery(sector, since);
      loading := true;
    }

    /** The load started with `q` resolves: its feed replaces the list and loading ends. */
    method CompleteLoad(q: UpdatesQuery)
      requires Valid()
      modifies this
      ensures Valid()
      ensures updates == FetchComplianceUpdates(Some(q.sector), Some(q.since))
      ensures forall u :: u in updates <==> u in MockUpdates && InScope(u, SectorKey(Some(q.sector)))
      ensures !loading
      ensures sector == old(sector) && since == old(since)
    {
      var data := FetchComplianceUpdates(Some(q.sector), Some(q.since));
      updates := data;
      loading := false;
    }

    /** The date input changed; it does not trigger a load. */
    method SetSince(d: string)
      requires Valid()
      modifies this
      ensures Valid()
      ensures since == d
      ensures sector == old(sector) && loading == old(loading) && updates == old(updates)
    {
      since := d;
    }

    /** A render with a sector prop: a changed sector starts a load through the effect. */
    method SetSector(s: string) returns (q: Option<UpdatesQuery>)
      requires Valid()
      modifies this
      ensures Valid()
      ensures sector == s && since == old(since) && updates == old(updates)
      ensures s == old(sector) ==> q == None && loading == old(loading)
      ensures s != old(sector) ==> q == Some(UpdatesQuery(s, old(since))) && loading
    {
      if s == sector {
        q := None;
      } else {
        sector := s;
        var started := BeginLoad();
        q := Some(started);
      }
    }
  }

  /** The alerts panel: loaded once on mount and on each Refresh. */
  class AlertsCard {
    var loading: bool
    var alerts: seq<Alert>

    /** The panel holds nothing yet or the whole alerts catalogue. */
    ghost predicate Valid()
      reads this
    {
      alerts == [] || alerts == MockAlerts
    }

    function View(): PanelView<Alert>
      reads this
    {
      ViewOf(loading, alerts)
    }

    constructor ()
      ensures Valid()
      ensures !loading && alerts == [] && View() == Empty
    {
      loading := false;
      alerts := [];
    }

    method BeginLoad()
      requires Valid()
      modifies this
      ensures Valid()
      ensures loading && alerts == old(alerts) && View() == Loading
    {
      loading := true;
    }

    method CompleteLoad()
      requires Valid()
      modifies this
      ensures Valid()
      ensures alerts == FetchAlerts() && !loading
      ensures View() == Listing(MockAlerts)
    {
      var data := FetchAlerts();
      alerts := data;
      loading := false;
    }
  }

  /**
   * A food load is overtaken by a textile load, the textile answer arrives
   * first and the food answer last: the panel ends up showing the food feed
   * while its sector is textile, because no load is ever discarded.
   */
  method LateAnswerWins() returns (sector: string, shown: PanelView<ComplianceUpdate>)
    ensures sector == "textile"
    ensures shown == Listing([Labour017, Safety009])
  {
    var card := new UpdatesCard("food");
    var first := card.BeginLoad();
    var second := card.SetSector("textile");
    card.CompleteLoad(second.value);
    card.CompleteLoad(first);
    FoodFeed(Some(DefaultSince));
    sector := card.sector;
    shown := card.View();
  }

  /**
   * The mount load for food answers while the load for textile is still out:
   * the panel shows the food list with no loading line under the sector
   * textile, until the textile answer replaces it.
   */
  method StaleAnswerWhileReloading() returns (sector: string, shownMeanwhile: PanelView<ComplianceUpdate>, shownAfter: PanelView<ComplianceUpdate>)
    ensures sector == "textile"
    ensures shownMeanwhile == Listing([Labour017, Safety009])
    ensures shownAfter == Listing([Gst001, Labour017])
  {
    var card := new UpdatesCard("food");
    var first := card.BeginLoad();
    var second := card.SetSector("textile");
    card.CompleteLoad(first);
    FoodFeed(Some(DefaultSince));
    shownMeanwhile := card.View();
    card.CompleteLoad(second.value);
    TextileFeed(Some(DefaultSince));
    sector := card.sector;
    shownAfter := card.View();
  }

  /**
   * Two alert loads overlap: when the first answer arrives the loading line
   * is already gone although the second load is still out.
   */
  method OverlappingAlertLoads() returns (viewWhileSecondPending: PanelView<Alert>)
    ensures viewWhileSecondPending == Listing(MockAlerts)
  {
    var card := new AlertsCard();
    card.BeginLoad();
    card.BeginLoad();
    card.CompleteLoad();
    viewWhileSecondPending := card.View();
    card.CompleteLoad();
  }
}
