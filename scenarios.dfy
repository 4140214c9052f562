/** Worked examples of the dropdown, pie and scatter derivations on a
    small two-site table. */
module Scenarios {
  import opened TextOrder
  import opened Launches
  import opened SiteCatalog
  import opened SuccessPie
  import opened PayloadScatter

  /** Site "A" has two successes and one failure, site "B" one success
      and two failures; rows are in payload order. */
  function TwoSiteTable(): Table
  {
    [ Launch("B", 500, 0), Launch("A", 1000, 1), Launch("A", 2000, 0),
      Launch("B", 2500, 1), Launch("B", 6000, 0), Launch("A", 7000, 1) ]
  }

  /** Outcome tallies of each site. */
  lemma SiteACounts()
    ensures Count(SiteRecords(TwoSiteTable(), "A"), 1) == 2 && Count(SiteRecords(TwoSiteTable(), "A"), 0) == 1
  {
  }

  lemma SiteBCounts()
    ensures Count(SiteRecords(TwoSiteTable(), "B"), 1) == 1 && Count(SiteRecords(TwoSiteTable(), "B"), 0) == 2
  {
  }

  /** The sites of the table. */
  lemma TwoSiteSites()
    ensures Sites(TwoSiteTable()) == {"A", "B"}
  {
  }

  /** Any table whose sites are "A" and "B" offers "All Sites", "A", "B". */
  lemma DropdownOfSitesAB(t: Table)
    requires Sites(t) == {"A", "B"}
    ensures SiteOptions(t) == [SiteOption("All Sites", "ALL"), SiteOption("A", "A"), SiteOption("B", "B")]
  {
    assert Less("A", "B");
    SiteOptionsAreSortedSites(t, ["A", "B"]);
  }

  /** The dropdown offers "All Sites", then "A", then "B". */
  lemma TwoSiteDropdown()
    ensures SiteOptions(TwoSiteTable()) == [SiteOption("All Sites", "ALL"), SiteOption("A", "A"), SiteOption("B", "B")]
  {
    TwoSiteSites();
    DropdownOfSitesAB(TwoSiteTable());
  }

  /** The aggregate pie sums the class column, so it shows successes only:
      A = 2 and B = 1, not the sites' launch counts (3 each). */
  lemma TwoSiteAggregatePie()
    ensures UpdatePie(TwoSiteTable(), "ALL").slices == [Slice("A", 2), Slice("B", 1)]
  {
    TwoSiteDropdown();
    SiteACounts();
    SiteBCounts();
    PieSitesFollowDropdown(TwoSiteTable());
  }

  /** A site's pie splits its launches, the more frequent outcome first. */
  lemma TwoSiteSitePies()
    ensures UpdatePie(TwoSiteTable(), "A").slices == [Slice("Success", 2), Slice("Failure", 1)]
    ensures UpdatePie(TwoSiteTable(), "B").slices == [Slice("Failure", 2), Slice("Success", 1)]
  {
    SiteACounts();
    SiteBCounts();
  }

  /** A range above most payloads leaves one launch of "A". */
  lemma TwoSiteNarrowScatter()
    ensures ScatterPoints(TwoSiteTable(), "A", 6000, 9000) == [Launch("A", 7000, 1)]
  {
  }

  /** A range that holds no launch of "A" (while "B" still has one there)
      leaves no point for "A", without error. */
  lemma TwoSiteEmptyScatter()
    ensures ScatterPoints(TwoSiteTable(), "A", 2100, 6500) == []
    ensures ScatterPoints(TwoSiteTable(), "B", 2100, 6500) != []
  {
    assert Launch("B", 2500, 1) in TwoSiteTable();
  }

  /** On a tie, `value_counts` keeps first-occurrence order: the site's
      first launch failed, so "Failure" comes first. */
  lemma TiedOutcomes()
    ensures OutcomeCounts([Launch("C", 1, 0), Launch("C", 2, 1)], "C") == [Slice("Failure", 1), Slice("Success", 1)]
  {
  }
}
