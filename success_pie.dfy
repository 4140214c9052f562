/** The data behind the success pie chart (`update_pie`): successes per
    site for the aggregate choice, or the success/failure split of one
    site. */
module SuccessPie {
  import opened TextOrder
  import opened Launches
  import opened SiteCatalog

  /** One pie wedge: its name and the value that sizes it. */
  datatype Slice = Slice(name: string, value: nat)

  /** The frame passed to `px.pie`, with its title: the wedges in frame
      order (Plotly may draw them in another order). */
  datatype PieChart = PieChart(title: string, slices: seq<Slice>)

  /** `value_counts` renamed with `{1: "Success", 0: "Failure"}`. */
  function OutcomeName(c: Class): string
  {
    if c == 1 then "Success" else "Failure"
  }

  /** The whole pie: the sum of its wedges. */
  function Total(slices: seq<Slice>): nat
  {
    if slices == [] then 0 else slices[0].value + Total(slices[1..])
  }

  // ---------------------------------------------------------------------
  // "ALL": spacex_df.groupby("Launch Site", as_index=False)["class"].sum()
  // ---------------------------------------------------------------------

  /** The class column summed over the rows whose site lies in `sites`. */
  function ClassSumIn(t: Table, sites: set<string>): nat
  {
    if t == [] then 0
    else (if t[0].site in sites then t[0].outcome else 0) + ClassSumIn(t[1..], sites)
  }

  /** The sites named in a list. */
  function SiteSet(sites: seq<string>): set<string>
  {
    set y | y in sites
  }

  /** One wedge per name in `sites`, sized by that site's class sum. */
  function SiteSlices(t: Table, sites: seq<string>): (r: seq<Slice>)
    ensures |r| == |sites|
    ensures forall i :: 0 <= i < |r| ==> r[i] == Slice(sites[i], ClassSum(SiteRecords(t, sites[i])))
  {
    if sites == [] then []
    else [Slice(sites[0], ClassSum(SiteRecords(t, sites[0])))] + SiteSlices(t, sites[1..])
  }

  /** A site's group sum, computed on the masked table, is the class sum
      restricted to that one site. */
  lemma {:induction false} SiteSumIsClassSumIn(t: Table, site: string)
    ensures ClassSum(SiteRecords(t, site)) == ClassSumIn(t, {site})
  {
    if t != [] {
      SiteSumIsClassSumIn(t[1..], site);
      var rest := SiteRecords(t[1..], site);
      if t[0].site == site {
        assert SiteRecords(t, site) == [t[0]] + rest;
        assert ([t[0]] + rest)[1..] == rest;
      }
    }
  }

  /** The sum over a set of sites splits off any one of its sites. */
  lemma {:induction false} ClassSumInSplit(t: Table, sites: set<string>, x: string)
    requires x in sites
    ensures ClassSumIn(t, sites) == ClassSumIn(t, {x}) + ClassSumIn(t, sites - {x})
  {
    if t != [] {
      ClassSumInSplit(t[1..], sites, x);
    }
  }

  /** No sites, no sum. */
  lemma {:induction false} ClassSumInNone(t: Table)
    ensures ClassSumIn(t, {}) == 0
  {
    if t != [] {
      ClassSumInNone(t[1..]);
    }
  }

  /** Summing over a set of sites that covers the table sums every row. */
  lemma {:induction false} ClassSumInCovering(t: Table, sites: set<string>)
    requires Sites(t) <= sites
    ensures ClassSumIn(t, sites) == ClassSum(t)
  {
    if t != [] {
      assert t[0] in t;
      assert Sites(t[1..]) <= Sites(t) by {
        forall y | y in Sites(t[1..]) ensures y in Sites(t) {
          var l :| l in t[1..] && l.site == y;
          assert l in t;
        }
      }
      ClassSumInCovering(t[1..], sites);
    }
  }

  /** The wedges of distinct sites add up to the class sum over those sites. */
  lemma {:induction false} TotalSiteSlices(t: Table, sites: seq<string>)
    requires StrictlySorted(sites)
    ensures Total(SiteSlices(t, sites)) == ClassSumIn(t, SiteSet(sites))
  {
    if sites == [] {
      assert SiteSet(sites) == {};
      ClassSumInNone(t);
    } else {
      var rest := sites[1..];
      assert StrictlySorted(rest);
      TotalSiteSlices(t, rest);
      TailMembers(sites);
      assert SiteSet(sites) - {sites[0]} == SiteSet(rest);
      ClassSumInSplit(t, SiteSet(sites), sites[0]);
      SiteSumIsClassSumIn(t, sites[0]);
      assert SiteSlices(t, sites)[1..] == SiteSlices(t, rest);
    }
  }

  /** The wedge names, in order. */
  function SliceNames(slices: seq<Slice>): seq<string>
  {
    seq(|slices|, i requires 0 <= i < |slices| => slices[i].name)
  }

  /** The "ALL" wedges: one per distinct site, in ascending site order, each
      sized by the site's class sum (its number of successful launches, zero
      included); together they count every successful launch of the table. */
  function SuccessesBySite(t: Table): (r: seq<Slice>)
    ensures StrictlySorted(SliceNames(r))
    ensures forall y :: y in SliceNames(r) <==> y in Sites(t)
    ensures forall i :: 0 <= i < |r| ==> r[i].value == ClassSum(SiteRecords(t, r[i].name))
    ensures forall i :: 0 <= i < |r| ==> r[i].value == Count(SiteRecords(t, r[i].name), 1)
    ensures Total(r) == Count(t, 1)
  {
    var sites := LaunchSites(t);
    SiteSlicesCountSuccesses(t, sites);
    AggregateTotal(t);
    var r := SiteSlices(t, sites);
    assert SliceNames(r) == sites;
    r
  }

  /** Each group sum counts the group's successful launches. */
  lemma SiteSlicesCountSuccesses(t: Table, sites: seq<string>)
    ensures forall i :: 0 <= i < |sites| ==> SiteSlices(t, sites)[i].value == Count(SiteRecords(t, sites[i]), 1)
  {
    forall i | 0 <= i < |sites| ensures SiteSlices(t, sites)[i].value == Count(SiteRecords(t, sites[i]), 1) {
      ClassSumCountsSuccesses(SiteRecords(t, sites[i]));
    }
  }

  /** The per-site successes add up to the table's successes. */
  lemma AggregateTotal(t: Table)
    ensures Total(SiteSlices(t, LaunchSites(t))) == Count(t, 1)
  {
    var sites := LaunchSites(t);
    TotalSiteSlices(t, sites);
    assert SiteSet(sites) == Sites(t);
    ClassSumInCovering(t, SiteSet(sites));
    ClassSumCountsSuccesses(t);
  }

  // ---------------------------------------------------------------------
  // One site: df_site["class"].value_counts(), renamed Success / Failure
  // ---------------------------------------------------------------------

  /** The total of a two-wedge pie. */
  lemma TotalOfTwo(a: Slice, b: Slice)
    ensures Total([a, b]) == a.value + b.value
  {
    assert [a, b][1..] == [b];
    assert Total([b]) == b.value + Total([]);
  }

  /** `value_counts()` of a 0/1 column holding `successes` ones and
      `failures` zeros, renamed: a wedge per value that occurs, the more
      frequent first, a tie kept in order of first occurrence. */
  function RankedOutcomes(successes: nat, failures: nat, successFirst: bool): (r: seq<Slice>)
    ensures forall i :: 0 <= i < |r| ==> r[i].value > 0
    ensures forall i :: 0 <= i < |r| ==> r[i].name == "Success" || r[i].name == "Failure"
    ensures forall i :: 0 <= i < |r| && r[i].name == "Success" ==> r[i].value == successes
    ensures forall i :: 0 <= i < |r| && r[i].name == "Failure" ==> r[i].value == failures
    ensures successes > 0 <==> exists i :: 0 <= i < |r| && r[i].name == "Success"
    ensures failures > 0 <==> exists i :: 0 <= i < |r| && r[i].name == "Failure"
    ensures forall i, j :: 0 <= i < j < |r| ==> r[i].name != r[j].name && r[i].value >= r[j].value
    ensures |r| == 2 && r[0].value == r[1].value ==> (r[0].name == "Success" <==> successFirst)
    ensures Total(r) == successes + failures
  {
    if successes == 0 && failures == 0 then []
    else if failures == 0 then
      var r := [Slice("Success", successes)];
      assert r[0].name == "Success";
      r
    else if successes == 0 then
      var r := [Slice("Failure", failures)];
      assert r[0].name == "Failure";
      r
    else if successes > failures || (successes == failures && successFirst) then
      var r := [Slice("Success", successes), Slice("Failure", failures)];
      assert r[0].name == "Success" && r[1].name == "Failure";
      TotalOfTwo(r[0], r[1]);
      r
    else
      var r := [Slice("Failure", failures), Slice("Success", successes)];
      assert r[1].name == "Success" && r[0].name == "Failure";
      TotalOfTwo(r[0], r[1]);
      r
  }

  /** The outcome wedges of `site`: a wedge per outcome that occurs, sized by
      its number of launches at the site, the larger first; on a tie, the
      outcome of the site's first launch comes first. The wedges add up to
      the site's launches, so a site without launches has none. */
  function OutcomeCounts(t: Table, site: string): (r: seq<Slice>)
    ensures forall i :: 0 <= i < |r| ==> r[i].value > 0
    ensures forall i :: 0 <= i < |r| ==> r[i].name == "Success" || r[i].name == "Failure"
    ensures forall i :: 0 <= i < |r| && r[i].name == "Success" ==> r[i].value == Count(SiteRecords(t, site), 1)
    ensures forall i :: 0 <= i < |r| && r[i].name == "Failure" ==> r[i].value == Count(SiteRecords(t, site), 0)
    ensures Count(SiteRecords(t, site), 1) > 0 <==> exists i :: 0 <= i < |r| && r[i].name == "Success"
    ensures Count(SiteRecords(t, site), 0) > 0 <==> exists i :: 0 <= i < |r| && r[i].name == "Failure"
    ensures forall i, j :: 0 <= i < j < |r| ==> r[i].name != r[j].name && r[i].value >= r[j].value
    ensures |r| == 2 && r[0].value == r[1].value ==> r[0].name == OutcomeName(SiteRecords(t, site)[0].outcome)
    ensures Total(r) == |SiteRecords(t, site)|
    ensures SiteRecords(t, site) == [] <==> r == []
  {
    var launches := SiteRecords(t, site);
    CountsPartition(launches);
    RankedOutcomes(Count(launches, 1), Count(launches, 0), launches != [] && launches[0].outcome == 1)
  }

  // ---------------------------------------------------------------------
  // update_pie
  // ---------------------------------------------------------------------

  /** `update_pie(selected_site)`: the aggregate pie is the per-site
      success sums and totals the table's successes; a site's pie is its
      Success/Failure counts and totals its number of launches. */
  function UpdatePie(t: Table, selected: string): (r: PieChart)
    ensures selected == "ALL" ==> r.title == "Total Successful Launches by Site" && Total(r.slices) == Count(t, 1)
    ensures selected == "ALL" ==> r.slices == SuccessesBySite(t)
    ensures selected != "ALL" ==> r.slices == OutcomeCounts(t, selected)
    ensures selected != "ALL" ==> r.title == "Launch Outcomes for " + selected && Total(r.slices) == |SiteRecords(t, selected)|
  {
    if selected == AllValue then PieChart("Total Successful Launches by Site", SuccessesBySite(t))
    else PieChart("Launch Outcomes for " + selected, OutcomeCounts(t, selected))
  }

  /** The aggregate pie lists its sites in the same order as the dropdown. */
  lemma PieSitesFollowDropdown(t: Table)
    ensures |SuccessesBySite(t)| == |SiteOptions(t)| - 1
    ensures forall i :: 0 <= i < |SuccessesBySite(t)| ==> SuccessesBySite(t)[i].name == SiteOptions(t)[i + 1].value
  {
    TailValuesAreSites(t);
    StrictlySortedUnique(SliceNames(SuccessesBySite(t)), TailValues(SiteOptions(t)));
  }

  /** Every site the dropdown offers has launches, so its pie is never empty. */
  lemma DropdownSiteHasOutcomes(t: Table, i: int)
    requires 1 <= i < |SiteOptions(t)|
    ensures OutcomeCounts(t, SiteOptions(t)[i].value) != []
    ensures Total(OutcomeCounts(t, SiteOptions(t)[i].value)) > 0
  {
    var site := SiteOptions(t)[i].value;
    assert site in Sites(t);
    var l :| l in t && l.site == site;
    assert l in SiteRecords(t, site);
  }
}
