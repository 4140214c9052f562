/** The options of the launch-site dropdown: a fixed "All Sites" entry
    followed by every distinct launch site, in ascending order. */
module SiteCatalog {
  import opened TextOrder
  import opened Launches

  /** The value the dropdown sends for the aggregate choice. */
  const AllValue: string := "ALL"
  const AllLabel: string := "All Sites"

  /** A dropdown entry `{"label": caption, "value": value}`. */
  datatype SiteOption = SiteOption(caption: string, value: string)

  /** `sorted(df["Launch Site"].unique())`. */
  function LaunchSites(t: Table): (r: seq<string>)
    ensures StrictlySorted(r)
    ensures forall y :: y in r <==> y in Sites(t)
  {
    SortedDistinct(SiteColumn(t))
  }

  /** `site_options`: the aggregate entry, then one entry per site whose
      label and value are both the site name. */
  function SiteOptions(t: Table): (r: seq<SiteOption>)
    ensures |r| >= 1 && r[0] == SiteOption("All Sites", "ALL")
    ensures forall i :: 1 <= i < |r| ==> r[i].caption == r[i].value
    ensures forall i, j :: 1 <= i < j < |r| ==> Less(r[i].value, r[j].value)
    ensures forall i, j :: 1 <= i < j < |r| ==> r[i].value != r[j].value
    ensures forall i :: 1 <= i < |r| ==> r[i].value in Sites(t)
    ensures forall y :: y in Sites(t) ==> exists i :: 1 <= i < |r| && r[i].value == y
  {
    var sites := LaunchSites(t);
    StrictlySortedDistinct(sites);
    var r := [SiteOption(AllLabel, AllValue)] + seq(|sites|, i requires 0 <= i < |sites| => SiteOption(sites[i], sites[i]));
    assert forall i :: 1 <= i < |r| ==> r[i].value == sites[i - 1];
    forall i | 1 <= i < |r| ensures r[i].value in Sites(t) {
      assert sites[i - 1] in sites;
    }
    forall y | y in Sites(t) ensures exists i :: 1 <= i < |r| && r[i].value == y {
      var k :| 0 <= k < |sites| && sites[k] == y;
      assert r[k + 1].value == y;
    }
    r
  }

  /** The values of every entry but the first. */
  function TailValues(options: seq<SiteOption>): seq<string>
  {
    if |options| <= 1 then [] else seq(|options| - 1, i requires 0 <= i < |options| - 1 => options[i + 1].value)
  }

  /** The option values after the first ascend strictly and are the sites. */
  lemma TailValuesAreSites(t: Table)
    ensures StrictlySorted(TailValues(SiteOptions(t)))
    ensures forall y :: y in TailValues(SiteOptions(t)) <==> y in Sites(t)
  {
    var r := SiteOptions(t);
    var values := TailValues(r);
    assert |values| == |r| - 1;
    assert forall i :: 0 <= i < |values| ==> values[i] == r[i + 1].value;
    forall i, j | 0 <= i < j < |values| ensures Less(values[i], values[j]) {
      assert values[i] == r[i + 1].value && values[j] == r[j + 1].value;
    }
    forall y ensures y in values <==> y in Sites(t) {
      if y in values {
        var k :| 0 <= k < |values| && values[k] == y;
        assert r[k + 1].value == y;
      }
      if y in Sites(t) {
        var k :| 1 <= k < |r| && r[k].value == y;
        assert values[k - 1] == y;
      }
    }
  }

  /** The entries after the first are exactly the sorted, duplicate-free
      list of the table's sites: any strictly ascending list holding the
      same sites names the same options in the same order. */
  lemma SiteOptionsAreSortedSites(t: Table, sorted: seq<string>)
    requires StrictlySorted(sorted)
    requires forall y :: y in sorted <==> y in Sites(t)
    ensures |SiteOptions(t)| == |sorted| + 1
    ensures forall i :: 0 <= i < |sorted| ==> SiteOptions(t)[i + 1] == SiteOption(sorted[i], sorted[i])
  {
    TailValuesAreSites(t);
    StrictlySortedUnique(TailValues(SiteOptions(t)), sorted);
  }
}
