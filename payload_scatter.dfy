/** The data behind the payload/outcome scatter chart (`update_scatter`):
    the launches whose payload lies in the slider's range, narrowed to the
    chosen site unless the aggregate is chosen. */
module PayloadScatter {
  import opened Frame
  import opened Launches
  import opened SiteCatalog

  /** The figure `px.scatter` is given: its title and the plotted rows. */
  datatype ScatterChart = ScatterChart(title: string, points: Table)

  /** The mask `(payload >= low) & (payload <= high)`. */
  function InPayloadRange(low: int, high: int): Launch -> bool
  {
    (l: Launch) => low <= l.payload && l.payload <= high
  }

  /** Whether a row is plotted, as one condition. */
  function Plotted(site: string, low: int, high: int): Launch -> bool
  {
    (l: Launch) => low <= l.payload && l.payload <= high && (site == AllValue || l.site == site)
  }

  /** The rows plotted for `site` and the range `[low, high]`: the payload
      mask first, then, unless the aggregate is chosen, the site mask. The
      result keeps table order and holds each row exactly as often as the
      table does when the row is in range (and at the site), else never. */
  function ScatterPoints(t: Table, site: string, low: int, high: int): (r: Table)
    ensures forall l :: l in r ==> low <= l.payload <= high
    ensures site != "ALL" ==> forall l :: l in r ==> l.site == site
    ensures forall l :: l in t && low <= l.payload <= high && (site == "ALL" || l.site == site) ==> l in r
    ensures forall l :: multiset(r)[l] == if low <= l.payload <= high && (site == "ALL" || l.site == site) then multiset(t)[l] else 0
    ensures IsSubsequence(r, t)
    ensures low > high ==> r == []
  {
    var inRange := Filter(t, InPayloadRange(low, high));
    FilterMultiplicity(t, InPayloadRange(low, high));
    if site == AllValue then inRange
    else
      FilterFilter(t, InPayloadRange(low, high), AtSite(site), Plotted(site, low, high));
      FilterMultiplicity(t, Plotted(site, low, high));
      Filter(inRange, AtSite(site))
  }

  /** The scatter title names the chosen site, and is the bare title exactly
      when the aggregate is chosen. */
  function ScatterTitle(site: string): (r: string)
    ensures r == "Correlation between Payload and Success" <==> site == "ALL"
    ensures site != "ALL" ==> r == "Correlation between Payload and Success for " + site
    ensures site != "ALL" ==> |site| <= |r| && r[|r| - |site|..] == site
  {
    if site == AllValue then "Correlation between Payload and Success"
    else "Correlation between Payload and Success for " + site
  }

  /** `update_scatter(selected_site, [low, high])`: the bare title exactly
      for the aggregate, and as points the table rows, in table order, that
      lie in the range and (unless the aggregate is chosen) at the site, each
      as often as the table holds it. */
  function UpdateScatter(t: Table, site: string, low: int, high: int): (r: ScatterChart)
    ensures r.title == "Correlation between Payload and Success" <==> site == "ALL"
    ensures site != "ALL" ==> r.title == "Correlation between Payload and Success for " + site
    ensures forall l :: l in r.points ==> low <= l.payload <= high && (site == "ALL" || l.site == site)
    ensures forall l :: l in t && low <= l.payload <= high && (site == "ALL" || l.site == site) ==> l in r.points
    ensures forall l :: multiset(r.points)[l] == if low <= l.payload <= high && (site == "ALL" || l.site == site) then multiset(t)[l] else 0
    ensures IsSubsequence(r.points, t)
  {
    ScatterChart(ScatterTitle(site), ScatterPoints(t, site, low, high))
  }

  /** With the slider at its initial position `[min_payload, max_payload]`,
      the payload mask drops nothing: the aggregate plots the whole table and
      a site plots all of its launches. */
  lemma InitialRangePlotsEverything(t: Table, site: string)
    requires |t| > 0
    ensures ScatterPoints(t, site, MinPayload(t), MaxPayload(t)) == if site == "ALL" then t else SiteRecords(t, site)
  {
    FilterKeepsAll(t, InPayloadRange(MinPayload(t), MaxPayload(t)));
  }
}
