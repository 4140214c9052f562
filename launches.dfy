/** The launch table the dashboard reads once at start-up
    (`spacex_launch_dash.csv`), and the column reductions it uses. */
module Launches {
  import opened Frame

  /** The `class` column: 1 for a successful launch, 0 for a failed one. */
  type Class = c: int | 0 <= c <= 1

  /** One row: "Launch Site", "Payload Mass (kg)" and "class". */
  datatype Launch = Launch(site: string, payload: int, outcome: Class)

  /** The whole table, in file order; it is never written after loading. */
  type Table = seq<Launch>

  /** The mask `df["Launch Site"] == site`. */
  function AtSite(site: string): Launch -> bool
  {
    (l: Launch) => l.site == site
  }

  /** `df[df["Launch Site"] == site]`. */
  function SiteRecords(t: Table, site: string): Table
  {
    Filter(t, AtSite(site))
  }

  /** The set of launch sites that occur in the table. */
  function Sites(t: Table): set<string>
  {
    set l | l in t :: l.site
  }

  /** The "Launch Site" column. */
  function SiteColumn(t: Table): (r: seq<string>)
    ensures |r| == |t|
    ensures forall i :: 0 <= i < |t| ==> r[i] == t[i].site
    ensures forall y :: y in r <==> y in Sites(t)
  {
    if t == [] then []
    else
      assert forall l :: l in t <==> l == t[0] || l in t[1..] by {
        assert t == [t[0]] + t[1..];
      }
      [t[0].site] + SiteColumn(t[1..])
  }

  /** `df["class"].sum()`. */
  function ClassSum(t: Table): nat
  {
    if t == [] then 0 else t[0].outcome + ClassSum(t[1..])
  }

  /** The number of rows whose class is `c`: the entry of
      `df["class"].value_counts()` for `c`. */
  function Count(t: Table, c: Class): nat
  {
    if t == [] then 0 else (if t[0].outcome == c then 1 else 0) + Count(t[1..], c)
  }

  /** Summing a 0/1 column counts its ones. */
  lemma {:induction false} ClassSumCountsSuccesses(t: Table)
    ensures ClassSum(t) == Count(t, 1)
  {
    if t != [] {
      ClassSumCountsSuccesses(t[1..]);
    }
  }

  /** Every row is either a success or a failure. */
  lemma {:induction false} CountsPartition(t: Table)
    ensures Count(t, 1) + Count(t, 0) == |t|
  {
    if t != [] {
      CountsPartition(t[1..]);
    }
  }

  /** `df["Payload Mass (kg)"].min()`. */
  function MinPayload(t: Table): (m: int)
    requires |t| > 0
    ensures exists l :: l in t && l.payload == m
    ensures forall l :: l in t ==> m <= l.payload
  {
    if |t| == 1 then t[0].payload
    else
      assert forall l :: l in t <==> l == t[0] || l in t[1..] by {
        assert t == [t[0]] + t[1..];
      }
      var rest := MinPayload(t[1..]);
      if t[0].payload <= rest then t[0].payload else rest
  }

  /** `df["Payload Mass (kg)"].max()`. */
  function MaxPayload(t: Table): (m: int)
    requires |t| > 0
    ensures exists l :: l in t && l.payload == m
    ensures forall l :: l in t ==> l.payload <= m
  {
    if |t| == 1 then t[0].payload
    else
      assert forall l :: l in t <==> l == t[0] || l in t[1..] by {
        assert t == [t[0]] + t[1..];
      }
      var rest := MaxPayload(t[1..]);
      if t[0].payload >= rest then t[0].payload else rest
  }
}
