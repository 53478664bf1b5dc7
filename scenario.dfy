/** A three-launch table worked through both charts. */
module Scenario {
  import opened Wrappers
  import opened LaunchTable
  import opened PieChart
  import opened ScatterChart

  function ThreeLaunches(): Table
  {
    [ LaunchRecord("SiteA", 1, 4000, "FT"),
      LaunchRecord("SiteA", 0, 6000, "FT"),
      LaunchRecord("SiteB", 1, 3000, "v1.1") ]
  }

  /** SiteA holds the first two launches, SiteB the third. */
  lemma ThreeLaunchesBySite()
    ensures SiteRows(ThreeLaunches(), "SiteA") == ThreeLaunches()[..2]
    ensures OtherRows(ThreeLaunches(), "SiteA") == ThreeLaunches()[2..]
    ensures ClassSum(ThreeLaunches()[..2]) == 1
  {
    var t := ThreeLaunches();
    assert SiteRows(t, "SiteA") == [t[0], t[1]];
    assert OtherRows(t, "SiteA") == [t[2]];
  }

  lemma LastLaunchPie()
    ensures GroupSum(ThreeLaunches()[2..]) == [Slice("SiteB", 1)]
  {
    var b := ThreeLaunches()[2..];
    assert SiteRows(b, "SiteB") == b;
    assert OtherRows(b, "SiteB") == [];
    assert GroupSum(b) == [Slice("SiteB", ClassSum(b))] + GroupSum([]);
  }

  /** "ALL": one slice per site, in order of first appearance, each holding that site's successes. */
  lemma ThreeLaunchesAllPie()
    ensures GroupSum(ThreeLaunches()) == [Slice("SiteA", 1), Slice("SiteB", 1)]
  {
    var t := ThreeLaunches();
    calc {
      GroupSum(t);
      [Slice("SiteA", ClassSum(SiteRows(t, "SiteA")))] + GroupSum(OtherRows(t, "SiteA"));
      { ThreeLaunchesBySite(); }
      [Slice("SiteA", ClassSum(t[..2]))] + GroupSum(t[2..]);
      { LastLaunchPie(); ThreeLaunchesBySite(); }
      [Slice("SiteA", 1), Slice("SiteB", 1)];
    }
  }

  /** "SiteA": one success and one failure; an absent site fails. */
  lemma ThreeLaunchesSitePie()
    ensures SiteOutcomes(ThreeLaunches(), "SiteA") ==
      Success([Slice(SUCCESS_LABEL, 1), Slice(FAILURE_LABEL, 1)])
    ensures SiteOutcomes(ThreeLaunches(), "SiteC") == Failure(NoRowsForSite)
  {
    var t := ThreeLaunches();
    assert SiteRows(t, "SiteA") == [t[0], t[1]];
    assert "SiteC" !in Sites(t);
  }

  /** The 6000 kg launch lies outside [0, 5000]. */
  lemma ThreeLaunchesScatter()
    ensures ScatterRows(ThreeLaunches(), ALL_SITES, 0, 5000) == [ThreeLaunches()[0], ThreeLaunches()[2]]
  {
    var t := ThreeLaunches();
    assert PayloadRows(t, 0, 5000) == [t[0], t[2]];
  }
}
