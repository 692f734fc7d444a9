/** The two transition-age finders of codes/functionality.py. Each filters a
    run's series with a predicate and takes `iloc[0]['Time']`: the age of the
    first matching sample. An empty filter makes `iloc[0]` raise, which the
    model returns as `None` (never a default age). */
module Finders {
  import opened Types

  /** The post-shock search only looks past this age (`Time > 1e1`). */
  const PostShockMinAge: real := 10.0

  /** The two transition predicates the finders filter a series with. */
  datatype Transition =
    | ReachesFinalTemp(finalTemp: real)      // `df['gasTemp'] == final_temp`
    | BackAtInitialTemp(initialTemp: real)   // `(df['gasTemp'] == initialTemp) & (df['Time'] > 1e1)`

  predicate Matches(t: Transition, s: Sample)
  {
    match t
    case ReachesFinalTemp(finalTemp) => s.gasTemp == finalTemp
    case BackAtInitialTemp(initialTemp) => s.gasTemp == initialTemp && s.time > PostShockMinAge
  }

  /** `df[mask].iloc[0]['Time']`: the age of the first sample matching `t`. */
  function FirstMatchAge(df: seq<Sample>, t: Transition): (r: Option<real>)
    ensures r.None? <==> forall i :: 0 <= i < |df| ==> !Matches(t, df[i])
    ensures r.Some? ==>
              exists k :: 0 <= k < |df| && Matches(t, df[k]) && df[k].time == r.value &&
                          forall j :: 0 <= j < k ==> !Matches(t, df[j])
  {
    if |df| == 0 then None
    else if Matches(t, df[0]) then Some(df[0].time)
    else
      var r := FirstMatchAge(df[1..], t);
      assert r.Some? ==> exists k :: 1 <= k < |df| && Matches(t, df[k]) && df[k].time == r.value &&
                                     forall j :: 0 <= j < k ==> !Matches(t, df[j]) by {
        if r.Some? {
          var k :| 0 <= k < |df[1..]| && Matches(t, df[1..][k]) && df[1..][k].time == r.value &&
                   forall j :: 0 <= j < k ==> !Matches(t, df[1..][j]);
          forall j | 0 <= j < k + 1 ensures !Matches(t, df[j]) {
            if j > 0 { assert df[j] == df[1..][j - 1]; }
          }
          assert df[k + 1] == df[1..][k];
        }
      }
      assert r.None? ==> forall i :: 0 <= i < |df| ==> !Matches(t, df[i]) by {
        if r.None? {
          forall i | 0 <= i < |df| ensures !Matches(t, df[i]) {
            if i > 0 { assert df[i] == df[1..][i - 1]; }
          }
        }
      }
      r
  }

  /** `find_age_for_final_temp(df, final_temp)`. */
  function FindAgeForFinalTemp(df: seq<Sample>, finalTemp: real): (r: Option<real>)
    ensures r.None? <==> forall i :: 0 <= i < |df| ==> df[i].gasTemp != finalTemp
    ensures r.Some? ==>
              exists k :: 0 <= k < |df| && df[k].gasTemp == finalTemp && df[k].time == r.value &&
                          forall j :: 0 <= j < k ==> df[j].gasTemp != finalTemp
  {
    FirstMatchAge(df, ReachesFinalTemp(finalTemp))
  }

  /** `find_age_for_post_shock(df, initialTemp)`. */
  function FindAgeForPostShock(df: seq<Sample>, initialTemp: real): (r: Option<real>)
    ensures r.None? <==>
              forall i :: 0 <= i < |df| ==> !(df[i].gasTemp == initialTemp && df[i].time > PostShockMinAge)
    ensures r.Some? ==>
              r.value > PostShockMinAge &&
              exists k :: 0 <= k < |df| && df[k].gasTemp == initialTemp && df[k].time == r.value &&
                          forall j :: 0 <= j < k ==> !(df[j].gasTemp == initialTemp && df[j].time > PostShockMinAge)
  {
    FirstMatchAge(df, BackAtInitialTemp(initialTemp))
  }

  /** The hot-core gate (last sample at `final_temp`) makes the final-temperature
      search succeed. */
  lemma FinalTempFoundAfterGate(df: seq<Sample>, finalTemp: real)
    requires |df| > 0 && df[|df| - 1].gasTemp == finalTemp
    ensures FindAgeForFinalTemp(df, finalTemp).Some?
  {
    assert Matches(ReachesFinalTemp(finalTemp), df[|df| - 1]);
  }

  /** The shock gate does not give the same guarantee: this series returns to
      `initialTemp` and has a shock sample, yet no sample past age 10 is back at
      `initialTemp`, so `find_age_for_post_shock` raises. */
  lemma PostShockSearchCanFailAfterGate()
    ensures var df := [Sample(0.0, 20.0, 1.0, 1.0, map[]), Sample(5.0, 45.0, 1.0, 1.0, map[]),
                       Sample(8.0, 20.0, 1.0, 1.0, map[])];
            df[|df| - 1].gasTemp == 20.0 && df[1].gasTemp > 20.0 &&
            FindAgeForPostShock(df, 20.0).None?
  {
    var df := [Sample(0.0, 20.0, 1.0, 1.0, map[]), Sample(5.0, 45.0, 1.0, 1.0, map[]),
               Sample(8.0, 20.0, 1.0, 1.0, map[])];
    assert forall i :: 0 <= i < |df| ==> !Matches(BackAtInitialTemp(20.0), df[i]);
  }
}
