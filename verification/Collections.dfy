/**
 What several components share about optional values and sequences.
 */
module Collections {
  datatype Option<+T> = None | Some(value: T)

  ghost predicate Distinct<T>(order: seq<T>) { forall i, j :: 0 <= i < j < |order| ==> order[i] != order[j] }

  /** The last `n` elements, or all of them if there are fewer. */
  function LastOf<T>(history: seq<T>, n: nat): seq<T> {
    if |history| <= n then history else history[|history| - n..]
  }

  // Checks made one after the other, each with what it means that it fails.

  /** What the first check that does not pass stands for; None when all pass. */
  function FirstFailing<T>(checks: seq<(bool, T)>): Option<T> {
    if checks == [] then None else if !checks[0].0 then Some(checks[0].1) else FirstFailing(checks[1..])
  }

  ghost predicate AllPass<T>(checks: seq<(bool, T)>) { forall n :: 0 <= n < |checks| ==> checks[n].0 }

  lemma {:induction false} NoneFailing<T>(checks: seq<(bool, T)>)
    ensures FirstFailing(checks).None? <==> AllPass(checks)
  {
    if checks != [] {
      NoneFailing(checks[1..]);
      assert forall n :: 0 < n < |checks| ==> checks[n] == checks[1..][n - 1];
      assert AllPass(checks) ==> checks[0].0 && AllPass(checks[1..]);
    }
  }

  lemma FirstOfFive<T>(checks: seq<(bool, T)>)
    requires |checks| == 5
    ensures FirstFailing(checks) == if !checks[0].0 then Some(checks[0].1)
                                    else if !checks[1].0 then Some(checks[1].1)
                                    else if !checks[2].0 then Some(checks[2].1)
                                    else if !checks[3].0 then Some(checks[3].1)
                                    else if !checks[4].0 then Some(checks[4].1)
                                    else None
  {
    var c1, c2, c3, c4 := checks[1..], checks[2..], checks[3..], checks[4..];
    assert c1[1..] == c2 && c2[1..] == c3 && c3[1..] == c4 && c4[1..] == [];
    assert FirstFailing(c4) == if c4[0].0 then None else Some(c4[0].1);
    assert FirstFailing(c3) == if c3[0].0 then FirstFailing(c4) else Some(c3[0].1);
    assert FirstFailing(c2) == if c2[0].0 then FirstFailing(c3) else Some(c2[0].1);
    assert FirstFailing(c1) == if c1[0].0 then FirstFailing(c2) else Some(c1[0].1);
  }

  lemma FirstOfSix<T>(checks: seq<(bool, T)>)
    requires |checks| == 6
    ensures FirstFailing(checks) == if !checks[0].0 then Some(checks[0].1)
                                    else if !checks[1].0 then Some(checks[1].1)
                                    else if !checks[2].0 then Some(checks[2].1)
                                    else if !checks[3].0 then Some(checks[3].1)
                                    else if !checks[4].0 then Some(checks[4].1)
                                    else if !checks[5].0 then Some(checks[5].1)
                                    else None
  {
    FirstOfFive(checks[1..]);
  }
}
