/**
 * Recent home-run pace of a batter: the home runs over the first 5, the
 * first 10 and all entries of the game log, which the provider orders most
 * recent first.
 */
module RecentForm {
  import opened StatsTypes

  datatype Form = Form(last5: nat, last10: nat, last20: nat)

  /** Sum of a sequence; peels the last element so that a growing prefix adds one term. */
  function Sum(s: seq<nat>): nat
  {
    if s == [] then 0 else Sum(s[..|s| - 1]) + s[|s| - 1]
  }

  /** The first n elements of s, or all of s when it is shorter. */
  function Prefix(s: seq<nat>, n: nat): (r: seq<nat>)
    ensures |r| <= n
    ensures n >= |s| ==> r == s
  {
    s[..if |s| < n then |s| else n]
  }

  /**
   * The home runs of each game-log entry, or None when some entry has no
   * `stat` object (reading it raises KeyError).
   */
  function Decode(log: seq<Option<nat>>): Option<seq<nat>>
  {
    if log == [] then Some([])
    else match Decode(log[..|log| - 1])
      case None => None
      case Some(init) =>
        match log[|log| - 1]
        case None => None
        case Some(hr) => Some(init + [hr])
  }

  /** The pace counters of a game log; None when the batter must be skipped. */
  function Recent(log: seq<Option<nat>>): Option<Form>
  {
    match Decode(log)
    case None => None
    case Some(hrs) => Some(Form(Sum(Prefix(hrs, 5)), Sum(Prefix(hrs, 10)), Sum(hrs)))
  }

  /** A prefix one longer sums to one more term. */
  lemma SumStep(s: seq<nat>, k: nat)
    requires k < |s|
    ensures Sum(s[..k + 1]) == Sum(s[..k]) + s[k]
  {
    assert s[..k + 1][..k] == s[..k];
  }

  /** Decoding succeeds exactly when every entry has a `stat`, and keeps each entry's value. */
  lemma {:induction false} DecodeSpec(log: seq<Option<nat>>)
    ensures Decode(log).Some? <==> forall i :: 0 <= i < |log| ==> log[i].Some?
    ensures Decode(log).Some? ==>
      |Decode(log).value| == |log| &&
      forall i :: 0 <= i < |log| ==> log[i] == Some(Decode(log).value[i])
  {
    if log != [] {
      var init := log[..|log| - 1];
      DecodeSpec(init);
      assert forall i :: 0 <= i < |init| ==> init[i] == log[i];
    }
  }

  /** Summing a longer prefix never gives less: home-run counts are non-negative. */
  lemma {:induction false} SumPrefixMonotone(s: seq<nat>, k: nat, n: nat)
    requires k <= n <= |s|
    ensures Sum(s[..k]) <= Sum(s[..n])
  {
    if k < n {
      SumPrefixMonotone(s, k, n - 1);
      assert s[..n][..n - 1] == s[..n - 1];
    }
  }

  /** The three counters are nested windows of one log: last5 <= last10 <= last20. */
  lemma RecentOrdered(log: seq<Option<nat>>)
    requires Recent(log).Some?
    ensures Recent(log).value.last5 <= Recent(log).value.last10 <= Recent(log).value.last20
  {
    var hrs := Decode(log).value;
    assert hrs[..|hrs|] == hrs;
    SumPrefixMonotone(hrs, |Prefix(hrs, 5)|, |Prefix(hrs, 10)|);
    SumPrefixMonotone(hrs, |Prefix(hrs, 10)|, |hrs|);
  }

  /** A log of at most five entries yields three equal counters. */
  lemma RecentShortLog(log: seq<Option<nat>>)
    requires |log| <= 5 && Recent(log).Some?
    ensures Recent(log).value.last5 == Recent(log).value.last10 == Recent(log).value.last20
  {
    DecodeSpec(log);
    var hrs := Decode(log).value;
    assert Prefix(hrs, 5) == hrs && Prefix(hrs, 10) == hrs;
  }

  /** A log in which some entry has no `stat` object yields no counters. */
  lemma RecentMissingStat(log: seq<Option<nat>>, i: nat)
    requires i < |log| && log[i].None?
    ensures Recent(log) == None
  {
    DecodeSpec(log);
  }

  /**
   * The counting loop over the game log: each entry adds its home runs to
   * last20, to last10 while fewer than 10 entries were seen and to last5
   * while fewer than 5 were.
   */
  method SumRecent(log: seq<Option<nat>>) returns (form: Option<Form>)
    ensures form == Recent(log)
  {
    var last5, last10, last20 := 0, 0, 0;
    ghost var hrs: seq<nat> := [];
    for i := 0 to |log|
      invariant Decode(log[..i]) == Some(hrs) && |hrs| == i
      invariant last5 == Sum(Prefix(hrs, 5))
      invariant last10 == Sum(Prefix(hrs, 10))
      invariant last20 == Sum(hrs)
    {
      assert log[..i + 1][..i] == log[..i];
      match log[i]
      case None =>
        RecentMissingStat(log, i);
        return None;
      case Some(hr) =>
        ghost var next := hrs + [hr];
        assert next[..i] == hrs;
        if i < 5 {
          assert Prefix(hrs, 5) == hrs && Prefix(next, 5) == next;
          last5 := last5 + hr;
        } else {
          assert Prefix(next, 5) == Prefix(hrs, 5);
        }
        if i < 10 {
          assert Prefix(hrs, 10) == hrs && Prefix(next, 10) == next;
          last10 := last10 + hr;
        } else {
          assert Prefix(next, 10) == Prefix(hrs, 10);
        }
        last20 := last20 + hr;
        hrs := next;
    }
    assert log[..|log|] == log;
    form := Some(Form(last5, last10, last20));
  }
}
