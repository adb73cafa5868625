/** The signal summary that `printStats` prints: how many entries are 0 and
    the largest entry, starting from 0. */
module SignalStats {

  /** The loop of `printStats`: `c` counts the entries equal to 0 and `m`
      keeps the running maximum, which starts at 0. */
  method SignalSummary(signal: seq<int>) returns (c: nat, m: int)
    ensures c == multiset(signal)[0]
    ensures m >= 0 && forall j :: 0 <= j < |signal| ==> signal[j] <= m
    ensures m == 0 || m in signal
  {
    m, c := 0, 0;
    for i := 0 to |signal|
      invariant c == multiset(signal[..i])[0]
      invariant m >= 0 && forall j :: 0 <= j < i ==> signal[j] <= m
      invariant m == 0 || m in signal[..i]
    {
      var v := signal[i];
      assert signal[..i + 1] == signal[..i] + [v];
      if v == 0 {
        c := c + 1;
      }
      if v > m {
        m := v;
      }
    }
    assert signal[..|signal|] == signal;
  }
}
