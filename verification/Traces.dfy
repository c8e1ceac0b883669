/** Reasoning about whole runs from single steps. */
module Traces {
  /** If, wherever a run is still good, the next state is good exactly when the step was sound, then the
      whole run is good exactly when every step in it was sound. */
  lemma {:induction false} ChainIff(good: seq<bool>, sound: seq<bool>, m: nat)
    requires m < |good| == |sound| + 1 && good[0]
    requires forall i :: 0 <= i < m && good[i] ==> (good[i + 1] <==> sound[i])
    ensures (forall i :: 0 <= i <= m ==> good[i]) <==> (forall i :: 0 <= i < m ==> sound[i])
  {
    if m > 0 {
      var p := m - 1;
      ChainIff(good, sound, p);
      if forall i :: 0 <= i <= p ==> good[i] {
        assert good[p] && (good[p + 1] <==> sound[p]);
        assert (forall i :: 0 <= i < m ==> sound[i]) <==> sound[p];
      } else {
        assert exists i :: 0 <= i < p && !sound[i];
      }
    }
  }
}
