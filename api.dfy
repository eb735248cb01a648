/** The two process-wide allow-lists shared by both sides of the bridge:
    the names a caller may invoke on the backend, and the names of the
    events the backend may push back to the GUI. */
module Api {

  /** Callable backend methods, in declaration order. */
  const Methods: seq<string> :=
    ["add", "reset", "get_stored_data", "blocking_method", "twice_01", "twice_02"]

  /** Emittable signals, in declaration order. */
  const Signals: seq<string> :=
    ["add_result", "reset_ok", "stored_data", "blocking_method_ok", "twice_signal"]

  /** No name occurs twice in `s`. */
  predicate Distinct(s: seq<string>)
  {
    forall i, j :: 0 <= i < j < |s| ==> s[i] != s[j]
  }

  lemma MethodsAreSixDistinctNames()
    ensures |Methods| == 6 && Distinct(Methods)
  {
  }

  lemma SignalsAreFiveDistinctNames()
    ensures |Signals| == 5 && Distinct(Signals)
  {
  }

  lemma RegistriesDisjoint()
    ensures forall n :: n in Methods ==> n !in Signals
  {
  }

  lemma AddIsRegistered()
    ensures "add" in Methods && "add_result" in Signals
  {
  }
}
