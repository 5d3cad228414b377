/**
 * What a sequence of independent, individually caught database writes
 * leaves behind. Write number `n` (counted from the store's creation) fails
 * exactly when `n` is a key of the failure map.
 */
module Effects {
  import opened Wrappers

  function FailureAt(failures: map<nat, string>, ordinal: nat): Option<string>
  {
    if ordinal in failures then Some(failures[ordinal]) else None
  }

  /** The writes of `ws`, attempted from ordinal `at` on, that commit. */
  function Committed<W>(ws: seq<W>, at: nat, failures: map<nat, string>): (c: seq<W>)
    ensures |c| <= |ws|
    ensures (forall k :: at <= k < at + |ws| ==> k !in failures) ==> c == ws
    decreases |ws|
  {
    if ws == [] then [] else (if at in failures then [] else [ws[0]]) + Committed(ws[1..], at + 1, failures)
  }

  /** Committing one more write appends it exactly when its ordinal does not fail. */
  lemma {:induction false} CommittedSnoc<W>(ws: seq<W>, w: W, at: nat, failures: map<nat, string>)
    ensures Committed(ws + [w], at, failures) == Committed(ws, at, failures) + (if at + |ws| in failures then [] else [w])
    decreases |ws|
  {
    if ws == [] {
      assert [] + [w] == [w];
    } else {
      assert (ws + [w])[1..] == ws[1..] + [w];
      CommittedSnoc(ws[1..], w, at + 1, failures);
    }
  }

  /** Every committed write is one of the attempted ones. */
  lemma {:induction false} CommittedSubset<W>(ws: seq<W>, at: nat, failures: map<nat, string>)
    ensures forall w :: w in Committed(ws, at, failures) ==> w in ws
    decreases |ws|
  {
    if ws != [] {
      CommittedSubset(ws[1..], at + 1, failures);
    }
  }
}
