/**
  Every choice the policy makes is the same loop: walk a collection in
  iteration order, skip the elements a filter rejects, and keep the element
  whose priority is strictly greater than that of the one kept so far. The
  first element of maximal priority therefore wins a tie.

  A collection is summarised here by its scores: `None` for an element the
  filter rejects, `Some(priority)` for a candidate.
*/
module Selection {
  import opened Wrappers

  /** The index the loop keeps after visiting every score of `s`. */
  function Best(s: seq<Option<nat>>): (r: Option<nat>)
    ensures r.Some? ==> r.value < |s| && s[r.value].Some?
    decreases |s|
  {
    if s == [] then None
    else
      var b := Best(s[..|s| - 1]);
      var last := s[|s| - 1];
      if last.Some? && (b.None? || last.value > s[b.value].value) then Some(|s| - 1) else b
  }

  /** No element passes the filter. */
  ghost predicate NoneQualifies(s: seq<Option<nat>>) {
    forall j | 0 <= j < |s| :: s[j].None?
  }

  /** `k` is a candidate of maximal priority, and no earlier candidate has that priority. */
  ghost predicate IsFirstBest(s: seq<Option<nat>>, k: nat) {
    && k < |s|
    && s[k].Some?
    && (forall j | 0 <= j < |s| && s[j].Some? :: s[j].value <= s[k].value)
    && (forall j | 0 <= j < k && s[j].Some? :: s[j].value < s[k].value)
  }

  /** `r` is the answer the policy wants: nothing when no element qualifies, else the first best. */
  ghost predicate ChoosesBest(s: seq<Option<nat>>, r: Option<nat>) {
    match r
    case None => NoneQualifies(s)
    case Some(k) => IsFirstBest(s, k)
  }

  /** The loop's answer is the first candidate of maximal priority, or nothing when none passes. */
  lemma {:induction false} BestChoosesBest(s: seq<Option<nat>>)
    ensures ChoosesBest(s, Best(s))
    decreases |s|
  {
    if s != [] {
      var init := s[..|s| - 1];
      BestChoosesBest(init);
      assert forall j | 0 <= j < |init| :: init[j] == s[j];
    }
  }

  /** The selection rule leaves no freedom: at most one answer chooses best. */
  lemma ChoiceIsUnique(s: seq<Option<nat>>, r1: Option<nat>, r2: Option<nat>)
    requires ChoosesBest(s, r1) && ChoosesBest(s, r2)
    ensures r1 == r2
  {
  }

  /** The loop's answer is the one and only answer that chooses best. */
  lemma ChoosesBestIsBest(s: seq<Option<nat>>, r: Option<nat>)
    ensures ChoosesBest(s, r) <==> r == Best(s)
  {
    BestChoosesBest(s);
    if ChoosesBest(s, r) {
      ChoiceIsUnique(s, r, Best(s));
    }
  }

  /** Rejecting or keeping elements after the last one visited does not change the answer on a prefix. */
  lemma PrefixStep(s: seq<Option<nat>>, i: nat)
    requires i < |s|
    ensures Best(s[..i + 1]) ==
      (var b := Best(s[..i]);
       if s[i].Some? && (b.None? || s[i].value > s[b.value].value) then Some(i) else b)
  {
    assert s[..i + 1][..i] == s[..i];
  }
}
