/** Picking from a set of numbers that is known not to be empty. */
module Sets {
  lemma NoMembers(s: set<int>)
    requires forall x :: x !in s
    ensures |s| == 0
  {
    var none: set<int> := {};
    assert forall x :: x in s <==> x in none;
    assert s == none;
  }

  lemma Inhabited(s: set<int>)
    requires |s| > 0
    ensures exists x :: x in s
  {
    if forall x :: x !in s { NoMembers(s); }
  }
}
