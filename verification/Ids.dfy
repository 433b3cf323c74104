/** Identifiers not in use: there always is one. */
module Ids {
  lemma FreshId(ids: set<nat>) returns (id: nat)
    ensures id !in ids
  {
    id := 0;
    if ids != {} {
      var top := MaxId(ids);
      id := top + 1;
    }
  }

  lemma {:induction false} MaxId(ids: set<nat>) returns (top: nat)
    requires ids != {}
    ensures top in ids && forall i :: i in ids ==> i <= top
    decreases ids
  {
    var i :| i in ids;
    if ids == {i} {
      top := i;
    } else {
      var rest := MaxId(ids - {i});
      assert forall j :: j in ids ==> j == i || j in ids - {i};
      top := if rest < i then i else rest;
    }
  }
}
