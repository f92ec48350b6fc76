/** Vocabulary shared by every component of the model. */
module Base {

  datatype Option<+T> = None | Some(value: T)

  /** The body of a calendar event.  Bodies are opaque: the hash of a body is taken to be
      injective, so a hash is represented by what it hashes. */
  type Content = nat

  /** What a projection wants, or is believed, to hold: nothing, or a copy with a given body.
      It stands both for the state and for its payload hash (`Nothing` hashes to the sentinel
      'absent', app/ledger/payload.py:130-139). */
  datatype Want = Nothing | Copy(body: Content)

  /** `m` is `max(s, default=0)`. */
  ghost predicate IsMax(m: nat, s: set<nat>) {
    (s == {} ==> m == 0) && (s != {} ==> m in s) && forall k :: k in s ==> k <= m
  }

  /** `max(keys, default=0)`. */
  ghost function MaxOf(s: set<nat>): (m: nat)
    ensures IsMax(m, s)
  {
    if s == {} then 0
    else
      var x :| x in s;
      var rest := MaxOf(s - {x});
      assert forall k :: k in s ==> k == x || k in s - {x};
      if rest > x then rest else x
  }

  ghost predicate IsLeast(k: nat, s: set<nat>) {
    k in s && forall j :: j in s ==> k <= j
  }

  lemma {:induction false} LeastExists(s: set<nat>)
    requires s != {}
    ensures exists k :: IsLeast(k, s)
    decreases s
  {
    var x :| x in s;
    if s == {x} {
      assert IsLeast(x, s);
    } else {
      var rest := s - {x};
      assert rest != {};
      LeastExists(rest);
      var y :| IsLeast(y, rest);
      assert forall k :: k in s ==> k == x || k in rest;
      assert IsLeast(if x < y then x else y, s);
    }
  }
}
