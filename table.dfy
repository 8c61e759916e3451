/**
 * The transition table of an order-k Markov model: a map from a state (the
 * k most recent token ids) to the list of token ids observed right after it.
 * Duplicates in a list are kept: they are the frequency weight of a token.
 */
module TransitionTable {

  /** A token id, opaque to the model beyond equality. */
  type Token = nat

  /** A state: the ordered window of preceding token ids. */
  type State = seq<Token>

  type Table = map<State, seq<Token>>

  /** The occurrence list stored for `s`, or the empty list when `s` is absent. */
  function Occurrences(t: Table, s: State): seq<Token>
  {
    if s in t then t[s] else []
  }

  /**
   * Appends `next` to the occurrence list of `s`, creating the list when `s`
   * is absent (the `entry(..).or_insert_with(Vec::new).push(..)` step).
   */
  function Record(t: Table, s: State, next: Token): (r: Table)
    ensures r.Keys == t.Keys + {s}
    ensures Occurrences(r, s) == Occurrences(t, s) + [next]
    ensures forall s' :: s' in t && s' != s ==> r[s'] == t[s']
  {
    t[s := Occurrences(t, s) + [next]]
  }

  /** The table invariant: every key has exactly `order` tokens and a non-empty list. */
  predicate WellFormed(order: nat, t: Table)
  {
    forall s :: s in t ==> |s| == order && |t[s]| > 0
  }

  /** `t'` grows `t` append-only: no key is lost and each old list is a prefix of the new one. */
  predicate Extends(t: Table, t': Table)
  {
    t.Keys <= t'.Keys && forall s :: s in t ==> t[s] <= t'[s]
  }

  /** Some key of a non-empty table: the one `Total` takes apart first. */
  ghost function AnyKey(t: Table): (s: State)
    requires t.Keys != {}
    ensures s in t
  {
    var s :| s in t; s
  }

  /** The number of stored occurrences: the sum of the lengths of all lists. */
  ghost function Total(t: Table): nat
    decreases |t.Keys|
  {
    if t.Keys == {} then 0
    else
      var s := AnyKey(t);
      assert |(t - {s}).Keys| < |t.Keys| by {
        assert (t - {s}).Keys == t.Keys - {s};
      }
      |t[s]| + Total(t - {s})
  }

  /** Total does not depend on which key it takes apart first. */
  lemma {:induction false} TotalRemove(t: Table, x: State)
    requires x in t
    ensures Total(t) == |t[x]| + Total(t - {x})
    decreases |t.Keys|
  {
    var y := AnyKey(t);
    if y != x {
      assert (t - {y}).Keys == t.Keys - {y};
      assert (t - {x}).Keys == t.Keys - {x};
      TotalRemove(t - {y}, x);
      TotalRemove(t - {x}, y);
      assert t - {y} - {x} == t - {x} - {y};
    }
  }

  /** Recording one occurrence raises the total by exactly one. */
  lemma RecordTotal(t: Table, s: State, next: Token)
    ensures Total(Record(t, s, next)) == Total(t) + 1
  {
    var r := Record(t, s, next);
    TotalRemove(r, s);
    assert r - {s} == t - {s};
    if s in t {
      TotalRemove(t, s);
    } else {
      assert t - {s} == t;
    }
  }
}
