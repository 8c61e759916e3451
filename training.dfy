/**
 * What training does to a transition table, as functions on values: every
 * window of `order + 1` consecutive tokens records its last token under its
 * first `order` tokens, windows taken left to right.
 */
module Training {
  import opened TransitionTable

  /**
   * The table obtained from `t` by recording every window of `tokens` in
   * order; a token sequence with no more than `order` tokens has no window.
   */
  function Trained(t: Table, order: nat, tokens: seq<Token>): Table
    decreases |tokens|
  {
    if |tokens| <= order then t
    else Trained(Record(t, tokens[..order], tokens[order]), order, tokens[1..])
  }

  /**
   * Reference definition: the tokens that follow state `s` in `tokens`, one
   * per window whose first `order` tokens are `s`, in the order of the windows.
   */
  function Followers(order: nat, tokens: seq<Token>, s: State): seq<Token>
    decreases |tokens|
  {
    if |tokens| <= order then []
    else (if tokens[..order] == s then [tokens[order]] else []) + Followers(order, tokens[1..], s)
  }

  /** Training from window `i` on is recording window `i`, then training from window `i + 1` on. */
  lemma TrainedFrom(t: Table, order: nat, tokens: seq<Token>, i: nat)
    requires i + order < |tokens|
    ensures Trained(t, order, tokens[i..])
      == Trained(Record(t, tokens[i..i + order], tokens[i + order]), order, tokens[i + 1..])
  {
    assert tokens[i..][..order] == tokens[i..i + order];
    assert tokens[i..][1..] == tokens[i + 1..];
  }

  /**
   * Training appends to each list exactly the tokens that followed its state,
   * in the order the windows occur.
   */
  lemma {:induction false} TrainedOccurrences(t: Table, order: nat, tokens: seq<Token>, s: State)
    ensures Occurrences(Trained(t, order, tokens), s) == Occurrences(t, s) + Followers(order, tokens, s)
    decreases |tokens|
  {
    if |tokens| > order {
      var t' := Record(t, tokens[..order], tokens[order]);
      TrainedOccurrences(t', order, tokens[1..], s);
    }
  }

  /** A key is present after training iff it was present before or some window produced it. */
  lemma {:induction false} TrainedKeys(t: Table, order: nat, tokens: seq<Token>, s: State)
    ensures s in Trained(t, order, tokens) <==> s in t || Followers(order, tokens, s) != []
    decreases |tokens|
  {
    if |tokens| > order {
      var t' := Record(t, tokens[..order], tokens[order]);
      TrainedKeys(t', order, tokens[1..], s);
    }
  }

  /** Training on `tokens` stores exactly `|tokens| - order` new occurrences. */
  lemma {:induction false} TrainedTotal(t: Table, order: nat, tokens: seq<Token>)
    requires |tokens| > order
    ensures Total(Trained(t, order, tokens)) == Total(t) + |tokens| - order
    decreases |tokens|
  {
    var t' := Record(t, tokens[..order], tokens[order]);
    RecordTotal(t, tokens[..order], tokens[order]);
    if |tokens| - 1 > order {
      TrainedTotal(t', order, tokens[1..]);
    }
  }

  /**
   * Training is append-only: no key disappears, and each old list is a
   * prefix of the new one.
   */
  lemma TrainedAppendOnly(t: Table, order: nat, tokens: seq<Token>)
    ensures Extends(t, Trained(t, order, tokens))
  {
    var r := Trained(t, order, tokens);
    forall s | s in t
      ensures s in r && t[s] <= r[s]
    {
      TrainedKeys(t, order, tokens, s);
      TrainedOccurrences(t, order, tokens, s);
    }
  }

  /** Training keeps every key of length `order` and every list non-empty. */
  lemma {:induction false} TrainedWellFormed(t: Table, order: nat, tokens: seq<Token>)
    requires WellFormed(order, t)
    ensures WellFormed(order, Trained(t, order, tokens))
    decreases |tokens|
  {
    if |tokens| > order {
      var t' := Record(t, tokens[..order], tokens[order]);
      TrainedWellFormed(t', order, tokens[1..]);
    }
  }

  /** Window `i` of `tokens` has state `s` and next token `x`. */
  predicate WindowAt(order: nat, tokens: seq<Token>, i: nat, s: State, x: Token)
  {
    i + order < |tokens| && tokens[i..i + order] == s && tokens[i + order] == x
  }

  /** Some window of `tokens` has state `s` and next token `x`. */
  ghost predicate Observed(order: nat, tokens: seq<Token>, s: State, x: Token)
  {
    exists i: nat :: WindowAt(order, tokens, i, s, x)
  }

  /** Every token that follows `s` does so in some window of `tokens`. */
  lemma {:induction false} FollowersObserved(order: nat, tokens: seq<Token>, s: State, x: Token)
    requires x in Followers(order, tokens, s)
    ensures Observed(order, tokens, s, x)
    decreases |tokens|
  {
    if tokens[..order] == s && tokens[order] == x {
      assert WindowAt(order, tokens, 0, s, x);
    } else {
      FollowersObserved(order, tokens[1..], s, x);
      var i: nat :| WindowAt(order, tokens[1..], i, s, x);
      assert tokens[1..][i..i + order] == tokens[i + 1..i + 1 + order];
      assert WindowAt(order, tokens, i + 1, s, x);
    }
  }

  /** Training on `a` then `b` stores, for `s`, the old list, then the followers in `a`, then those in `b`. */
  lemma TrainedTwice(t: Table, order: nat, a: seq<Token>, b: seq<Token>, s: State)
    ensures Occurrences(Trained(Trained(t, order, a), order, b), s)
      == Occurrences(t, s) + Followers(order, a, s) + Followers(order, b, s)
    ensures s in Trained(Trained(t, order, a), order, b)
      <==> s in t || Followers(order, a, s) != [] || Followers(order, b, s) != []
  {
    TrainedOccurrences(t, order, a, s);
    TrainedOccurrences(Trained(t, order, a), order, b, s);
    TrainedKeys(t, order, a, s);
    TrainedKeys(Trained(t, order, a), order, b, s);
  }

  /** For one state, training on `a` then `b` and on `b` then `a` agree on presence and multiplicities. */
  lemma TrainedCommutesAt(t: Table, order: nat, a: seq<Token>, b: seq<Token>, s: State)
    ensures s in Trained(Trained(t, order, a), order, b) <==> s in Trained(Trained(t, order, b), order, a)
    ensures multiset(Occurrences(Trained(Trained(t, order, a), order, b), s))
      == multiset(Occurrences(Trained(Trained(t, order, b), order, a), s))
  {
    TrainedTwice(t, order, a, b, s);
    TrainedTwice(t, order, b, a, s);
    var o, fa, fb := Occurrences(t, s), Followers(order, a, s), Followers(order, b, s);
    calc {
      multiset(o + fa + fb);
      multiset(o) + multiset(fa) + multiset(fb);
      multiset(o) + multiset(fb) + multiset(fa);
      multiset(o + fb + fa);
    }
  }

  /**
   * Training on two lines in either order gives the same keys and, for every
   * state, the same occurrences counted with multiplicity.
   */
  lemma TrainedCommutes(t: Table, order: nat, a: seq<Token>, b: seq<Token>)
    ensures Trained(Trained(t, order, a), order, b).Keys == Trained(Trained(t, order, b), order, a).Keys
    ensures forall s ::
      multiset(Occurrences(Trained(Trained(t, order, a), order, b), s))
      == multiset(Occurrences(Trained(Trained(t, order, b), order, a), s))
  {
    forall s {
      TrainedCommutesAt(t, order, a, b, s);
    }
  }

  /** The table of the worked example: order 2, trained on 1 2 3 1 2 4. */
  const ExampleTable: Table := map[[1, 2] := [3, 4], [2, 3] := [1], [3, 1] := [2]]

  /** The four windows of 1 2 3 1 2 4 at order 2, recorded one after another. */
  lemma TrainedExampleWindows()
    ensures Trained(map[], 2, [1, 2, 3, 1, 2, 4])
      == Record(Record(Record(Record(map[], [1, 2], 3), [2, 3], 1), [3, 1], 2), [1, 2], 4)
  {
    var s: seq<Token> := [1, 2, 3, 1, 2, 4];
    assert s[..2] == [1, 2] && s[1..] == [2, 3, 1, 2, 4];
    assert s[1..][..2] == [2, 3] && s[1..][1..] == [3, 1, 2, 4];
    assert s[2..][..2] == [3, 1] && s[2..][1..] == [1, 2, 4];
    assert s[3..][..2] == [1, 2] && s[3..][1..] == [2, 4];
  }

  /** Recording those four windows into an empty table gives the example table. */
  lemma ExampleRecords()
    ensures Record(Record(Record(Record(map[], [1, 2], 3), [2, 3], 1), [3, 1], 2), [1, 2], 4) == ExampleTable
  {
    var k12, k23, k31: State := [1, 2], [2, 3], [3, 1];
    assert k12[0] != k23[0] && k12[0] != k31[0] && k23[0] != k31[0];
    var t1 := Record(map[], k12, 3);
    assert t1 == map[k12 := [3]] by {
      assert Occurrences(map[], k12) + [3] == [3];
    }
    var t2 := Record(t1, k23, 1);
    assert t2 == map[k12 := [3], k23 := [1]] by {
      assert Occurrences(t1, k23) + [1] == [1];
    }
    var t3 := Record(t2, k31, 2);
    assert t3 == map[k12 := [3], k23 := [1], k31 := [2]] by {
      assert Occurrences(t2, k31) + [2] == [2];
    }
    assert Occurrences(t3, k12) + [4] == [3, 4];
  }

  /** With order 2, training an empty table on 1 2 3 1 2 4 gives the example table. */
  lemma TrainedExample()
    ensures Trained(map[], 2, [1, 2, 3, 1, 2, 4]) == ExampleTable
  {
    TrainedExampleWindows();
    ExampleRecords();
  }
}
