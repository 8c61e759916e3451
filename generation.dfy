/**
 * What a generation run may return. The pick among a state's occurrences is
 * left open, so these predicates describe every output a run can produce.
 */
module Generation {
  import opened TransitionTable
  import opened Training

  /** Every token after the first `order` is an occurrence of the `order` tokens before it. */
  predicate IsWalk(t: Table, order: nat, out: seq<Token>)
  {
    forall i :: order <= i < |out| ==> out[i] in Occurrences(t, out[i - order..i])
  }

  /** A walk extended by an occurrence of its last `order` tokens is a walk. */
  lemma WalkExtend(t: Table, order: nat, out: seq<Token>, x: Token)
    requires IsWalk(t, order, out)
    requires order <= |out|
    requires x in Occurrences(t, out[|out| - order..])
    ensures IsWalk(t, order, out + [x])
  {
    var out' := out + [x];
    forall i | order <= i < |out'|
      ensures out'[i] in Occurrences(t, out'[i - order..i])
    {
      assert out'[i - order..i] == out[i - order..i];
    }
  }

  /**
   * `out` is a possible result of generating `length` tokens from `seed`:
   * it starts with the seed, takes at most `length` steps through `t`, and
   * stops short only at a state with no occurrences.
   */
  predicate IsCompletion(t: Table, order: nat, seed: seq<Token>, length: nat, out: seq<Token>)
  {
    && |seed| == order
    && order <= |out| <= order + length
    && out[..order] == seed
    && IsWalk(t, order, out)
    && (|out| == order + length || Occurrences(t, out[|out| - order..]) == [])
  }

  /** A seed with no occurrences is returned unchanged, whatever `length` is. */
  lemma CompletionOfUnknownSeed(t: Table, order: nat, seed: seq<Token>, length: nat, out: seq<Token>)
    requires IsCompletion(t, order, seed, length, out)
    requires seed !in t
    ensures out == seed
  {
    assert |out| > order ==> out[order] in Occurrences(t, out[order - order..order]);
    assert out == out[..order];
  }

  /**
   * When the table was trained from an empty one on `corpus`, each step of a
   * walk, its state followed by the token drawn, is a window of the corpus.
   */
  lemma WalkStepsObserved(order: nat, corpus: seq<Token>, out: seq<Token>, i: nat)
    requires IsWalk(Trained(map[], order, corpus), order, out)
    requires order <= i < |out|
    ensures Observed(order, corpus, out[i - order..i], out[i])
  {
    var s := out[i - order..i];
    TrainedOccurrences(map[], order, corpus, s);
    FollowersObserved(order, corpus, s, out[i]);
  }

  /** With the example table, generating one token from 1 2 yields exactly 1 2 3 or 1 2 4. */
  lemma CompletionExample(out: seq<Token>)
    ensures IsCompletion(ExampleTable, 2, [1, 2], 1, out) <==> out == [1, 2, 3] || out == [1, 2, 4]
  {
    var t := ExampleTable;
    var k12: State := [1, 2];
    assert Occurrences(t, k12) == [3, 4];
    if IsCompletion(t, 2, k12, 1, out) {
      assert out[|out| - 2..] == k12 || |out| == 3;
      assert out[2 - 2..2] == k12;
      assert out == k12 + [out[2]];
    }
    if out == [1, 2, 3] || out == [1, 2, 4] {
      assert out[2 - 2..2] == k12;
      assert IsWalk(t, 2, out);
    }
  }

  /** With the example table, a seed never seen in training yields itself. */
  lemma CompletionExampleUnseen(out: seq<Token>, length: nat)
    requires IsCompletion(ExampleTable, 2, [9, 9], length, out)
    ensures out == [9, 9]
  {
    var unseen: State := [9, 9];
    assert unseen !in ExampleTable by {
      assert unseen[0] != 1 && unseen[0] != 2 && unseen[0] != 3;
    }
    CompletionOfUnknownSeed(ExampleTable, 2, unseen, length, out);
  }
}
