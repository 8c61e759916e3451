/**
 * The Markov model object: a fixed order and a transition table that
 * training grows in place and generation only reads.
 */
module Markov {
  import opened TransitionTable
  import opened Training
  import opened Generation

  /** The two ways the model's operations refuse their input. */
  datatype Error = InvalidConfiguration | SeedLengthMismatch

  datatype Result<T> = Success(value: T) | Failure(error: Error)

  class MarkovModel {
    /** Number of preceding tokens that form a state; fixed at construction. */
    const order: nat
    var transitions: Table

    /** The object invariant: a positive order and a well-formed table. */
    predicate Valid()
      reads this
    {
      order >= 1 && WellFormed(order, transitions)
    }

    /** A model of the given order with an empty table. */
    constructor (order: nat)
      requires order >= 1
      ensures Valid()
      ensures this.order == order && transitions == map[]
    {
      this.order := order;
      transitions := map[];
    }

    /** Construction that rejects order 0 and otherwise yields an empty model. */
    static method New(order: nat) returns (r: Result<MarkovModel>)
      ensures r.Failure? <==> order == 0
      ensures r.Failure? ==> r.error == InvalidConfiguration
      ensures r.Success? ==> fresh(r.value) && r.value.Valid()
      ensures r.Success? ==> r.value.order == order && r.value.transitions == map[]
    {
      if order == 0 {
        return Failure(InvalidConfiguration);
      }
      var m := new MarkovModel(order);
      return Success(m);
    }

    /**
     * Records every window of `order + 1` consecutive tokens: its last token
     * is appended to the occurrence list of its first `order` tokens.
     */
    method Train(tokens: seq<Token>)
      requires Valid()
      modifies this
      ensures transitions == Trained(old(transitions), order, tokens)
      ensures Valid()
      ensures |tokens| <= order ==> transitions == old(transitions)
    {
      ghost var before := transitions;
      if |tokens| <= order {
        return;
      }
      var i := 0;
      while i + order < |tokens|
        invariant i + order <= |tokens|
        invariant Trained(transitions, order, tokens[i..]) == Trained(before, order, tokens)
        invariant WellFormed(order, transitions)
      {
        var state := tokens[i..i + order];
        var next := tokens[i + order];
        TrainedFrom(transitions, order, tokens, i);
        transitions := Record(transitions, state, next);
        i := i + 1;
      }
    }

    /**
     * Extends `seed` by up to `length` tokens, each one an occurrence of the
     * current state, chosen freely among them; stops early at a state with
     * no occurrences. Fails when `seed` does not have exactly `order` tokens.
     */
    method Generate(seed: seq<Token>, length: nat) returns (r: Result<seq<Token>>)
      requires Valid()
      ensures r.Failure? <==> |seed| != order
      ensures r.Failure? ==> r.error == SeedLengthMismatch
      ensures r.Success? ==> IsCompletion(transitions, order, seed, length, r.value)
      ensures r.Success? && seed !in transitions ==> r.value == seed
    {
      if |seed| != order {
        return Failure(SeedLengthMismatch);
      }
      var current := seed;
      var output := current;
      var step := 0;
      while step < length
        invariant step <= length
        invariant |output| == order + step
        invariant output[..order] == seed
        invariant current == output[|output| - order..]
        invariant IsWalk(transitions, order, output)
      {
        if current !in transitions {
          break;
        }
        var candidates := transitions[current];
        if |candidates| == 0 {
          break;
        }
        var j :| 0 <= j < |candidates|;
        var next := candidates[j];
        WalkExtend(transitions, order, output, next);
        output := output + [next];
        current := current[1..] + [next];
        step := step + 1;
      }
      if seed !in transitions {
        CompletionOfUnknownSeed(transitions, order, seed, length, output);
      }
      return Success(output);
    }
  }

  /**
   * The worked example end to end: an order-2 model trained on 1 2 3 1 2 4
   * completes 1 2 by one token to 1 2 3 or 1 2 4, and leaves 9 9 alone.
   */
  method ExampleSession() returns (completed: seq<Token>, unseen: seq<Token>)
    ensures completed == [1, 2, 3] || completed == [1, 2, 4]
    ensures unseen == [9, 9]
  {
    var created := MarkovModel.New(2);
    var m := created.value;
    m.Train([1, 2, 3, 1, 2, 4]);
    TrainedExample();
    var r := m.Generate([1, 2], 1);
    CompletionExample(r.value);
    completed := r.value;
    r := m.Generate([9, 9], 8);
    CompletionExampleUnseen(r.value, 8);
    unseen := r.value;
  }
}
