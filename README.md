# Order-k Markov model over token ids

This project models `MarkovModel` from `markov/src/main.rs` of git-markov.
It is a fixed-order Markov chain over integer token ids. The model holds an
`order` k and a transition table. The table maps a state, meaning exactly k
consecutive token ids, to the list of token ids seen right after that state.
Duplicates are kept on purpose: they are the frequency weight of a token.

- `table.dfy`, module `TransitionTable`: the table type (`map<seq<nat>, seq<nat>>`).
  It also defines the lookup `Occurrences`, the single-occurrence update `Record`,
  the invariant `WellFormed` (every key has k tokens, every list is non-empty)
  and the ghost measure `Total` (the sum of all list lengths).
- `training.dfy`, module `Training`: the function `Trained` gives the state of
  the table after training. It records every window of k + 1 tokens, left to
  right. `Followers` is an independent reference definition: the tokens that
  follow one state in a sequence. The lemmas relate the two and prove the
  training properties: the window count, append-only growth, the table
  invariant, commutativity of training on two lines, and the worked example.
- `generation.dfy`, module `Generation`: the predicate `IsCompletion`
  describes every output a generation run may produce. The random pick is
  left open, constrained only to be one of the current state's occurrences.
  Its lemmas cover an unknown seed, extending a walk by one step, the rule
  that a walk over a table built from a corpus only takes steps seen in that
  corpus, and the worked example.
- `model.dfy`, module `Markov`: the class `MarkovModel` with a `const order`
  and a mutable `transitions` field. It has `New`, the in-place `Train` (a
  loop over windows) and `Generate` (a loop of at most `length` steps with an
  early `break`, shifting the state window one token per step). Each method is
  proved against the functions and predicates above. `ExampleSession` runs the
  worked example through the three methods.

Two panics in the source become failure results of type `Result`:
`order == 0` in `new` gives `InvalidConfiguration`, and a seed whose length is
not `order` in `generate` gives `SeedLengthMismatch`. A caller that does not
handle the failure matches the source's abort.

## Model

| member | source | states |
|---|---|---|
| TransitionTable.Record | markov/src/main.rs:42-45 | `entry(state).or_insert_with(Vec::new).push(next)`: the key set gains `state`, that key's list gains `next` at its end, and every other key keeps its list |
| TransitionTable.RecordTotal | markov/src/main.rs:42-45 | one push raises the total number of stored occurrences by exactly one, whether or not the key existed before |
| Training.TrainedOccurrences | markov/src/main.rs:38-46 | after training, the list of every state is its old list followed by exactly the tokens that follow that state in the input, in window order |
| Training.TrainedKeys | markov/src/main.rs:38-46 | after training, a state is a key iff it was a key before or at least one window of the input starts with it |
| Training.TrainedTotal | markov/src/main.rs:38-46 | training on `len(T) > order` tokens adds exactly `len(T) - order` occurrences to the total |
| Training.TrainedAppendOnly | markov/src/main.rs:42-45 | training removes no key, and each old list is a prefix of the new list |
| Training.TrainedWellFormed | markov/src/main.rs:39-45 | training keeps every key at length `order` and every list non-empty |
| Training.FollowersObserved | markov/src/main.rs:38-41 | each token that follows a state comes from some window of the input: that window's first `order` tokens are the state and its last token is the follower |
| Training.TrainedTwice | markov/src/main.rs:38-46 | after training on line A then line B, a state's list is its old list, then its followers in A, then its followers in B, and the state is a key iff it was before or A or B has a window starting with it |
| Training.TrainedCommutes | markov/src/main.rs:29-46 | training on line A then line B, or on B then A, gives the same keys and, for every state, the same multiset of occurrences |
| Training.TrainedExample | markov/src/main.rs:38-45 | order 2 on 1 2 3 1 2 4 from an empty table gives [1,2] ↦ [3,4] (insertion order), [2,3] ↦ [1] and [3,1] ↦ [2], and no other key |
| Generation.WalkExtend | markov/src/main.rs:62-66 | appending an occurrence of the last `order` output tokens (the current state) keeps every appended token an occurrence of the state before it |
| Generation.CompletionOfUnknownSeed | markov/src/main.rs:61-72 | if the seed is not a key, every possible output is exactly the seed, whatever `length` is |
| Generation.WalkStepsObserved | markov/src/main.rs:62-64 | over a table trained from empty on a corpus, each generated step (state, then drawn token) is a window of that corpus |
| Generation.CompletionExample | markov/src/main.rs:61-73 | with the example table, generating one token from 1 2 can give 1 2 3 or 1 2 4, and nothing else |
| Generation.CompletionExampleUnseen | markov/src/main.rs:61-72 | with the example table, the unseen seed 9 9 is returned alone for any `length` |
| Markov.MarkovModel.constructor | markov/src/main.rs:23-26 | the fresh model has the given order, an empty table and satisfies the invariant |
| Markov.MarkovModel.New | markov/src/main.rs:18-27 | fails with `InvalidConfiguration` iff `order == 0`; otherwise a fresh valid model with that order and an empty table |
| Markov.MarkovModel.Train | markov/src/main.rs:29-47 | the new table is `Trained(old table, order, tokens)`, so the training lemmas above (window count, append-only growth, occurrences and keys) all hold of it; it is unchanged for `len <= order`; the order stays fixed; every key keeps length `order` and every list stays non-empty (a loop invariant) |
| Markov.MarkovModel.Generate | markov/src/main.rs:49-76 | fails with `SeedLengthMismatch` iff the seed does not have exactly `order` tokens; otherwise the output starts with the seed, has between `order` and `order + length` tokens, and each appended token is an occurrence of the state before it; it stops short only at a state with no occurrences; for an unknown seed it is the seed; the table is not changed |
| Markov.ExampleSession | markov/src/main.rs:18-76 | building an order-2 model, training it on 1 2 3 1 2 4 and generating one token from 1 2 yields 1 2 3 or 1 2 4; generating 8 tokens from 9 9 yields 9 9 |

## Left out

- `main` (markov/src/main.rs:79-150): argument parsing, reading lines from standard input and printing to standard output are command-line plumbing.
- Persistence with `bincode` and `zstd` (markov/src/main.rs:95-102, 125-130): these are foreign serialisation and compression libraries with no visible format, so the model states no save/load round trip.
- The `tiktoken_rs` tokenizer (markov/src/main.rs:32, 50, 75): `Train` takes the already-encoded token sequence, `Generate` takes the encoded seed and returns the output token sequence, and decoding the output back to text is outside the model. The `unwrap` of `decode` is therefore not modelled.
- The `rand` generator (markov/src/main.rs:56, 63): the pick is modelled as an arbitrary valid index into the candidate list. The uniform distribution over occurrences is not modelled.
- `FxHashMap` hashing is replaced by a mathematical `map`.
- Integer widths: tokens are `u32` and `order` is `usize` in the source. Here both are unbounded naturals. No arithmetic is done on tokens, and `order + 1` in `windows` is reached only when the sequence is longer than `order`, so the widths change no behaviour of the model.
- Markov.MarkovModel.Generate: its contract does not mention the local `current_state`, because the source does not return it. The facts that it always has `order` tokens and equals the last `order` output tokens are proved as loop invariants instead. The method has no `modifies` clause, so it cannot change the table.
