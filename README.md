# Creature breeding, modelled in Dafny

This project models `creature_breeding.py`, a small creature breeding system.
A `Creature` has a name, species and colour, three numeric traits (size,
strength, intelligence) held in 1..10, a generation, and optionally the pair
of parent creatures it was bred from, so every creature carries its family
tree. `breed_creatures` refuses parents of different species. Otherwise it
builds an offspring from these parts:

- a name blended from the parents' names;
- a colour, either from a fixed blend table or from one parent;
- traits averaged from the parents, mutated, rounded and clamped;
- a generation one above the older parent;
- the ordered pair of parents.

The model is pure, like the source: datatypes and functions, with each random
draw of the source passed in as a parameter.

- `random.random()` in the colour rule becomes a `real` roll, compared with the
  same constant 0.2.
- `random.choice([color1, color2])` becomes a `ParentChoice` (`First` or `Second`).
- Each `random.uniform(-1, 1)` becomes a `real` mutation. The properties that need
  the draw's range take it as a precondition.

With these parameters every contract holds for every possible draw.

Files:

- `wrappers.dfy` (module `Wrappers`): the `Result` type that stands for "returns a value or raises".
- `rounding.dfy` (module `Rounding`): Python's `round` on one argument (round half to even), on exact reals.
- `creature_breeding.dfy` (module `CreatureBreeding`): the creature, its constructor, `get_stats`, the three
  inheritance helpers and `breed_creatures`.
- `family_tree.dfy` (module `FamilyTree`): what the constructor and breeding guarantee about the whole
  ancestor tree that `parents` forms.

The datatype constructor `CreatureBreeding.Creature` stores fields unchanged. The Python constructor is
`NewCreature` (and `NewFounder` with its defaults), which clamps.

## Model

| member | source | states |
|---|---|---|
| `CreatureBreeding.Clamp` | creature_breeding.py:32-34 | the result lies in [1, 10]; a value already in [1, 10] is unchanged; below 1 gives 1, above 10 gives 10 |
| `CreatureBreeding.ClampIsNearest` | creature_breeding.py:32-34 | the clamped value is no farther from the input than any point of [1, 10] |
| `CreatureBreeding.ClampIdempotent` | creature_breeding.py:32-34 | clamping an already clamped trait (as the constructor does to the inherited traits) changes nothing |
| `CreatureBreeding.NewCreature` | creature_breeding.py:26-36 | after construction every numeric trait lies in [1, 10], inputs already in range are stored unchanged, and name, species, colour, generation and parents are stored as given |
| `CreatureBreeding.NewFounder` | creature_breeding.py:26-36 | a creature built without generation or parents has generation 1 and no parents |
| `CreatureBreeding.NewCreatureRebuilds` | creature_breeding.py:26-36 | rebuilding an in-range creature from its own fields gives back the same creature |
| `CreatureBreeding.GetStats` | creature_breeding.py:55-65 | the stats dictionary has exactly the seven keys name, species, color, size, strength, intelligence, generation, each mapped to that field |
| `CreatureBreeding.GetStatsDeterminesCreature` | creature_breeding.py:55-65 | the stats record every field except the parents: creatures with equal stats differ at most in their parents |
| `CreatureBreeding.OffspringName` | creature_breeding.py:120-134 | if both names have length at least 3, the result has length len(name1)//2 + (len(name2) - len(name2)//2) and is the first half of name1 followed by the second half of name2; otherwise it is name1, then name2, then "Jr" |
| `CreatureBreeding.OffspringNamePrefixSuffix` | creature_breeding.py:127-131 | a blended name is a prefix of the first parent's name followed by a suffix of the second's |
| `CreatureBreeding.OffspringNameBlendable` | creature_breeding.py:127-134 | an offspring name has length at least 3 unless both parent names are empty (so it can be blended again), and always at least 2 |
| `CreatureBreeding.InheritColor` | creature_breeding.py:137-159 | the colour is color1, color2 or the table blend of the ordered pair; it is the blend when the roll is under 0.2 and the pair is in the table, and otherwise the chosen parent's colour |
| `CreatureBreeding.ColorBlendsOnlyPrimaries` | creature_breeding.py:145-152 | only pairs of two different colours among Red, Blue, Yellow are in the table, and each blends to Purple, Orange or Green |
| `CreatureBreeding.ColorBlendsSymmetric` | creature_breeding.py:145-152 | the table is symmetric: a pair is in it exactly when its swap is, with the same blend |
| `CreatureBreeding.InheritColorNewIffBlend` | creature_breeding.py:154-159 | the offspring colour differs from both parents' colours if and only if the roll is under 0.2 and the pair blends |
| `CreatureBreeding.InheritColorSameColor` | creature_breeding.py:145-159 | two parents of one colour always give that colour |
| `CreatureBreeding.InheritColorSwap` | creature_breeding.py:145-159 | swapping the parents and the parent choice gives the same colour |
| `Rounding.RoundHalfEven` | creature_breeding.py:175 | `round` gives an integer within 1/2 of its argument, and the even one on a tie |
| `Rounding.RoundHalfEvenUnique` | creature_breeding.py:175 | those two properties determine the rounded value: any integer with both is the result |
| `Rounding.RoundHalfEvenOfInteger` | creature_breeding.py:175 | an integer rounds to itself |
| `Rounding.RoundHalfEvenWithin` | creature_breeding.py:175 | a value strictly within 1/2 of the integer interval [lo, hi] rounds into it |
| `CreatureBreeding.MutatedTrait` | creature_breeding.py:169-175 | the pre-clamp value is within 1/2 of the parents' average plus the mutation |
| `CreatureBreeding.InheritTrait` | creature_breeding.py:162-176 | the offspring trait lies in [1, 10] whatever the mutation draw; it equals the rounded value when that is in range, 1 when the rounded value is below 1, and 10 when it is above 10 |
| `CreatureBreeding.MutatedTraitNearAverage` | creature_breeding.py:169-175 | with a mutation in [-1, 1], the pre-clamp value is within 1.5 of the parents' average |
| `CreatureBreeding.InheritTraitNearParents` | creature_breeding.py:169-176 | with parents in [1, 10] and a mutation in [-1, 1], the offspring trait is within 1.5 of the average and between min(parents) - 1 and max(parents) + 1 |
| `CreatureBreeding.InheritTraitBetweenParents` | creature_breeding.py:169-176 | with parents in [1, 10] and a mutation strictly within 1/2, the offspring trait lies between the two parents' traits |
| `CreatureBreeding.InheritTraitSameParents` | creature_breeding.py:169-176 | equal parents and a zero mutation pass the trait on unchanged |
| `CreatureBreeding.BreedCreatures` | creature_breeding.py:68-117 | breeding fails with the two species exactly when they differ; on success the offspring has both parents' species, generation max(parent generations) + 1 (above both), parents exactly (parent1, parent2), the blended name, the inherited colour and traits, all traits in [1, 10] |
| `CreatureBreeding.BreedColorClosed` | creature_breeding.py:94-95 | an offspring's colour is a parent's colour, or a secondary colour when both parents are primary colours |
| `CreatureBreeding.BreedDrawsOnlyAffectColorAndTraits` | creature_breeding.py:85-117 | the random draws decide only the offspring's colour and numeric traits: whether breeding succeeds, and the name, species, generation and parents, do not depend on them |
| `FamilyTree.Ancestry` | creature_breeding.py:187-193 | the ancestor list starts with the creature itself, followed by its first parent's tree and then its second's, in the order the family tree is displayed |
| `FamilyTree.FounderWellBred` | creature_breeding.py:26-36 | a founder built with the defaults is a consistent one-creature family tree |
| `FamilyTree.BreedPreservesWellBred` | creature_breeding.py:85-117 | breeding consistent parents gives a consistent offspring whose ancestry is itself followed by the two parents' ancestries |
| `FamilyTree.GenerationIsDepth` | creature_breeding.py:102-103 | in a consistent tree a creature's generation is the number of generations on its longest line back to a founder |
| `FamilyTree.AncestorsShareSpecies` | creature_breeding.py:85-114 | every ancestor in a consistent tree has the creature's species and traits in [1, 10], generation between 1 and the creature's, and every proper ancestor has a strictly lower generation |
| `FamilyTree.NotOwnAncestor` | creature_breeding.py:102-115 | in a consistent tree every proper ancestor has a strictly lower generation, so the generation tells the creature apart from each of its ancestors |

"Consistent" (`FamilyTree.WellBred`) means every creature in the tree came from the constructor
with its defaults or from a successful breeding: traits in [1, 10], founders at generation 1, and
bred creatures of their parents' species one generation above the older parent.

## Left out

- `display_family_tree` (creature_breeding.py:179-193) prints only. `FamilyTree.Ancestry` keeps the order in which it walks the tree, without the indentation and the text.
- `__str__` and `__repr__` are presentation formatting and are not modelled.
- `demo.py` is a console demo. It only builds example creatures and prints them.
- Python's `random` module is not modelled. Its draws are parameters of the functions that use them. The model does not capture the probabilities of the draws, such as the 20% blend chance or the 50/50 parent choice.
- `CreatureBreeding.InheritTrait`: the average, the mutation and `round` are computed on exact reals. IEEE floating-point representation error is not modelled. A float sum that lands just beside a .5 tie could round differently in the source than in this model.
- The Python constructor accepts any `parents` value and any generation. The model's parents are either absent or an ordered pair of creatures, the only form the source ever passes.
- Object identity is not modelled. Creatures are values, so "the offspring's parents are `(parent1, parent2)`" is stated as value equality.
