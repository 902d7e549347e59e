/**
 * The family tree that the `parents` field of a creature forms, and what the
 * constructor and the breeding transaction guarantee about it.
 */
module FamilyTree {
  import opened Wrappers
  import opened CreatureBreeding

  /**
   * Every creature in the tree was made by the constructor with its defaults
   * (a founder) or by a successful breeding: traits in range, founders at
   * generation 1, and each bred creature of its parents' species one
   * generation above the older parent.
   */
  predicate WellBred(c: Creature)
    decreases c
  {
    TraitsInRange(c) &&
    match c.parents
    case NoParents => c.generation == FounderGeneration
    case ParentPair(p1, p2) =>
      && p1.species == c.species && p2.species == c.species
      && c.generation == Max(p1.generation, p2.generation) + 1
      && WellBred(p1) && WellBred(p2)
  }

  /** The number of generations on the longest line from `c` back to a founder, counting `c`. */
  function Depth(c: Creature): (d: nat)
    decreases c
    ensures d >= 1
  {
    match c.parents
    case NoParents => 1
    case ParentPair(p1, p2) => Max(Depth(p1), Depth(p2)) + 1
  }

  /**
   * `c` and all its ancestors, each followed by the ancestors of its first and
   * then its second parent: the order in which the family tree is displayed.
   */
  function Ancestry(c: Creature): (s: seq<Creature>)
    decreases c
    ensures |s| >= 1 && s[0] == c
  {
    match c.parents
    case NoParents => [c]
    case ParentPair(p1, p2) => [c] + Ancestry(p1) + Ancestry(p2)
  }

  /** A creature made with the constructor's defaults is a well-bred founder. */
  lemma FounderWellBred(name: string, species: string, color: string,
                        size: int, strength: int, intelligence: int)
    ensures WellBred(NewFounder(name, species, color, size, strength, intelligence))
    ensures Ancestry(NewFounder(name, species, color, size, strength, intelligence)) ==
            [NewFounder(name, species, color, size, strength, intelligence)]
  {
  }

  /** Breeding two well-bred creatures, when it succeeds, yields a well-bred creature. */
  lemma BreedPreservesWellBred(parent1: Creature, parent2: Creature, draws: BreedDraws)
    requires WellBred(parent1) && WellBred(parent2)
    requires BreedCreatures(parent1, parent2, draws).Success?
    ensures WellBred(BreedCreatures(parent1, parent2, draws).value)
    ensures Ancestry(BreedCreatures(parent1, parent2, draws).value) ==
            [BreedCreatures(parent1, parent2, draws).value] + Ancestry(parent1) + Ancestry(parent2)
  {
  }

  /** In a well-bred tree the generation counts the generations back to the founders. */
  lemma {:induction false} GenerationIsDepth(c: Creature)
    requires WellBred(c)
    ensures c.generation == Depth(c)
    decreases c
  {
    match c.parents
    case NoParents =>
    case ParentPair(p1, p2) =>
      GenerationIsDepth(p1);
      GenerationIsDepth(p2);
  }

  /**
   * Every ancestor in a well-bred tree has the creature's species, traits in
   * range, and a generation no higher than the creature's; any proper ancestor
   * is of a strictly earlier generation.
   */
  lemma {:induction false} AncestorsShareSpecies(c: Creature, i: nat)
    requires WellBred(c)
    requires i < |Ancestry(c)|
    ensures Ancestry(c)[i].species == c.species
    ensures TraitsInRange(Ancestry(c)[i])
    ensures FounderGeneration <= Ancestry(c)[i].generation <= c.generation
    ensures i > 0 ==> Ancestry(c)[i].generation < c.generation
    decreases c
  {
    match c.parents
    case NoParents =>
      assert Ancestry(c) == [c];
    case ParentPair(p1, p2) =>
      var a1, a2 := Ancestry(p1), Ancestry(p2);
      assert Ancestry(c) == [c] + a1 + a2;
      if i == 0 {
        GenerationIsDepth(c);
      } else if i <= |a1| {
        AncestorsShareSpecies(p1, i - 1);
        assert Ancestry(c)[i] == a1[i - 1];
      } else {
        AncestorsShareSpecies(p2, i - 1 - |a1|);
        assert Ancestry(c)[i] == a2[i - 1 - |a1|];
      }
  }

  /**
   * In a well-bred tree every proper ancestor is of a strictly earlier generation,
   * so the generation counter alone tells the creature apart from all its ancestors.
   */
  lemma NotOwnAncestor(c: Creature, i: nat)
    requires WellBred(c)
    requires 0 < i < |Ancestry(c)|
    ensures Ancestry(c)[i].generation < c.generation
    ensures Ancestry(c)[i] != c
  {
    AncestorsShareSpecies(c, i);
  }
}
