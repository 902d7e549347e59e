/**
 * A model of the creature breeding module: the `Creature` value, the breeding
 * transaction and its three inheritance helpers.
 *
 * Every random draw of `creature_breeding.py` is an explicit parameter here, so each
 * function is deterministic and its contract holds for every possible draw.
 */
module CreatureBreeding {
  import opened Wrappers
  import opened Rounding

  /** Bounds of the three numeric traits (size, strength, intelligence). */
  const MinTrait: int := 1
  const MaxTrait: int := 10

  /** Generation of a creature made without explicit generation. */
  const FounderGeneration: int := 1

  /** Probability below which a blendable colour pair blends. */
  const BlendChance: real := 0.2

  /** The suffix appended when the parents' names are too short to blend. */
  const JuniorSuffix: string := "Jr"

  /** Shortest name that is split in half when two names are blended. */
  const MinBlendableName: nat := 3

  /**
   * A creature. Its family tree is the recursive `parents` field.
   * Build creatures with `NewCreature` or `NewFounder`, which clamp the traits
   * as the Python constructor does; the datatype's own constructor does not.
   */
  datatype Creature = Creature(
    name: string,
    species: string,
    color: string,
    size: int,
    strength: int,
    intelligence: int,
    generation: int,
    parents: Parents)

  /** No parents for a founder, or the ordered pair of parents of a bred creature. */
  datatype Parents = NoParents | ParentPair(first: Creature, second: Creature)

  function Max(a: int, b: int): int {
    if a >= b then a else b
  }

  function Min(a: int, b: int): int {
    if a <= b then a else b
  }

  predicate InTraitRange(v: int) {
    MinTrait <= v <= MaxTrait
  }

  /** The three numeric traits of `c` lie in the trait range. */
  predicate TraitsInRange(c: Creature) {
    InTraitRange(c.size) && InTraitRange(c.strength) && InTraitRange(c.intelligence)
  }

  // ---------------------------------------------------------------------------
  // Construction
  // ---------------------------------------------------------------------------

  /** `max(1, min(10, value))`: the value moved into the trait range, unchanged if already there. */
  function Clamp(value: int): (r: int)
    ensures InTraitRange(r)
    ensures InTraitRange(value) ==> r == value
    ensures value < MinTrait ==> r == MinTrait
    ensures value > MaxTrait ==> r == MaxTrait
  {
    Max(MinTrait, Min(MaxTrait, value))
  }

  /** The clamped value is the point of the trait range nearest to the input. */
  lemma ClampIsNearest(value: int, t: int)
    requires InTraitRange(t)
    ensures (Clamp(value) - value) * (Clamp(value) - value) <= (t - value) * (t - value)
  {
  }

  /** Clamping twice is clamping once. */
  lemma ClampIdempotent(value: int)
    ensures Clamp(Clamp(value)) == Clamp(value)
  {
  }

  /**
   * The constructor `Creature(name, species, color, size, strength, intelligence,
   * generation, parents)`: numeric traits are clamped into [1, 10]; everything
   * else is stored as given.
   */
  function NewCreature(name: string, species: string, color: string,
                       size: int, strength: int, intelligence: int,
                       generation: int, parents: Parents): (c: Creature)
    ensures TraitsInRange(c)
    ensures InTraitRange(size) ==> c.size == size
    ensures InTraitRange(strength) ==> c.strength == strength
    ensures InTraitRange(intelligence) ==> c.intelligence == intelligence
    ensures c.size == Clamp(size) && c.strength == Clamp(strength) && c.intelligence == Clamp(intelligence)
    ensures c.name == name && c.species == species && c.color == color
    ensures c.generation == generation && c.parents == parents
  {
    Creature(name, species, color, Clamp(size), Clamp(strength), Clamp(intelligence), generation, parents)
  }

  /** The constructor called with its defaults: generation 1 and no parents. */
  function NewFounder(name: string, species: string, color: string,
                      size: int, strength: int, intelligence: int): (c: Creature)
    ensures c == NewCreature(name, species, color, size, strength, intelligence, FounderGeneration, NoParents)
    ensures c.generation == 1 && c.parents.NoParents?
  {
    NewCreature(name, species, color, size, strength, intelligence, FounderGeneration, NoParents)
  }

  /** Building a creature from the fields of one that is already in range gives it back unchanged. */
  lemma NewCreatureRebuilds(c: Creature)
    requires TraitsInRange(c)
    ensures NewCreature(c.name, c.species, c.color, c.size, c.strength, c.intelligence,
                        c.generation, c.parents) == c
  {
  }

  // ---------------------------------------------------------------------------
  // get_stats
  // ---------------------------------------------------------------------------

  /** A value of the stats dictionary: a string or an integer. */
  datatype StatValue = Text(text: string) | Number(number: int)

  const StatKeys: set<string> :=
    {"name", "species", "color", "size", "strength", "intelligence", "generation"}

  /** The stats dictionary: every field except the parents, under its own name. */
  function GetStats(c: Creature): (stats: map<string, StatValue>)
    ensures stats.Keys == StatKeys
    ensures stats["name"] == Text(c.name) && stats["species"] == Text(c.species)
    ensures stats["color"] == Text(c.color)
    ensures stats["size"] == Number(c.size) && stats["strength"] == Number(c.strength)
    ensures stats["intelligence"] == Number(c.intelligence)
    ensures stats["generation"] == Number(c.generation)
  {
    map["name" := Text(c.name),
        "species" := Text(c.species),
        "color" := Text(c.color),
        "size" := Number(c.size),
        "strength" := Number(c.strength),
        "intelligence" := Number(c.intelligence),
        "generation" := Number(c.generation)]
  }

  /** The stats lose only the parents: two creatures with equal stats differ at most in their parents. */
  lemma GetStatsDeterminesCreature(a: Creature, b: Creature)
    requires GetStats(a) == GetStats(b)
    ensures a.(parents := b.parents) == b
  {
  }

  // ---------------------------------------------------------------------------
  // _generate_offspring_name
  // ---------------------------------------------------------------------------

  /**
   * Both names have at least three characters: the first half of `name1`
   * (floor midpoint) followed by the second half of `name2`. Otherwise the
   * two names concatenated with the suffix "Jr".
   */
  function OffspringName(name1: string, name2: string): (r: string)
    ensures |name1| >= MinBlendableName && |name2| >= MinBlendableName ==>
              |r| == |name1| / 2 + (|name2| - |name2| / 2)
              && r[..|name1| / 2] == name1[..|name1| / 2]
              && r[|name1| / 2..] == name2[|name2| / 2..]
    ensures !(|name1| >= MinBlendableName && |name2| >= MinBlendableName) ==>
              |r| == |name1| + |name2| + |JuniorSuffix|
              && r[..|name1|] == name1
              && r[|name1|..|name1| + |name2|] == name2
              && r[|name1| + |name2|..] == JuniorSuffix
  {
    if |name1| >= MinBlendableName && |name2| >= MinBlendableName then
      name1[..|name1| / 2] + name2[|name2| / 2..]
    else
      name1 + name2 + JuniorSuffix
  }

  /** A blended name is a prefix of the first name followed by a suffix of the second. */
  lemma OffspringNamePrefixSuffix(name1: string, name2: string)
    requires |name1| >= MinBlendableName && |name2| >= MinBlendableName
    ensures exists i, j :: 0 <= i <= |name1| && 0 <= j <= |name2| &&
              OffspringName(name1, name2) == name1[..i] + name2[j..]
  {
    var r := OffspringName(name1, name2);
    var i, j := |name1| / 2, |name2| / 2;
    assert r == r[..i] + r[i..];
    assert r == name1[..i] + name2[j..];
  }

  /**
   * An offspring name has at least three characters unless both parents' names
   * are empty, so offspring names can themselves be blended in the next generation.
   */
  lemma OffspringNameBlendable(name1: string, name2: string)
    ensures |name1| + |name2| > 0 ==> |OffspringName(name1, name2)| >= MinBlendableName
    ensures |OffspringName(name1, name2)| >= |JuniorSuffix|
  {
  }

  // ---------------------------------------------------------------------------
  // _inherit_color
  // ---------------------------------------------------------------------------

  /** The fixed colour blend table, keyed by the ordered pair of parent colours. */
  const ColorBlends: map<(string, string), string> := map[
    ("Red", "Blue") := "Purple",
    ("Blue", "Red") := "Purple",
    ("Red", "Yellow") := "Orange",
    ("Yellow", "Red") := "Orange",
    ("Blue", "Yellow") := "Green",
    ("Yellow", "Blue") := "Green"]

  const PrimaryColors: set<string> := {"Red", "Blue", "Yellow"}
  const BlendedColors: set<string> := {"Purple", "Orange", "Green"}

  /** The outcome of choosing one of two parents uniformly. */
  datatype ParentChoice = First | Second

  /** Whether the blend roll (a draw from [0, 1)) and the colour pair produce a blend. */
  predicate Blends(color1: string, color2: string, blendRoll: real) {
    blendRoll < BlendChance && (color1, color2) in ColorBlends
  }

  /**
   * The offspring colour: the table's blend when the roll is under 0.2 and the
   * pair is in the table; otherwise the colour of the chosen parent.
   */
  function InheritColor(color1: string, color2: string, blendRoll: real, pick: ParentChoice): (r: string)
    ensures r == color1 || r == color2 ||
            ((color1, color2) in ColorBlends && r == ColorBlends[(color1, color2)])
    ensures Blends(color1, color2, blendRoll) ==> r == ColorBlends[(color1, color2)]
    ensures !Blends(color1, color2, blendRoll) ==> r == (if pick == First then color1 else color2)
  {
    if Blends(color1, color2, blendRoll) then ColorBlends[(color1, color2)]
    else if pick == First then color1
    else color2
  }

  /** Only two different primary colours blend, and they blend into a secondary colour. */
  lemma ColorBlendsOnlyPrimaries(color1: string, color2: string)
    requires (color1, color2) in ColorBlends
    ensures color1 in PrimaryColors && color2 in PrimaryColors && color1 != color2
    ensures ColorBlends[(color1, color2)] in BlendedColors
  {
  }

  /** The blend table is symmetric: the order of the parents does not change the blend. */
  lemma ColorBlendsSymmetric(color1: string, color2: string)
    ensures (color1, color2) in ColorBlends <==> (color2, color1) in ColorBlends
    ensures (color1, color2) in ColorBlends ==>
              ColorBlends[(color1, color2)] == ColorBlends[(color2, color1)]
  {
  }

  /** The offspring colour is new (neither parent's) exactly when a blend happened. */
  lemma InheritColorNewIffBlend(color1: string, color2: string, blendRoll: real, pick: ParentChoice)
    ensures var r := InheritColor(color1, color2, blendRoll, pick);
            (r != color1 && r != color2) <==> Blends(color1, color2, blendRoll)
  {
  }

  /** Parents of the same colour always pass that colour on. */
  lemma InheritColorSameColor(color: string, blendRoll: real, pick: ParentChoice)
    ensures InheritColor(color, color, blendRoll, pick) == color
  {
  }

  /** Swapping the parents together with the parent choice gives the same colour. */
  lemma InheritColorSwap(color1: string, color2: string, blendRoll: real, pick: ParentChoice)
    ensures InheritColor(color1, color2, blendRoll, pick) ==
            InheritColor(color2, color1, blendRoll, if pick == First then Second else First)
  {
  }

  // ---------------------------------------------------------------------------
  // _inherit_trait
  // ---------------------------------------------------------------------------

  /** The parents' average, `(trait1 + trait2) / 2` as true division. */
  function Average(trait1: int, trait2: int): real {
    (trait1 + trait2) as real / 2.0
  }

  /** `round(base_value + mutation)`, before the clamp. */
  function MutatedTrait(trait1: int, trait2: int, mutation: real): (v: int)
    ensures -0.5 <= v as real - (Average(trait1, trait2) + mutation) <= 0.5
  {
    RoundHalfEven(Average(trait1, trait2) + mutation)
  }

  /** The offspring trait: the parents' average plus the mutation draw, rounded, then clamped to [1, 10]. */
  function InheritTrait(trait1: int, trait2: int, mutation: real): (r: int)
    ensures InTraitRange(r)
    ensures InTraitRange(MutatedTrait(trait1, trait2, mutation)) ==> r == MutatedTrait(trait1, trait2, mutation)
    ensures MutatedTrait(trait1, trait2, mutation) < MinTrait ==> r == MinTrait
    ensures MutatedTrait(trait1, trait2, mutation) > MaxTrait ==> r == MaxTrait
  {
    Clamp(MutatedTrait(trait1, trait2, mutation))
  }

  /** A mutation draw of `random.uniform(-1, 1)`. */
  predicate MutationInRange(mutation: real) {
    -1.0 <= mutation <= 1.0
  }

  /** With a mutation in [-1, 1], the value before the clamp is within 1.5 of the parents' average. */
  lemma MutatedTraitNearAverage(trait1: int, trait2: int, mutation: real)
    requires MutationInRange(mutation)
    ensures -1.5 <= MutatedTrait(trait1, trait2, mutation) as real - Average(trait1, trait2) <= 1.5
  {
  }

  /**
   * With both parents in range and a mutation in [-1, 1], the clamp keeps the
   * offspring within 1.5 of the average, and at most one step outside the parents' span.
   */
  lemma InheritTraitNearParents(trait1: int, trait2: int, mutation: real)
    requires InTraitRange(trait1) && InTraitRange(trait2)
    requires MutationInRange(mutation)
    ensures -1.5 <= InheritTrait(trait1, trait2, mutation) as real - Average(trait1, trait2) <= 1.5
    ensures Min(trait1, trait2) - 1 <= InheritTrait(trait1, trait2, mutation) <= Max(trait1, trait2) + 1
  {
  }

  /** A mutation smaller than one half keeps the offspring between its parents. */
  lemma InheritTraitBetweenParents(trait1: int, trait2: int, mutation: real)
    requires InTraitRange(trait1) && InTraitRange(trait2)
    requires -0.5 < mutation < 0.5
    ensures Min(trait1, trait2) <= InheritTrait(trait1, trait2, mutation) <= Max(trait1, trait2)
  {
  }

  /** Two parents with the same trait and no mutation pass the trait on unchanged. */
  lemma InheritTraitSameParents(t: int)
    requires InTraitRange(t)
    ensures InheritTrait(t, t, 0.0) == t
  {
  }

  // ---------------------------------------------------------------------------
  // breed_creatures
  // ---------------------------------------------------------------------------

  /** The `ValueError` raised for parents of different species, with both species. */
  datatype BreedError = DifferentSpecies(species1: string, species2: string)

  /** The random draws of one breeding, in the order `breed_creatures` draws them. */
  datatype BreedDraws = BreedDraws(
    colorRoll: real,
    colorPick: ParentChoice,
    sizeMutation: real,
    strengthMutation: real,
    intelligenceMutation: real)

  /**
   * Breed two creatures. Fails when the species differ; otherwise the offspring
   * has the parents' species, a blended name, an inherited colour, inherited
   * traits, generation one above the older parent, and the parents as its pair.
   */
  function BreedCreatures(parent1: Creature, parent2: Creature, draws: BreedDraws): (r: Result<Creature, BreedError>)
    ensures r.Failure? <==> parent1.species != parent2.species
    ensures r.Failure? ==> r.error == DifferentSpecies(parent1.species, parent2.species)
    ensures r.Success? ==>
              var child := r.value;
              && child.species == parent1.species && child.species == parent2.species
              && child.generation == Max(parent1.generation, parent2.generation) + 1
              && child.generation > parent1.generation && child.generation > parent2.generation
              && child.parents == ParentPair(parent1, parent2)
              && child.name == OffspringName(parent1.name, parent2.name)
              && child.color == InheritColor(parent1.color, parent2.color, draws.colorRoll, draws.colorPick)
              && child.size == InheritTrait(parent1.size, parent2.size, draws.sizeMutation)
              && child.strength == InheritTrait(parent1.strength, parent2.strength, draws.strengthMutation)
              && child.intelligence == InheritTrait(parent1.intelligence, parent2.intelligence, draws.intelligenceMutation)
              && TraitsInRange(child)
  {
    if parent1.species != parent2.species then
      Failure(DifferentSpecies(parent1.species, parent2.species))
    else
      var name := OffspringName(parent1.name, parent2.name);
      var species := parent1.species;
      var color := InheritColor(parent1.color, parent2.color, draws.colorRoll, draws.colorPick);
      var size := InheritTrait(parent1.size, parent2.size, draws.sizeMutation);
      var strength := InheritTrait(parent1.strength, parent2.strength, draws.strengthMutation);
      var intelligence := InheritTrait(parent1.intelligence, parent2.intelligence, draws.intelligenceMutation);
      var generation := Max(parent1.generation, parent2.generation) + 1;
      Success(NewCreature(name, species, color, size, strength, intelligence, generation, ParentPair(parent1, parent2)))
  }

  /** The offspring's colour is one of its parents' colours or a secondary colour blended from two primaries. */
  lemma BreedColorClosed(parent1: Creature, parent2: Creature, draws: BreedDraws)
    requires BreedCreatures(parent1, parent2, draws).Success?
    ensures var c := BreedCreatures(parent1, parent2, draws).value.color;
            c == parent1.color || c == parent2.color ||
            (c in BlendedColors && parent1.color in PrimaryColors && parent2.color in PrimaryColors)
  {
  }

  /** The draws decide only the colour and the numeric traits: success, name, species, generation and parents do not depend on them. */
  lemma BreedDrawsOnlyAffectColorAndTraits(parent1: Creature, parent2: Creature, d1: BreedDraws, d2: BreedDraws)
    ensures BreedCreatures(parent1, parent2, d1).Success? == BreedCreatures(parent1, parent2, d2).Success?
    ensures BreedCreatures(parent1, parent2, d1).Success? ==>
              var a, b := BreedCreatures(parent1, parent2, d1).value, BreedCreatures(parent1, parent2, d2).value;
              a.name == b.name && a.species == b.species && a.generation == b.generation && a.parents == b.parents
  {
  }
}
