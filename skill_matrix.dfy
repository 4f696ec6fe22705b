/**
 * The skill-proficiency matrix of a character's build: for every level from
 * 0 to 20 and every skill, the rank the skill has reached after that level's
 * training and increase choices (0 untrained, 1 trained, 2 expert, 3 master,
 * 4 legendary), whether the skill could still be trained or increased at that
 * level, and for every level the remaining training and increase allowances.
 *
 * The computation is a left fold over the levels: each level reads the rank
 * the previous level produced.
 */
module SkillMatrix {

  type Skill = string

  const MaxLevel: nat := 20
  const Legendary: nat := 4

  /**
   * The build choices of a character. A level that has no list in
   * `skillIncreases` or `skillTraining` is treated as an empty list; the
   * allowance records have an entry for every level.
   */
  datatype SkillBuild = SkillBuild(
    skillIncreases: map<nat, seq<Skill>>,
    skillTraining: map<nat, seq<Skill>>,
    allowedTraining: map<nat, int>,
    allowedIncreases: map<nat, int>)

  /** What one skill looks like at one level. */
  datatype SkillData = SkillData(
    canBeTrained: bool,
    canBeIncreased: bool,
    rank: nat,
    increased: bool,
    trained: bool)

  /** The summary of one level: allowances, what is left of them, and the skills. */
  datatype TrainingData = TrainingData(
    allowedTraining: int,
    allowedIncreases: int,
    remainingTraining: int,
    remainingIncreases: int,
    skills: seq<SkillData>,
    eligible: bool)

  /** Both allowance records cover every level 0..20. */
  predicate HasAllowances(build: SkillBuild) {
    forall level: nat :: level <= MaxLevel ==>
      level in build.allowedTraining && level in build.allowedIncreases
  }

  /** `choices[level] || []` */
  function ChoicesAt(choices: map<nat, seq<Skill>>, level: nat): seq<Skill> {
    if level in choices then choices[level] else []
  }

  predicate Increased(build: SkillBuild, level: nat, skill: Skill) {
    skill in ChoicesAt(build.skillIncreases, level)
  }

  predicate Trained(build: SkillBuild, level: nat, skill: Skill) {
    skill in ChoicesAt(build.skillTraining, level)
  }

  /** Whether a skill whose rank before this level is `previousRank` may be increased at `level`. */
  function CanBeIncreased(previousRank: nat, level: nat): (r: bool)
    ensures r ==> previousRank < Legendary
    ensures previousRank == 0 ==> r
    ensures level >= 15 ==> (r <==> previousRank < Legendary)
  {
    if previousRank == 0 then true
    else if previousRank == 1 && level >= 2 then true
    else if previousRank == 2 && level >= 7 then true
    else if previousRank == 3 && level >= 15 then true
    else false
  }

  /** The rank after a level, from the rank before it and that level's choices. */
  function NextRank(previousRank: nat, trained: bool, increased: bool): (rank: nat)
    ensures previousRank <= rank <= previousRank + 1
    ensures previousRank <= Legendary ==> rank <= Legendary
  {
    if trained && previousRank == 0 then 1
    else if increased && previousRank < Legendary then previousRank + 1
    else previousRank
  }

  /** The entry of one skill at one level, given the rank the previous level left it at. */
  function SkillEntry(previousRank: nat, level: nat, trained: bool, increased: bool): SkillData {
    SkillData(
      canBeTrained := previousRank == 0,
      canBeIncreased := CanBeIncreased(previousRank, level),
      rank := NextRank(previousRank, trained, increased),
      increased := increased,
      trained := trained)
  }

  /** The rank of `skill` once the choices of levels 0..level have been applied. */
  function RankAt(build: SkillBuild, skill: Skill, level: nat): (rank: nat)
    ensures rank <= Legendary
    decreases level
  {
    var previousRank := if level == 0 then 0 else RankAt(build, skill, level - 1);
    NextRank(previousRank, Trained(build, level, skill), Increased(build, level, skill))
  }

  /** The rank of `skill` before the choices of `level`; nothing precedes level 0. */
  function PreviousRank(build: SkillBuild, skill: Skill, level: nat): nat {
    if level == 0 then 0 else RankAt(build, skill, level - 1)
  }

  /** The specification of one cell of the matrix. */
  function SkillDataAt(build: SkillBuild, skill: Skill, level: nat): SkillData {
    SkillEntry(PreviousRank(build, skill, level), level,
               Trained(build, level, skill), Increased(build, level, skill))
  }

  /** The specification of one row of the matrix. */
  function LevelSkills(build: SkillBuild, skills: seq<Skill>, level: nat): seq<SkillData> {
    seq(|skills|, i requires 0 <= i < |skills| => SkillDataAt(build, skills[i], level))
  }

  /** The specification of one level's summary. */
  function TrainingDataAt(build: SkillBuild, skills: seq<Skill>, level: nat): TrainingData
    requires HasAllowances(build) && level <= MaxLevel
  {
    TrainingData(
      allowedTraining := build.allowedTraining[level],
      allowedIncreases := build.allowedIncreases[level],
      remainingTraining := build.allowedTraining[level] - |ChoicesAt(build.skillTraining, level)|,
      remainingIncreases := build.allowedIncreases[level] - |ChoicesAt(build.skillIncreases, level)|,
      skills := LevelSkills(build, skills, level),
      eligible := build.allowedIncreases[level] > 0 || build.allowedTraining[level] > 0)
  }

  /**
   * The first fold: level by level, each skill's entry computed from the rank
   * the previous level's entry holds.
   */
  method ComputeSkillData(build: SkillBuild, skills: seq<Skill>) returns (skillData: seq<seq<SkillData>>)
    ensures |skillData| == MaxLevel + 1
    ensures forall level :: 0 <= level <= MaxLevel ==> |skillData[level]| == |skills|
    ensures forall level, i :: 0 <= level <= MaxLevel && 0 <= i < |skills| ==>
      skillData[level][i] == SkillDataAt(build, skills[i], level)
    ensures forall level, i :: 0 <= level <= MaxLevel && 0 <= i < |skills| ==>
      skillData[level][i].rank == RankAt(build, skills[i], level)
    ensures forall level, i :: 0 <= level <= MaxLevel && 0 <= i < |skills| ==>
      skillData[level][i].rank <= Legendary
    ensures forall level, next, i :: 0 <= level && next == level + 1 <= MaxLevel && 0 <= i < |skills| ==>
      && skillData[level][i].rank <= skillData[next][i].rank <= skillData[level][i].rank + 1
      && skillData[next][i].canBeTrained == (skillData[level][i].rank == 0)
  {
    skillData := FillRows(build, skills);
    MatrixSteps(build, skills, skillData);
  }

  /** The loop of the first fold: row by row, each row mapped from the previous one. */
  method FillRows(build: SkillBuild, skills: seq<Skill>) returns (skillData: seq<seq<SkillData>>)
    ensures |skillData| == MaxLevel + 1
    ensures forall level :: 0 <= level <= MaxLevel ==> skillData[level] == LevelSkills(build, skills, level)
  {
    skillData := [];
    var level: nat := 0;
    while level <= MaxLevel
      invariant level <= MaxLevel + 1
      invariant |skillData| == level
      invariant forall l :: 0 <= l < level ==> skillData[l] == LevelSkills(build, skills, l)
    {
      var previous := if level == 0 then [] else skillData[level - 1];
      var row := NextRow(build, skills, level, previous);
      NextRowMeetsSpecification(build, skills, level, previous);
      skillData := skillData + [row];
      level := level + 1;
    }
  }

  /**
   * One step of the fold: `Array.from(SKILL_ABBREVIATIONS).map(...)`, each
   * skill's entry computed from its entry in the previous row.
   */
  function NextRow(build: SkillBuild, skills: seq<Skill>, level: nat, previous: seq<SkillData>): (row: seq<SkillData>)
    requires level > 0 ==> |previous| == |skills|
    ensures |row| == |skills|
    ensures forall i :: 0 <= i < |skills| ==>
      var previousRank := if level == 0 then 0 else previous[i].rank;
      && previousRank <= row[i].rank <= previousRank + 1
      && row[i].canBeTrained == (previousRank == 0)
      && row[i].trained == Trained(build, level, skills[i])
      && row[i].increased == Increased(build, level, skills[i])
  {
    seq(|skills|, i requires 0 <= i < |skills| =>
      SkillEntry(if level == 0 then 0 else previous[i].rank, level,
                 skills[i] in ChoicesAt(build.skillTraining, level),
                 skills[i] in ChoicesAt(build.skillIncreases, level)))
  }

  /** The row the loop computes from the previous row is the level's row of the specification. */
  lemma NextRowMeetsSpecification(build: SkillBuild, skills: seq<Skill>, level: nat, previous: seq<SkillData>)
    requires level > 0 ==> previous == LevelSkills(build, skills, level - 1)
    ensures NextRow(build, skills, level, previous) == LevelSkills(build, skills, level)
  {
    var row := NextRow(build, skills, level, previous);
    forall i | 0 <= i < |skills|
      ensures row[i] == SkillDataAt(build, skills[i], level)
    {
      if level > 0 {
        assert previous[i] == SkillDataAt(build, skills[i], level - 1);
      }
    }
  }

  /** In any table that meets the specification, consecutive rows take at most one step per skill. */
  lemma MatrixSteps(build: SkillBuild, skills: seq<Skill>, skillData: seq<seq<SkillData>>)
    requires |skillData| == MaxLevel + 1
    requires forall level :: 0 <= level <= MaxLevel ==> skillData[level] == LevelSkills(build, skills, level)
    ensures forall level :: 0 <= level <= MaxLevel ==> |skillData[level]| == |skills|
    ensures forall level, i :: 0 <= level <= MaxLevel && 0 <= i < |skills| ==>
      skillData[level][i] == SkillDataAt(build, skills[i], level)
    ensures forall level, i :: 0 <= level <= MaxLevel && 0 <= i < |skills| ==>
      skillData[level][i].rank == RankAt(build, skills[i], level)
    ensures forall level, i :: 0 <= level <= MaxLevel && 0 <= i < |skills| ==>
      skillData[level][i].rank <= Legendary
    ensures forall level, next, i :: 0 <= level && next == level + 1 <= MaxLevel && 0 <= i < |skills| ==>
      && skillData[level][i].rank <= skillData[next][i].rank <= skillData[level][i].rank + 1
      && skillData[next][i].canBeTrained == (skillData[level][i].rank == 0)
  {
    forall level, i | 0 <= level <= MaxLevel && 0 <= i < |skills|
      ensures skillData[level][i].rank == RankAt(build, skills[i], level)
    {
      assert skillData[level][i] == SkillDataAt(build, skills[i], level);
    }
    forall level, next, i | 0 <= level && next == level + 1 <= MaxLevel && 0 <= i < |skills|
      ensures skillData[level][i].rank <= skillData[next][i].rank <= skillData[level][i].rank + 1
      ensures skillData[next][i].canBeTrained == (skillData[level][i].rank == 0)
    {
      RankStepsByAtMostOne(build, skills[i], next);
      assert PreviousRank(build, skills[i], next) == skillData[level][i].rank;
    }
  }

  /**
   * The data of the skill-matrix popup: the second fold over the levels,
   * pairing each level's allowances with what is left of them and with the
   * level's row of the matrix.
   */
  method GetData(build: SkillBuild, skills: seq<Skill>) returns (trainingData: seq<TrainingData>)
    requires HasAllowances(build)
    ensures |trainingData| == MaxLevel + 1
    ensures forall level :: 0 <= level <= MaxLevel ==>
      trainingData[level] == TrainingDataAt(build, skills, level)
    ensures forall level :: 0 <= level <= MaxLevel ==>
      && trainingData[level].remainingTraining + |ChoicesAt(build.skillTraining, level)| == build.allowedTraining[level]
      && trainingData[level].remainingIncreases + |ChoicesAt(build.skillIncreases, level)| == build.allowedIncreases[level]
      && (trainingData[level].eligible <==> build.allowedIncreases[level] > 0 || build.allowedTraining[level] > 0)
      && |trainingData[level].skills| == |skills|
  {
    var skillData := ComputeSkillData(build, skills);
    trainingData := [];
    for level := 0 to MaxLevel + 1
      invariant |trainingData| == level
      invariant forall l :: 0 <= l < level ==> trainingData[l] == TrainingDataAt(build, skills, l)
    {
      assert skillData[level] == LevelSkills(build, skills, level);
      var entry := TrainingData(
        allowedTraining := build.allowedTraining[level],
        allowedIncreases := build.allowedIncreases[level],
        remainingTraining := build.allowedTraining[level] - |ChoicesAt(build.skillTraining, level)|,
        remainingIncreases := build.allowedIncreases[level] - |ChoicesAt(build.skillIncreases, level)|,
        skills := skillData[level],
        eligible := build.allowedIncreases[level] > 0 || build.allowedTraining[level] > 0);
      trainingData := trainingData + [entry];
    }
  }

  // ---------------------------------------------------------------------
  // Properties of the progression
  // ---------------------------------------------------------------------

  /** Every skill starts from rank 0: at level 0 it can be trained and increased. */
  lemma LevelZeroStartsUntrained(build: SkillBuild, skill: Skill)
    ensures SkillDataAt(build, skill, 0).canBeTrained
    ensures SkillDataAt(build, skill, 0).canBeIncreased
    ensures RankAt(build, skill, 0) == if Trained(build, 0, skill) || Increased(build, 0, skill) then 1 else 0
  {
  }

  /** From one level to the next a rank never falls and rises by at most one. */
  lemma RankStepsByAtMostOne(build: SkillBuild, skill: Skill, level: nat)
    requires 1 <= level
    ensures RankAt(build, skill, level - 1) <= RankAt(build, skill, level) <= RankAt(build, skill, level - 1) + 1
  {
  }

  /** A rank rises at a level exactly when the skill is trained from rank 0 or increased below legendary. */
  lemma RankRisesIff(build: SkillBuild, skill: Skill, level: nat)
    ensures var previousRank := PreviousRank(build, skill, level);
      && (RankAt(build, skill, level) == previousRank + 1 <==>
            (Trained(build, level, skill) && previousRank == 0) ||
            (Increased(build, level, skill) && previousRank < Legendary))
      && (RankAt(build, skill, level) != previousRank + 1 ==> RankAt(build, skill, level) == previousRank)
  {
  }

  /** Being both trained and increased at rank 0 gives rank 1, not 2. */
  lemma TrainedAndIncreasedFromUntrained(build: SkillBuild, skill: Skill, level: nat)
    requires PreviousRank(build, skill, level) == 0
    requires Trained(build, level, skill) && Increased(build, level, skill)
    ensures RankAt(build, skill, level) == 1
  {
  }

  /** Training changes nothing once a skill is trained; it can be trained at exactly rank 0. */
  lemma TrainingOnlyFromUntrained(build: SkillBuild, skill: Skill, level: nat)
    ensures SkillDataAt(build, skill, level).canBeTrained <==> PreviousRank(build, skill, level) == 0
    ensures PreviousRank(build, skill, level) != 0 && !Increased(build, level, skill) ==>
      RankAt(build, skill, level) == PreviousRank(build, skill, level)
  {
  }

  /** The lowest level at which a skill of rank `rank` may be increased, for ranks below legendary. */
  function IncreaseThreshold(rank: nat): nat
    requires rank < Legendary
  {
    [0, 2, 7, 15][rank]
  }

  /**
   * A skill may be increased exactly when it is below legendary and the level
   * has reached the threshold of its rank (0, 2, 7 and 15); never at rank 4.
   */
  lemma CanBeIncreasedIff(previousRank: nat, level: nat)
    ensures CanBeIncreased(previousRank, level) <==>
      previousRank < Legendary && level >= IncreaseThreshold(previousRank)
    ensures previousRank >= Legendary ==> !CanBeIncreased(previousRank, level)
  {
  }

  /** Once a skill may be increased, it stays increasable at every later level of the same rank. */
  lemma CanBeIncreasedMonotone(previousRank: nat, level: nat, later: nat)
    requires level <= later && CanBeIncreased(previousRank, level)
    ensures CanBeIncreased(previousRank, later)
  {
  }

  /** A rank never decreases over any span of levels. */
  lemma {:induction false} RankMonotone(build: SkillBuild, skill: Skill, level: nat, later: nat)
    requires level <= later
    ensures RankAt(build, skill, level) <= RankAt(build, skill, later)
    decreases later - level
  {
    if level < later {
      RankMonotone(build, skill, level, later - 1);
      RankStepsByAtMostOne(build, skill, later);
    }
  }

  /** Legendary is final: whatever the later lists say, the rank stays 4. */
  lemma {:induction false} LegendaryStaysLegendary(build: SkillBuild, skill: Skill, level: nat, later: nat)
    requires level <= later && RankAt(build, skill, level) == Legendary
    ensures RankAt(build, skill, later) == Legendary
  {
    RankMonotone(build, skill, level, later);
  }

  /** At most one step per level: after level `level` the rank is at most `level + 1`. */
  lemma {:induction false} RankAtMostLevelPlusOne(build: SkillBuild, skill: Skill, level: nat)
    ensures RankAt(build, skill, level) <= level + 1
  {
    if level > 0 {
      RankAtMostLevelPlusOne(build, skill, level - 1);
    }
  }

  /** The number of levels among 0..level at which `skill` is increased. */
  function IncreaseCount(build: SkillBuild, skill: Skill, level: nat): (count: nat)
    ensures count <= level + 1
  {
    (if Increased(build, level, skill) then 1 else 0)
    + (if level == 0 then 0 else IncreaseCount(build, skill, level - 1))
  }

  function Min(a: nat, b: nat): nat {
    if a <= b then a else b
  }

  /**
   * A reference definition of the rank for a skill that is never trained: the
   * number of increases so far, capped at legendary.
   */
  lemma {:induction false} UntrainedRankCountsIncreases(build: SkillBuild, skill: Skill, level: nat)
    requires forall l: nat :: l <= level ==> !Trained(build, l, skill)
    ensures RankAt(build, skill, level) == Min(Legendary, IncreaseCount(build, skill, level))
  {
    if level > 0 {
      UntrainedRankCountsIncreases(build, skill, level - 1);
    }
  }
}
