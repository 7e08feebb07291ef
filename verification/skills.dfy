/**
 * The skills section (src/components/Skills.jsx): the skill table, the level-to-percentage
 * switch that sets the width of each bar, and the level-to-colour lookup with its default.
 */
module Skills {

  datatype Skill = Skill(name: string, levelKey: string)
  datatype Category = Category(id: string, titleKey: string, items: seq<Skill>)

  const Proficient := "skills_level_proficient"
  const Advanced := "skills_level_advanced"
  const Intermediate := "skills_level_intermediate"
  const Basic := "skills_level_basic"
  const Fluent := "skills_level_fluent"
  const Native := "skills_level_native"

  /** `skillsData`, in the order the section lists it (icons left out). */
  const SkillsData: seq<Category> := [
    Category("simulation_design", "skills_simulation_design_title", [
      Skill("Process Simulate", Proficient),
      Skill("Plant Simulation", Proficient),
      Skill("CATIA", Proficient),
      Skill("Inventor", Proficient),
      Skill("Fusion 360", Proficient),
      Skill("Siemens NX", Proficient)]),
    Category("programming_robotics", "skills_programming_robotics_title", [
      Skill("Python", Advanced),
      Skill("C++", Intermediate),
      Skill("ROS (Robot Operating System)", Intermediate),
      Skill("PLC Programming (e.g., Siemens TIA Portal)", Proficient),
      Skill("Yaskawa Robots", Proficient),
      Skill("Universal Robots (UR)", Proficient)]),
    Category("mbse_quality", "skills_mbse_quality_title", [
      Skill("Model-Based Systems Engineering (MBSE)", Proficient),
      Skill("SysML", Proficient),
      Skill("Cameo Systems Modeler", Proficient),
      Skill("FMEA (Failure Mode and Effects Analysis)", Intermediate),
      Skill("HoQ (House of Quality)", Intermediate)]),
    Category("languages", "skills_languages_title", [
      Skill("German", Fluent),
      Skill("English", Fluent),
      Skill("Chinese", Native)])
  ]

  /** The class used for a level the colour table does not know. */
  const DefaultColor := "bg-gray-100 text-gray-800 dark:bg-gray-800 dark:text-gray-300"

  /** `skillLevelColors`. */
  const SkillLevelColors: map<string, string> := map[
    Proficient := "bg-green-100 text-green-800 dark:bg-green-900/30 dark:text-green-300",
    Advanced := "bg-blue-100 text-blue-800 dark:bg-blue-900/30 dark:text-blue-300",
    Intermediate := "bg-yellow-100 text-yellow-800 dark:bg-yellow-900/30 dark:text-yellow-300",
    Basic := "bg-gray-100 text-gray-800 dark:bg-gray-800 dark:text-gray-300",
    Fluent := "bg-purple-100 text-purple-800 dark:bg-purple-900/30 dark:text-purple-300",
    Native := "bg-indigo-100 text-indigo-800 dark:bg-indigo-900/30 dark:text-indigo-300"
  ]

  /** The width a level gives its bar, in percent; an unknown level gets 50. */
  function LevelPercent(levelKey: string): (p: nat)
    ensures 40 <= p <= 100
    ensures levelKey !in SkillLevelColors ==> p == 50
    ensures levelKey in SkillLevelColors ==> p != 50
  {
    if levelKey == Proficient then 95
    else if levelKey == Advanced then 80
    else if levelKey == Intermediate then 60
    else if levelKey == Basic then 40
    else if levelKey == Fluent then 90
    else if levelKey == Native then 100
    else 50
  }

  /** The decimal digits of `n`. */
  function Decimal(n: nat): (r: string)
    ensures |r| > 0
    ensures forall i :: 0 <= i < |r| ==> '0' <= r[i] <= '9'
  {
    if n < 10 then [('0' as int + n) as char] else Decimal(n / 10) + [('0' as int + n % 10) as char]
  }

  /** The digits of the six widths the levels use. */
  lemma WidthDigits()
    ensures Decimal(95) == "95" && Decimal(80) == "80" && Decimal(60) == "60"
    ensures Decimal(40) == "40" && Decimal(90) == "90" && Decimal(100) == "100"
  {
    assert Decimal(95) == Decimal(9) + ['5'] && Decimal(80) == Decimal(8) + ['0'];
    assert Decimal(60) == Decimal(6) + ['0'] && Decimal(90) == Decimal(9) + ['0'];
    assert Decimal(100) == Decimal(10) + ['0'];
  }

  /**
   * `getSkillLevelPercentage`: the width as the CSS string of the switch; `'50%'` for any
   * level the switch does not name.
   */
  function SkillLevelPercentage(levelKey: string): (r: string)
    ensures levelKey == Proficient ==> r == "95%"
    ensures levelKey == Advanced ==> r == "80%"
    ensures levelKey == Intermediate ==> r == "60%"
    ensures levelKey == Basic ==> r == "40%"
    ensures levelKey == Fluent ==> r == "90%"
    ensures levelKey == Native ==> r == "100%"
    ensures levelKey !in SkillLevelColors ==> r == "50%"
  {
    WidthDigits();
    Decimal(LevelPercent(levelKey)) + "%"
  }

  /** The colour class of a level: its table entry, or the grey default. */
  function LevelColor(levelKey: string): (c: string)
    ensures levelKey in SkillLevelColors ==> c == SkillLevelColors[levelKey]
    ensures levelKey !in SkillLevelColors ==> c == DefaultColor
    ensures c in SkillLevelColors.Values
  {
    assert SkillLevelColors[Basic] == DefaultColor;
    if levelKey in SkillLevelColors && SkillLevelColors[levelKey] != "" then SkillLevelColors[levelKey] else DefaultColor
  }

  /** Every level used in the table has a colour and a width of its own, not the defaults. */
  lemma EveryLevelIsKnown()
    ensures forall c, s :: c in SkillsData && s in c.items ==>
      s.levelKey in SkillLevelColors && LevelPercent(s.levelKey) != 50
  {
    forall c, s | c in SkillsData && s in c.items
      ensures s.levelKey in SkillLevelColors
    {
      assert c == SkillsData[0] || c == SkillsData[1] || c == SkillsData[2] || c == SkillsData[3];
    }
  }

  /** An unknown level gets the same grey as `basic`, but the default width 50 instead of 40. */
  lemma UnknownLooksLikeBasic(levelKey: string)
    requires levelKey !in SkillLevelColors
    ensures LevelColor(levelKey) == LevelColor(Basic)
    ensures LevelPercent(levelKey) == 50 != LevelPercent(Basic)
  {
  }
}
