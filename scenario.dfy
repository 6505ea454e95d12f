/**
 * Scenario and question generation of the assessment model
 * (`generate_scenario`, `generate_questions`): the profession, lower-cased,
 * is matched against three keyword groups in a fixed priority order, and the
 * first group that matches picks one of four fixed scenario texts.
 */
module Scenario {
  import opened Text

  const TeacherScenario: string :=
    "You are in the middle of teaching an important lesson when a student "
    + "suddenly starts loudly criticizing your teaching method in front of the entire class, "
    + "accusing you of being unfair and biased. Several other students begin nodding in "
    + "agreement, and the atmosphere becomes tense and uncomfortable. You have 10 minutes "
    + "left in the class and an important topic to cover before the upcoming exam."

  const HealthcareScenario: string :=
    "You are working in a busy hospital ward during a night shift. A patient's family member "
    + "approaches you with extreme anger, blaming you for a delayed medication dose that "
    + "has caused their relative discomfort. They raise their voice, attracting attention from "
    + "other patients and staff. The family member threatens to file a complaint and questions "
    + "your competence. Meanwhile, you have other critical patients requiring immediate attention."

  const ManagementScenario: string :=
    "You are leading a team project with a tight deadline. Two of your team members are "
    + "engaged in a heated argument during a critical meeting, each blaming the other for "
    + "missed deadlines and poor quality work. The conflict escalates, with personal attacks "
    + "being exchanged. The rest of the team looks uncomfortable, and the project deadline "
    + "is in 48 hours. Your supervisor is expecting a status update in 2 hours."

  const GenericScenario: string :=
    "You have just presented your work to a group of colleagues and stakeholders. "
    + "A senior colleague publicly criticizes your approach, pointing out what they perceive "
    + "as fundamental flaws in your methodology. Their tone is condescending, and several "
    + "others in the room begin questioning your decisions. You spent weeks preparing this "
    + "work and believe in its value, but now you're facing public scrutiny and doubt."

  /** Which of the four scenario texts a profession is given. */
  datatype Setting = Teaching | Healthcare | Management | Workplace

  const TeacherKeywords: seq<string> := ["teacher", "lecturer", "educator"]
  const HealthcareKeywords: seq<string> := ["nurse", "doctor", "physician"]
  const ManagementKeywords: seq<string> := ["manager", "lead", "director"]

  /** Some keyword of the group occurs as a substring of `text`. */
  predicate MentionsAny(text: string, keywords: seq<string>) {
    exists k | 0 <= k < |keywords| :: Contains(text, keywords[k])
  }

  /**
   * The keyword groups, tried in priority order on the lower-cased
   * profession: the first group with a keyword in it decides.
   */
  function SettingOf(profession: string): (s: Setting)
    ensures s == Teaching <==> MentionsAny(ToLower(profession), TeacherKeywords)
    ensures s == Healthcare <==>
      !MentionsAny(ToLower(profession), TeacherKeywords) && MentionsAny(ToLower(profession), HealthcareKeywords)
    ensures s == Management <==>
      && !MentionsAny(ToLower(profession), TeacherKeywords)
      && !MentionsAny(ToLower(profession), HealthcareKeywords)
      && MentionsAny(ToLower(profession), ManagementKeywords)
    ensures s == Workplace <==>
      && !MentionsAny(ToLower(profession), TeacherKeywords)
      && !MentionsAny(ToLower(profession), HealthcareKeywords)
      && !MentionsAny(ToLower(profession), ManagementKeywords)
  {
    var p := ToLower(profession);
    if Contains(p, "teacher") || Contains(p, "lecturer") || Contains(p, "educator") then
      assert Contains(p, TeacherKeywords[0]) || Contains(p, TeacherKeywords[1]) || Contains(p, TeacherKeywords[2]);
      Teaching
    else if Contains(p, "nurse") || Contains(p, "doctor") || Contains(p, "physician") then
      assert Contains(p, HealthcareKeywords[0]) || Contains(p, HealthcareKeywords[1]) || Contains(p, HealthcareKeywords[2]);
      Healthcare
    else if Contains(p, "manager") || Contains(p, "lead") || Contains(p, "director") then
      assert Contains(p, ManagementKeywords[0]) || Contains(p, ManagementKeywords[1]) || Contains(p, ManagementKeywords[2]);
      Management
    else
      Workplace
  }

  /** The scenario text of each setting. */
  function ScenarioText(s: Setting): string {
    match s
    case Teaching => TeacherScenario
    case Healthcare => HealthcareScenario
    case Management => ManagementScenario
    case Workplace => GenericScenario
  }

  /**
   * `generate_scenario(age, gender, profession)`: the text of the setting the
   * profession falls under, so always one of the four texts. Age and gender
   * are accepted and not used.
   */
  function GenerateScenario(age: int, gender: string, profession: string): (text: string)
    ensures text in {TeacherScenario, HealthcareScenario, ManagementScenario, GenericScenario}
  {
    ScenarioText(SettingOf(profession))
  }

  /** The four scenario texts are pairwise different: their lengths differ. */
  lemma ScenariosDistinct()
    ensures |{TeacherScenario, HealthcareScenario, ManagementScenario, GenericScenario}| == 4
  {
    assert |TeacherScenario| == 394 && |HealthcareScenario| == 437;
    assert |ManagementScenario| == 408 && |GenericScenario| == 409;
  }

  /** The scenario text reveals the setting the profession fell under. */
  lemma ScenarioRevealsSetting(age: int, gender: string, profession: string, age': int, gender': string, profession': string)
    requires GenerateScenario(age, gender, profession) == GenerateScenario(age', gender', profession')
    ensures SettingOf(profession) == SettingOf(profession')
  {
    assert |TeacherScenario| == 394 && |HealthcareScenario| == 437;
    assert |ManagementScenario| == 408 && |GenericScenario| == 409;
  }

  /** Matching ignores the case of the profession's ASCII letters. */
  lemma {:induction false} ScenarioIgnoresCase(profession: string)
    ensures SettingOf(ToUpper(profession)) == SettingOf(profession)
    ensures SettingOf(ToLower(profession)) == SettingOf(profession)
  {
    LowerOfUpper(profession);
    ToLowerIdempotent(profession);
  }

  /** "Lead Teacher" names both a teacher and a lead; the teacher group is checked first. */
  lemma LeadTeacher()
    ensures SettingOf("Lead Teacher") == Teaching
  {
    var p := ToLower("Lead Teacher");
    assert p == "lead teacher";
    assert OccursAt(p, "teacher", 5);
    assert Contains(p, TeacherKeywords[0]);
  }

  /** A text that lacks some character of `sub` does not contain `sub`. */
  lemma MissingCharExcludes(text: string, sub: string, j: nat)
    requires j < |sub| && forall i | 0 <= i < |text| :: text[i] != sub[j]
    ensures !Contains(text, sub)
  {
    forall i | 0 <= i <= |text| - |sub| ensures !OccursAt(text, sub, i) {
      assert text[i..i + |sub|][j] == text[i + j];
    }
  }

  /** "Head Nurse Manager" names a nurse and a manager; the healthcare group is checked first. */
  lemma NurseBeforeManager()
    ensures SettingOf("Head Nurse Manager") == Healthcare
  {
    var p := ToLower("Head Nurse Manager");
    assert p == "head nurse manager";
    NoTeacherKeyword(p);
    assert OccursAt(p, "nurse", 5);
    assert Contains(p, HealthcareKeywords[0]);
  }

  /** "head nurse manager" holds none of the teaching keywords: it has no 't', no 'l' and no 'c'. */
  lemma NoTeacherKeyword(p: string)
    requires p == "head nurse manager"
    ensures !MentionsAny(p, TeacherKeywords)
  {
    MissingCharExcludes(p, TeacherKeywords[0], 0);
    MissingCharExcludes(p, TeacherKeywords[1], 0);
    MissingCharExcludes(p, TeacherKeywords[2], 3);
  }

  /** The five reflective questions every assessment asks, in the order they are shown. */
  const Questions: seq<string> := [
    "What emotions would you feel in this situation, and why? Describe the intensity and sequence of your emotional reactions.",
    "How would you manage your emotions before responding to the situation? What strategies would you use to stay composed?",
    "How would you resolve this conflict or address this challenge? Describe your approach and the reasoning behind it.",
    "How would you cope with the stress and pressure of this situation? What internal and external resources would you draw upon?",
    "What would you learn from this experience, and how might it affect your future behavior in similar situations?"
  ]

  /** `generate_questions(scenario)`: five distinct, non-empty questions, the same whatever the scenario. */
  function GenerateQuestions(scenario: string): (qs: seq<string>)
    ensures |qs| == 5
    ensures forall i | 0 <= i < |qs| :: qs[i] != []
    ensures forall i, j | 0 <= i < j < |qs| :: qs[i] != qs[j]
  {
    assert |Questions[0]| == 121 && |Questions[1]| == 118 && |Questions[2]| == 114;
    assert |Questions[3]| == 124 && |Questions[4]| == 110;
    Questions
  }

  /** The questions never depend on the scenario they are asked about. */
  lemma QuestionsIgnoreScenario(s: string, s': string)
    ensures GenerateQuestions(s) == GenerateQuestions(s')
  {
  }
}
