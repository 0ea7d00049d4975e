/**
 * The overall resume score (`calculate_resume_score`) and the advice built
 * from it (`get_recommendations`). The readability of the resume (the
 * Flesch reading ease of its text) comes in as a number.
 */
module Scoring {
  import opened Common
  import opened Text
  import opened Skills
  import opened Extraction
  import opened Fit

  // --------------------------------------------------------- skill count

  /** The (category, skill) pairs found. */
  function SkillPairs(found: FoundSkills, keys: set<string>): set<(string, string)>
  {
    set c, s | c in keys && c in found && s in found[c] :: (c, s)
  }

  /** `total_skills_count`: how many skills were found, over all categories. */
  function TotalSkills(found: FoundSkills): nat
  {
    |SkillPairs(found, found.Keys)|
  }

  /** One category tagged onto each of its skills. */
  function Tagged(c: string, skills: set<string>): set<(string, string)>
  {
    set s | s in skills :: (c, s)
  }

  lemma {:induction false} TaggedCard(c: string, skills: set<string>)
    ensures |Tagged(c, skills)| == |skills|
    decreases skills
  {
    if skills != {} {
      var x :| x in skills;
      TaggedCard(c, skills - {x});
      assert Tagged(c, skills) == Tagged(c, skills - {x}) + {(c, x)};
    }
  }

  /** Counting one more category adds the number of its skills. */
  lemma SkillPairsStep(found: FoundSkills, done: set<string>, c: string)
    requires c in found && c !in done
    ensures |SkillPairs(found, done + {c})| == |SkillPairs(found, done)| + |found[c]|
  {
    assert SkillPairs(found, done + {c}) == SkillPairs(found, done) + Tagged(c, found[c]);
    assert SkillPairs(found, done) !! Tagged(c, found[c]);
    TaggedCard(c, found[c]);
  }

  /** `sum(len(skill_list) for skill_list in skills.values())`. */
  method CountSkills(found: FoundSkills) returns (total: nat)
    ensures total == TotalSkills(found)
  {
    total := 0;
    var pending := found.Keys;
    ghost var done: set<string> := {};
    while pending != {}
      invariant pending !! done && pending + done == found.Keys
      invariant total == |SkillPairs(found, done)|
      decreases pending
    {
      var c :| c in pending;
      SkillPairsStep(found, done, c);
      total := total + |found[c]|;
      done := done + {c};
      pending := pending - {c};
    }
    assert done == found.Keys;
  }

  /** Finding one more skill raises the count by one. */
  lemma TotalSkillsAdd(found: FoundSkills, c: string, s: string)
    requires c in found && s !in found[c]
    ensures TotalSkills(found[c := found[c] + {s}]) == TotalSkills(found) + 1
  {
    var found' := found[c := found[c] + {s}];
    assert found'.Keys == found.Keys;
    assert SkillPairs(found', found'.Keys) == SkillPairs(found, found.Keys) + {(c, s)};
  }

  // ------------------------------------------------------ detailed scores

  /** The pillar scores; `jobFit` is present exactly when a job description was given. */
  datatype DetailedScores = DetailedScores(jobFit: Option<real>, skills: real, experience: real,
                                           education: real, readability: real)

  /** The weight of each pillar; `jobFit` is present exactly when a job description was given. */
  datatype ScoreWeights = ScoreWeights(jobFit: Option<real>, skills: real, experience: real,
                                       education: real, readability: real)

  /** Weights with a job description: job fit first. */
  const JobMatchWeights := ScoreWeights(Some(0.50), 0.20, 0.15, 0.10, 0.05)

  /** Weights without a job description. */
  const GeneralWeights := ScoreWeights(None, 0.35, 0.25, 0.20, 0.20)

  function WeightSum(w: ScoreWeights): real
  {
    (if w.jobFit.Some? then w.jobFit.value else 0.0) + w.skills + w.experience + w.education + w.readability
  }

  /** The weights in use: each set is non-negative and sums to 1. */
  function WeightsFor(jobDescription: string): (w: ScoreWeights)
    ensures WeightSum(w) == 1.0
    ensures w.jobFit.Some? <==> jobDescription != ""
    ensures w.skills > 0.0 && w.experience > 0.0 && w.education > 0.0 && w.readability > 0.0
  {
    if jobDescription != "" then JobMatchWeights else GeneralWeights
  }

  /** `skills_score`: 5 points per skill found, at most 100. */
  function SkillsScore(totalSkills: nat): (score: real)
    ensures 0.0 <= score <= 100.0
    ensures totalSkills <= 20 ==> score == (5 * totalSkills) as real
    ensures totalSkills >= 20 ==> score == 100.0
  {
    Min(totalSkills * 5, 100) as real
  }

  /** `readability_score`: the reading ease, not below 0 and then not above 100. */
  function ReadabilityScore(readingEase: real): (score: real)
    ensures 0.0 <= score <= 100.0
    ensures 0.0 <= readingEase <= 100.0 ==> score == readingEase
  {
    MinReal(MaxReal(0.0, readingEase), 100.0)
  }

  function DetailedScoresOf(jobDescription: string, jobFit: JobFit, totalSkills: nat, experience: ExperienceInfo,
                            education: EducationInfo, readingEase: real): DetailedScores
  {
    DetailedScores(if jobDescription != "" then Some(jobFit.overallFit) else None,
                   SkillsScore(totalSkills), experience.experienceScore as real,
                   education.educationScore as real, ReadabilityScore(readingEase))
  }

  /** `overall_score`: each score times its weight, summed over the scores present. */
  function OverallScore(s: DetailedScores, w: ScoreWeights): real
  {
    (if s.jobFit.Some? && w.jobFit.Some? then s.jobFit.value * w.jobFit.value else 0.0)
      + s.skills * w.skills + s.experience * w.experience + s.education * w.education
      + s.readability * w.readability
  }

  predicate InRange(x: real)
  {
    0.0 <= x <= 100.0
  }

  /** Every pillar score is a percentage. */
  predicate ScoresInRange(s: DetailedScores)
  {
    (s.jobFit.Some? ==> InRange(s.jobFit.value))
      && InRange(s.skills) && InRange(s.experience) && InRange(s.education) && InRange(s.readability)
  }

  /** The weights in use for the scores present. */
  predicate WeightsMatch(s: DetailedScores, w: ScoreWeights)
  {
    (s.jobFit.Some? && w == JobMatchWeights) || (s.jobFit.None? && w == GeneralWeights)
  }

  /** The overall score of percentages is a percentage. */
  lemma OverallScoreRange(s: DetailedScores, w: ScoreWeights)
    requires ScoresInRange(s) && WeightsMatch(s, w)
    ensures InRange(OverallScore(s, w))
  {
    if s.jobFit.Some? {
      assert OverallScore(s, w) == s.jobFit.value * 0.50 + s.skills * 0.20 + s.experience * 0.15
        + s.education * 0.10 + s.readability * 0.05;
    } else {
      assert OverallScore(s, w) == s.skills * 0.35 + s.experience * 0.25 + s.education * 0.20
        + s.readability * 0.20;
    }
  }

  /** `s` is nowhere above `s'`, and both have a job fit or neither has. */
  predicate ScoresBelow(s: DetailedScores, s': DetailedScores)
  {
    s.jobFit.Some? == s'.jobFit.Some?
      && (s.jobFit.Some? ==> s.jobFit.value <= s'.jobFit.value)
      && s.skills <= s'.skills && s.experience <= s'.experience
      && s.education <= s'.education && s.readability <= s'.readability
  }

  /** Raising any pillar score never lowers the overall score. */
  lemma OverallScoreMonotone(s: DetailedScores, s': DetailedScores, w: ScoreWeights)
    requires WeightsMatch(s, w) && ScoresBelow(s, s')
    ensures OverallScore(s, w) <= OverallScore(s', w)
  {
    if s.jobFit.Some? {
      assert OverallScore(s, w) == s.jobFit.value * 0.50 + s.skills * 0.20 + s.experience * 0.15
        + s.education * 0.10 + s.readability * 0.05;
      assert OverallScore(s', w) == s'.jobFit.value * 0.50 + s'.skills * 0.20 + s'.experience * 0.15
        + s'.education * 0.10 + s'.readability * 0.05;
    } else {
      assert OverallScore(s, w) == s.skills * 0.35 + s.experience * 0.25 + s.education * 0.20
        + s.readability * 0.20;
      assert OverallScore(s', w) == s'.skills * 0.35 + s'.experience * 0.25 + s'.education * 0.20
        + s'.readability * 0.20;
    }
  }

  // ------------------------------------------------------------ analysis

  /** What `calculate_resume_score` returns. */
  datatype Analysis = Analysis(
    overallScore: real,
    detailedScores: DetailedScores,
    jobFitAnalysis: JobFit,
    skillsFound: FoundSkills,
    experienceInfo: ExperienceInfo,
    educationInfo: EducationInfo,
    totalSkillsCount: nat,
    jobRoleIdentified: string,
    scoringWeights: ScoreWeights,
    jobRequirements: Option<JobRequirements>)

  /** `job_requirements.get("job_role", "general")`. */
  function RoleOf(req: Option<JobRequirements>): string
  {
    if req.Some? then req.value.jobRole else GeneralRole
  }

  ghost function AnalysisOf(table: SkillTable, resumeText: string, jobDescription: string,
                            resumeScans: ResumeScans, jobScans: seq<seq<YearMatch>>, readingEase: real): Analysis
  {
    var req := RequirementsOf(table, jobDescription, jobScans);
    var skills := SkillsOf(table, resumeText);
    var experience := ExperienceOf(resumeScans.years);
    var education := EducationOf(resumeScans.degrees);
    var jobFit := JobFitOf(skills, experience, education, req);
    var total := TotalSkills(skills);
    var scores := DetailedScoresOf(jobDescription, jobFit, total, experience, education, readingEase);
    var weights := WeightsFor(jobDescription);
    Analysis(OverallScore(scores, weights), scores, jobFit, skills, experience, education, total,
             RoleOf(req), weights, req)
  }

  /**
   * `calculate_resume_score`: the requirements of the job description (none
   * if it is empty), the resume's skills, experience and education, its fit
   * to the requirements, and the weighted overall score, a percentage.
   * `job_title` is not used by the source and is not a parameter here.
   */
  method CalculateResumeScore(table: SkillTable, resumeText: string, jobDescription: string,
                              resumeScans: ResumeScans, jobScans: seq<seq<YearMatch>>, readingEase: real)
    returns (a: Analysis)
    ensures a == AnalysisOf(table, resumeText, jobDescription, resumeScans, jobScans, readingEase)
    ensures InRange(a.overallScore) && ScoresInRange(a.detailedScores)
    ensures a.detailedScores.jobFit.Some? <==> jobDescription != ""
    ensures jobDescription == "" ==>
      a.jobRoleIdentified == GeneralRole && a.jobFitAnalysis == NoJobFit && a.jobRequirements == None
      && a.scoringWeights == GeneralWeights
    ensures jobDescription != "" ==>
      a.jobRoleIdentified == IdentifyJobRole(jobDescription) && a.scoringWeights == JobMatchWeights
      && a.detailedScores.jobFit == Some(a.jobFitAnalysis.overallFit)
    ensures a.totalSkillsCount == TotalSkills(a.skillsFound)
    ensures a.detailedScores.skills == SkillsScore(a.totalSkillsCount)
  {
    var req := ExtractJobRequirements(table, jobDescription, jobScans);
    var skills := ExtractSkills(table, resumeText);
    var experience := ExtractExperience(resumeScans.years);
    var education := ExtractEducation(resumeScans.degrees);
    var jobFit := CalculateJobFitScore(table, resumeText, resumeScans, req);
    var total := CountSkills(skills);
    var scores: DetailedScores;
    var weights: ScoreWeights;
    if jobDescription != "" {
      weights := JobMatchWeights;
      scores := DetailedScores(Some(jobFit.overallFit), SkillsScore(total), experience.experienceScore as real,
                               education.educationScore as real, ReadabilityScore(readingEase));
    } else {
      weights := GeneralWeights;
      scores := DetailedScores(None, SkillsScore(total), experience.experienceScore as real,
                               education.educationScore as real, ReadabilityScore(readingEase));
    }
    OverallScoreRange(scores, weights);
    a := Analysis(OverallScore(scores, weights), scores, jobFit, skills, experience, education, total,
                  RoleOf(req), weights, req);
  }

  // ------------------------------------------------------ recommendations

  /** One recommendation of `get_recommendations`. */
  datatype Advice =
    | ImproveJobFit
    | AddKeySkills(skills: seq<string>)
    | HighlightExperience(years: nat)
    | ExpandSkills
    | AddExperienceDetail
    | ExcellentMatch

  /** The emoji each message starts with. */
  function Icon(adv: Advice): char
  {
    match adv
    case ImproveJobFit => '\U{1F3AF}'
    case AddKeySkills(_) => '\U{1F527}'
    case HighlightExperience(_) => '\U{1F4BC}'
    case ExpandSkills => '\U{1F6E0}'
    case AddExperienceDetail => '\U{1F4C8}'
    case ExcellentMatch => '\U{2705}'
  }

  /** The text of a recommendation: the advice's emoji, then its words. */
  function Message(adv: Advice): (m: string)
    ensures |m| > 0 && m[0] == Icon(adv)
  {
    [Icon(adv)] + match adv
      case ImproveJobFit => " Improve job fit by adding skills and experience mentioned in the job description"
      case AddKeySkills(skills) => " Add these key skills: " + Join(skills, ", ")
      case HighlightExperience(years) =>
        " Highlight " + NatToString(years) + "+ years of relevant experience or related projects"
      case ExpandSkills => "\U{FE0F} Expand your technical skills portfolio"
      case AddExperienceDetail => " Add more detailed work experience with quantifiable achievements"
      case ExcellentMatch => " Excellent match for this position!"
  }

  /** Two messages that read the same give the same kind of advice. */
  lemma MessageTellsKind(a: Advice, b: Advice)
    requires Message(a) == Message(b)
    ensures a.ImproveJobFit? == b.ImproveJobFit? && a.AddKeySkills? == b.AddKeySkills?
    ensures a.HighlightExperience? == b.HighlightExperience? && a.ExpandSkills? == b.ExpandSkills?
    ensures a.AddExperienceDetail? == b.AddExperienceDetail? && a.ExcellentMatch? == b.ExcellentMatch?
  {
    assert Icon(a) == Message(a)[0] == Message(b)[0] == Icon(b);
  }

  /** The order in which the rules add their advice. */
  function Rank(adv: Advice): nat
  {
    match adv
    case ImproveJobFit => 0
    case AddKeySkills(_) => 1
    case HighlightExperience(_) => 2
    case ExpandSkills => 3
    case AddExperienceDetail => 4
    case ExcellentMatch => 5
  }

  /** `job_requirements.get("priority_skills", [])`. */
  function PriorityOf(a: Analysis): seq<string>
  {
    if a.jobRequirements.Some? then a.jobRequirements.value.prioritySkills else []
  }

  /** `job_requirements.get("required_years", 0)`. */
  function RequiredYearsOf(a: Analysis): nat
  {
    if a.jobRequirements.Some? then a.jobRequirements.value.requiredYears else 0
  }

  /** The first three priority skills (all of them when fewer). */
  function TopPriority(a: Analysis): (top: seq<string>)
    ensures |top| == Min(3, |PriorityOf(a)|) && top <= PriorityOf(a)
  {
    var p := PriorityOf(a);
    p[..Min(3, |p|)]
  }

  predicate JobFitDue(a: Analysis) { a.jobFitAnalysis.overallFit < 70.0 }
  predicate KeySkillsDue(a: Analysis) { a.jobFitAnalysis.skillsFit < 60.0 && PriorityOf(a) != [] }
  predicate ExperienceDue(a: Analysis) { a.jobFitAnalysis.experienceFit < 70.0 && RequiredYearsOf(a) > 0 }
  predicate SkillsDue(a: Analysis) { a.detailedScores.skills < 60.0 }
  predicate DetailDue(a: Analysis) { a.detailedScores.experience < 50.0 }

  predicate AnyDue(a: Analysis)
  {
    JobFitDue(a) || KeySkillsDue(a) || ExperienceDue(a) || SkillsDue(a) || DetailDue(a)
  }

  /** `recs` with `adv` appended when `due`. */
  function AddIf(recs: seq<Advice>, due: bool, adv: Advice): seq<Advice>
  {
    if due then recs + [adv] else recs
  }

  /** The advice of the five rules, each appended when its rule applies, in rule order. */
  function RuleAdvice(a: Analysis): seq<Advice>
  {
    var r1 := AddIf([], JobFitDue(a), ImproveJobFit);
    var r2 := AddIf(r1, KeySkillsDue(a), AddKeySkills(TopPriority(a)));
    var r3 := AddIf(r2, ExperienceDue(a), HighlightExperience(RequiredYearsOf(a)));
    var r4 := AddIf(r3, SkillsDue(a), ExpandSkills);
    AddIf(r4, DetailDue(a), AddExperienceDetail)
  }

  /** What `get_recommendations` returns: the rules' advice, or the single "excellent match". */
  function RecommendationsOf(a: Analysis): seq<Advice>
  {
    var recs := RuleAdvice(a);
    if recs == [] then [ExcellentMatch] else recs
  }

  /** Ranks strictly increase along `recs`: no kind of advice twice, and rule order kept. */
  predicate Ranked(recs: seq<Advice>)
  {
    forall i, j :: 0 <= i < j < |recs| ==> Rank(recs[i]) < Rank(recs[j])
  }

  lemma AddIfFacts(recs: seq<Advice>, due: bool, adv: Advice)
    requires Ranked(recs) && forall x :: x in recs ==> Rank(x) < Rank(adv)
    ensures Ranked(AddIf(recs, due, adv))
    ensures forall x :: x in AddIf(recs, due, adv) <==> x in recs || (due && x == adv)
    ensures forall x :: x in AddIf(recs, due, adv) ==> Rank(x) <= Rank(adv)
  {
  }

  /** Exactly the due rules' advice, in rule order. */
  lemma RuleAdviceMembers(a: Analysis)
    ensures Ranked(RuleAdvice(a))
    ensures forall x :: x in RuleAdvice(a) <==>
      (JobFitDue(a) && x == ImproveJobFit)
      || (KeySkillsDue(a) && x == AddKeySkills(TopPriority(a)))
      || (ExperienceDue(a) && x == HighlightExperience(RequiredYearsOf(a)))
      || (SkillsDue(a) && x == ExpandSkills)
      || (DetailDue(a) && x == AddExperienceDetail)
  {
    var r1 := AddIf([], JobFitDue(a), ImproveJobFit);
    AddIfFacts([], JobFitDue(a), ImproveJobFit);
    var r2 := AddIf(r1, KeySkillsDue(a), AddKeySkills(TopPriority(a)));
    AddIfFacts(r1, KeySkillsDue(a), AddKeySkills(TopPriority(a)));
    var r3 := AddIf(r2, ExperienceDue(a), HighlightExperience(RequiredYearsOf(a)));
    AddIfFacts(r2, ExperienceDue(a), HighlightExperience(RequiredYearsOf(a)));
    var r4 := AddIf(r3, SkillsDue(a), ExpandSkills);
    AddIfFacts(r3, SkillsDue(a), ExpandSkills);
    AddIfFacts(r4, DetailDue(a), AddExperienceDetail);
  }

  /**
   * The rules of `get_recommendations`: each rule's advice appears exactly
   * when the rule applies (the key skills named are the first three
   * priority skills, the years the required ones), in rule order, and the
   * single "excellent match" exactly when no rule applies.
   */
  lemma RecommendationRules(a: Analysis)
    ensures var recs := RecommendationsOf(a);
      recs != []
      && (ImproveJobFit in recs <==> JobFitDue(a))
      && (AddKeySkills(TopPriority(a)) in recs <==> KeySkillsDue(a))
      && (forall x :: x in recs && x.AddKeySkills? ==> x == AddKeySkills(TopPriority(a)))
      && (HighlightExperience(RequiredYearsOf(a)) in recs <==> ExperienceDue(a))
      && (forall x :: x in recs && x.HighlightExperience? ==> x == HighlightExperience(RequiredYearsOf(a)))
      && (ExpandSkills in recs <==> SkillsDue(a))
      && (AddExperienceDetail in recs <==> DetailDue(a))
      && (ExcellentMatch in recs <==> !AnyDue(a))
      && (!AnyDue(a) ==> recs == [ExcellentMatch])
      && Ranked(recs)
  {
    RuleAdviceMembers(a);
    var rules := RuleAdvice(a);
    if AnyDue(a) {
      if JobFitDue(a) { assert ImproveJobFit in rules; }
      else if KeySkillsDue(a) { assert AddKeySkills(TopPriority(a)) in rules; }
      else if ExperienceDue(a) { assert HighlightExperience(RequiredYearsOf(a)) in rules; }
      else if SkillsDue(a) { assert ExpandSkills in rules; }
      else { assert AddExperienceDetail in rules; }
    }
  }

  /** `get_recommendations`. */
  method GetRecommendations(a: Analysis) returns (recs: seq<Advice>)
    ensures recs == RecommendationsOf(a)
    ensures forall x :: x in recs && x.AddKeySkills? ==> |x.skills| <= 3
  {
    recs := [];
    if a.jobFitAnalysis.overallFit < 70.0 {
      recs := recs + [ImproveJobFit];
    }
    ghost var r := AddIf([], JobFitDue(a), ImproveJobFit);
    assert recs == r;
    if a.jobFitAnalysis.skillsFit < 60.0 {
      var priority := PriorityOf(a);
      if priority != [] {
        recs := recs + [AddKeySkills(priority[..Min(3, |priority|)])];
      }
    }
    r := AddIf(r, KeySkillsDue(a), AddKeySkills(TopPriority(a)));
    assert recs == r;
    if a.jobFitAnalysis.experienceFit < 70.0 {
      var requiredYears := RequiredYearsOf(a);
      if requiredYears > 0 {
        recs := recs + [HighlightExperience(requiredYears)];
      }
    }
    r := AddIf(r, ExperienceDue(a), HighlightExperience(RequiredYearsOf(a)));
    assert recs == r;
    if a.detailedScores.skills < 60.0 {
      recs := recs + [ExpandSkills];
    }
    r := AddIf(r, SkillsDue(a), ExpandSkills);
    assert recs == r;
    if a.detailedScores.experience < 50.0 {
      recs := recs + [AddExperienceDetail];
    }
    r := AddIf(r, DetailDue(a), AddExperienceDetail);
    assert recs == r == RuleAdvice(a);
    if recs == [] {
      recs := recs + [ExcellentMatch];
    }
    RecommendationRules(a);
  }

  /** The rendered list of recommendations. */
  function Messages(recs: seq<Advice>): (ms: seq<string>)
    ensures |ms| == |recs| && forall i :: 0 <= i < |recs| ==> ms[i] == Message(recs[i])
  {
    seq(|recs|, i requires 0 <= i < |recs| => Message(recs[i]))
  }

  /** An advice without parameters is in the list exactly when its text is among the texts. */
  lemma TextPresent(recs: seq<Advice>, adv: Advice)
    requires !adv.AddKeySkills? && !adv.HighlightExperience?
    ensures Message(adv) in Messages(recs) <==> adv in recs
  {
    var ms := Messages(recs);
    if Message(adv) in ms {
      var i :| 0 <= i < |ms| && ms[i] == Message(adv);
      MessageTellsKind(recs[i], adv);
    }
    if adv in recs {
      var i :| 0 <= i < |recs| && recs[i] == adv;
      assert ms[i] == Message(adv);
    }
  }

  /**
   * The rules of `get_recommendations` for the lines it returns: the list
   * of texts is never empty, the "excellent match" line is there exactly
   * when no rule applies, and each fixed line is there exactly when its
   * rule applies.
   */
  lemma RecommendationTexts(a: Analysis)
    ensures var ms := Messages(RecommendationsOf(a));
      ms != []
      && (Message(ExcellentMatch) in ms <==> !AnyDue(a))
      && (Message(ImproveJobFit) in ms <==> JobFitDue(a))
      && (Message(ExpandSkills) in ms <==> SkillsDue(a))
      && (Message(AddExperienceDetail) in ms <==> DetailDue(a))
  {
    RecommendationRules(a);
    var recs := RecommendationsOf(a);
    TextPresent(recs, ExcellentMatch);
    TextPresent(recs, ImproveJobFit);
    TextPresent(recs, ExpandSkills);
    TextPresent(recs, AddExperienceDetail);
  }

  /**
   * Without a job description the job fit is 0, so the first advice is
   * always to improve it and the resume is never an excellent match; no
   * key-skill or experience-years advice appears, as there are no
   * requirements.
   */
  lemma GeneralAdvice(table: SkillTable, resumeText: string, resumeScans: ResumeScans,
                      jobScans: seq<seq<YearMatch>>, readingEase: real)
    ensures var recs := RecommendationsOf(AnalysisOf(table, resumeText, "", resumeScans, jobScans, readingEase));
      recs[0] == ImproveJobFit && ExcellentMatch !in recs
      && forall i :: 0 <= i < |recs| ==> !recs[i].AddKeySkills? && !recs[i].HighlightExperience?
  {
    var a := AnalysisOf(table, resumeText, "", resumeScans, jobScans, readingEase);
    assert a.jobFitAnalysis == NoJobFit && a.jobRequirements == None;
    RuleAdviceMembers(a);
    assert ImproveJobFit in RuleAdvice(a);
  }
}
