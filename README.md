# Resume screener scoring core, modelled in Dafny

This project models the scoring core of an AI resume screener. It has four parts:

- **Skills extraction.** The analyzer finds the skills of a skills table that occur in a text. It uses an exact phrase test, then a word-boundary pattern for one-word skills, then a `\s+` pattern for multi-word skills.
- **Resume and job-description scans.** It collects the years of experience, the degrees, the job role, the role's priority skills, the required education keywords and the requirement sections.
- **Scoring.**
  - *Fits.* One fit for each of skills, experience and education, and a weighted job fit.
  - *Overall score.* A weighted score of five pillars: job fit, skills, experience, education and readability. Which weights apply depends on whether a job description was given.
  - *Advice.* A rule-based list of recommendations.
- **Application helpers.**
  - *History.* The session's analysis history, which keeps the last ten analyses.
  - *Uploads.* The upload validator.
  - *Output.* The score colour.
  - *Config.* The configuration merge over the defaults.
- **Authentication manager.** A class whose `users` and `sessions` maps stand for the two JSON files. It has login, sessions with an eight-hour lifetime, logout, password change and user creation.

Module layout:

| module | contents |
|---|---|
| `Common` | `Option` and small `Min`/`Max` helpers |
| `Text` | lower-casing, whitespace splitting and joining, substring tests, word boundaries |
| `Skills` | the skills table and `extract_skills_precise` |
| `Extraction` | experience, education, job role, priority skills and job requirements |
| `Sums` | finite sums over sets of category names |
| `Fit` | skills, experience, education and job fit |
| `Scoring` | the resume score, the skill count and the recommendations |
| `Helpers` | history, file validation, score colour and configuration |
| `Auth` | the authentication manager |

Each source function that loops is a `method` with loop invariants, apart from `identify_job_role`'s early-exit scan over the role table, which is the recursive function `Extraction.FirstRoleFrom`. Each method is proved against a specification function, and the properties the source promises are lemmas about those functions. The authentication manager is a `class`. Each of its methods states its new state as a pure function of the old one, and the cross-call properties are lemmas about those functions.

## Model

| member | source | states |
|---|---|---|
| `Skills.ExtractSkills` | components/ai_analyzer.py:306-339 | Every category of the table gets an entry, empty ones included. A skill is in a category's set exactly when it belongs to that category and the exact-phrase, word-boundary or multi-word pattern test finds it in the lower-cased, whitespace-normalised text. |
| `Skills.SkillFound` | components/ai_analyzer.py:317-335 | The three-branch lookup. An occurrence of the lower-cased skill always finds it, and for a skill of at most one word the word-boundary branch adds nothing: it is found iff its lower-cased form occurs. |
| `Skills.WordsMatchEnd` | components/ai_analyzer.py:332-334 | Where the `w1\s+w2...` pattern, tried at a position, ends; the end lies within the text. |
| `Skills.WordsMatchSpellsJoin` | components/ai_analyzer.py:309-334 | In single-spaced text, a match of the `\s+`-joined words spells exactly the words joined by single blanks. |
| `Skills.SingleSpacedSkillFound` | components/ai_analyzer.py:308-335 | For a skill whose words are separated by single blanks, the two pattern branches add nothing: the skill is found iff its lower-case form occurs in the normalised text. |
| `Extraction.CollectYears` | components/ai_analyzer.py:350-357 | The loop over patterns and matches collects exactly `AllYears`: each pattern's numbers in match order, both numbers of an `N-M` span. |
| `Extraction.PatternYearsMembers` | components/ai_analyzer.py:353-357 | A number is collected from one pattern iff one of its matches captured it. |
| `Extraction.AllYearsMembers` | components/ai_analyzer.py:351-357 | A number is collected iff some match of some pattern captured it. |
| `Extraction.MaxOrZero` | components/ai_analyzer.py:359 | The result bounds every collected number and is one of them; it is 0 for an empty list. |
| `Extraction.ExtractExperience` | components/ai_analyzer.py:341-365 | `max_years` is the largest number mentioned, or 0. The experience score is 15 per year, capped at 100. |
| `Extraction.ExtractEducation` | components/ai_analyzer.py:367-383 | The degrees are exactly the distinct strings some degree pattern matched. The score is 50 when there is one and 0 otherwise. |
| `Extraction.FirstRoleFrom` | components/ai_analyzer.py:396-400 | The scan over roles from a given index: "general" iff no later role's phrase occurs; otherwise the first role whose phrase occurs. |
| `Extraction.IdentifyJobRole` | components/ai_analyzer.py:385-400 | The first role, in table order, with a phrase occurring in the lower-cased text; "general" iff there is none. |
| `Extraction.PrioritySkillsFor` | components/ai_analyzer.py:148-169 | The role's priority list, or the empty list for a role not in the table. |
| `Extraction.PriorityListsCoverRoles` | components/ai_analyzer.py:150-169 | Every role the role scan can name has at least three priority skills, and "general" has none. |
| `Extraction.PresentKeywordsMembers` | components/ai_analyzer.py:122-125 | A degree keyword is required iff it is in the keyword list and occurs in the lower-cased description. |
| `Extraction.SectionsOf` | components/ai_analyzer.py:128-134 | "responsibilities" is listed iff "responsibilities" or "duties" occurs; "requirements" iff "requirements" or "qualifications" occurs; "preferred" iff "preferred" or "nice to have" occurs. Nothing else is listed, and nothing twice. |
| `Extraction.ExtractJobRequirements` | components/ai_analyzer.py:89-146 | Nothing iff the description is empty. Otherwise: the skills found keyed by every table category; the largest required number of years, or 0; the keywords present; the requirement sections whose marker words occur; the identified role and its priority skills. |
| `Fit.CategoryWeight` | components/ai_analyzer.py:235-237 | A category's weight is the role table's entry or 0.1, always in (0, 1]. |
| `Fit.PriorityMatches` | components/ai_analyzer.py:248-251 | The number of priority matches never exceeds the length of the priority list. |
| `Fit.ScoreTermBound` | components/ai_analyzer.py:233-240 | A category adds between 0 and 100 times its weight to the total score. |
| `Fit.PriorityScoreBound` | components/ai_analyzer.py:253-256 | The priority share adds between 0 and 100 × 0.3 to the total score, and nothing when there are no priority skills. |
| `Fit.SkillsFitRange` | components/ai_analyzer.py:216-258 | The skills fit is a percentage. |
| `Fit.SkillsFitWithoutWeight` | components/ai_analyzer.py:221-258 | Suppose the requirement map lists categories but none holds a skill, and there are no priority skills. Then the fit is 0, not the neutral 50. |
| `Fit.SkillsFitFullMatch` | components/ai_analyzer.py:228-258 | Suppose a resume has every required skill and every priority skill, and something carries weight. Then it scores exactly 100, whatever the weights are. |
| `Fit.ScoreTermFull` | components/ai_analyzer.py:233-240 | A category whose required skills the resume all has adds exactly 100 times its weight. |
| `Fit.PriorityScoreFull` | components/ai_analyzer.py:243-256 | A resume with every priority skill gets the full priority share. |
| `Fit.TotalWeightPositive` | components/ai_analyzer.py:228-256 | A category with a required skill or a non-empty priority list makes the total weight positive. |
| `Fit.PriorityMatchesAll` | components/ai_analyzer.py:248-251 | When every priority skill is in the pool, the match count is the length of the list. |
| `Fit.PriorityMatchesMonotone` | components/ai_analyzer.py:248-251 | A larger pool of resume skills never gives fewer priority matches. |
| `Fit.ScoreTermMonotone` | components/ai_analyzer.py:228-240 | More resume skills never lower the contribution of a category. |
| `Fit.PriorityScoreMonotone` | components/ai_analyzer.py:243-256 | More resume skills never lower the priority share. |
| `Fit.SkillsFitMonotone` | components/ai_analyzer.py:216-258 | A resume whose skills extend another's has at least the same skills fit. |
| `Fit.CategoryContribution` | components/ai_analyzer.py:229-240 | One turn of the category loop adds the category's share of the score and its weight. The share is at most 100 times the weight. |
| `Fit.PriorityContribution` | components/ai_analyzer.py:243-256 | The priority turn adds the share of priority skills found, times 100 × 0.3. |
| `Fit.CountPriorityMatches` | components/ai_analyzer.py:248-251 | The loop counts the priority skills whose lower-cased form is in the pool. |
| `Fit.SkillsFit` | components/ai_analyzer.py:216-258 | The method's loops compute the skills fit. It is a percentage, and 50 when there are no required and no priority skills. |
| `Fit.ExperienceFit` | components/ai_analyzer.py:260-277 | 75 when nothing is required. Otherwise 100 iff the requirement is met, and the result is always one of 20, 40, 60, 80 or 100. |
| `Fit.ExperienceFitMonotone` | components/ai_analyzer.py:268-277 | More years never lower the experience fit. |
| `Fit.DegreeScore` | components/ai_analyzer.py:290-302 | One turn of the scan over requirements. The result is 0, 70, 90 or 100, and 100 for a degree the resume lists exactly. It is at least 90 (ending the scan) iff there is an exact, master's or bachelor's match, and 0 iff there is no such match and none of the requirement's words is a degree. |
| `Fit.ScanScore` | components/ai_analyzer.py:288-302 | The scan over requirements ends with 0, 70, 90 or 100. It ends with 0 iff no requirement scores. |
| `Fit.EducationFitFirstDecisive` | components/ai_analyzer.py:289-300 | The first requirement that gives an exact, master's or bachelor's match decides the fit. |
| `Fit.EducationFit` | components/ai_analyzer.py:279-304 | The result is one of 30, 70, 75, 90 or 100. It is 75 iff nothing is required, and 30 iff no requirement produced a match. |
| `Fit.FitWeightsFor` | components/ai_analyzer.py:191-200 | Each role's three fit weights are positive and sum to 1. |
| `Fit.WeightedFitRange` | components/ai_analyzer.py:202-206 | The weighted job fit of three percentages is a percentage, under every role's weights. |
| `Fit.CalculateJobFitScore` | components/ai_analyzer.py:171-214 | All zeros without requirements. Otherwise the three fits, the role's weights and the weighted overall fit, each a percentage. |
| `Scoring.CountSkills` | components/ai_analyzer.py:417 | The loop over categories sums the sizes of the sets of found skills. The result is the number of (category, skill) pairs found. |
| `Scoring.TotalSkillsAdd` | components/ai_analyzer.py:417 | Finding one more skill raises the count by one. |
| `Scoring.WeightsFor` | components/ai_analyzer.py:423-447 | The pillar weights sum to 1 and are all positive. A job-fit weight is present iff a job description was given. |
| `Scoring.SkillsScore` | components/ai_analyzer.py:417 | Five points per skill while at most 20 are found, and 100 from 20 on. Always a percentage. |
| `Scoring.ReadabilityScore` | components/ai_analyzer.py:420-438 | The reading ease clamped to [0, 100]; it is unchanged when already in range. |
| `Scoring.OverallScoreRange` | components/ai_analyzer.py:456-457 | With the weights in use and every pillar a percentage, the overall score is a percentage. |
| `Scoring.OverallScoreMonotone` | components/ai_analyzer.py:456-457 | Raising any pillar score never lowers the overall score. |
| `Scoring.CalculateResumeScore` | components/ai_analyzer.py:402-470 | The analysis of a resume. Overall and pillar scores are percentages. A job-fit pillar is present iff a job description was given. Without one, the role is "general", the job fit is all zeros and the general weights apply. With one, the description's role and the job-match weights apply. The skills score is derived from the total count. |
| `Scoring.Message` | components/ai_analyzer.py:481-502 | Every recommendation text starts with its own emoji. |
| `Scoring.MessageTellsKind` | components/ai_analyzer.py:481-502 | Two equal texts are the same kind of advice. |
| `Scoring.TopPriority` | components/ai_analyzer.py:486 | The first three priority skills, or all of them when there are fewer; a prefix of the list. |
| `Scoring.RuleAdviceMembers` | components/ai_analyzer.py:479-499 | The five rules add exactly the advice of the rules that apply, each at most once, in rule order. |
| `Scoring.RecommendationRules` | components/ai_analyzer.py:472-503 | Every rule's advice appears iff its condition holds: job fit < 70; skills fit < 60 with priority skills; experience fit < 70 with required years; skills < 60; experience < 50. The list is never empty, and it is exactly the single "excellent match" iff no rule applies. |
| `Scoring.GetRecommendations` | components/ai_analyzer.py:472-503 | The method builds exactly the rule list above, and no key-skills advice names more than three skills. |
| `Scoring.RecommendationTexts` | components/ai_analyzer.py:472-503 | For the returned lines themselves: the list is never empty, and the "excellent match" line is there iff no rule applies. The job-fit, skills-portfolio and experience-detail lines are each there iff their rule applies. |
| `Scoring.GeneralAdvice` | components/ai_analyzer.py:406-492 | Without a job description, the first advice is to improve the job fit and the resume is never an excellent match. No key-skills or years advice appears. |
| `Helpers.LastN` | utils/helpers.py:34-35 | The last `n` elements, or all of them when there are fewer. |
| `Helpers.TruncateEarly` | utils/helpers.py:31-35 | Cutting to the last ten after every append keeps what one cut at the end would keep. |
| `Helpers.AnalysisHistory.constructor` | utils/helpers.py:20-21 | The history starts empty. |
| `Helpers.AnalysisHistory.AddAnalysis` | utils/helpers.py:24-35 | The new item is the last one, and the history is always the last ten of all items ever added. |
| `Helpers.AfterLastDot` | utils/helpers.py:54 | The text after the last dot (the whole name without one): a dot-free suffix of the name, preceded by a dot when shorter. |
| `Helpers.ValidateFile` | utils/helpers.py:44-58 | Valid iff a file is given, its size is at most 10 MiB and its lower-cased extension is pdf, docx or txt. Each failure gives its own message, checked in source order. |
| `Helpers.SizeLimitIsInclusive` | utils/helpers.py:50 | A file of exactly 10 MiB passes and one byte more fails. |
| `Helpers.LastDotDecides` | utils/helpers.py:54-55 | Only the part after the last dot counts, so "cv.pdf.exe" is refused. |
| `Helpers.ScoreColor` | utils/helpers.py:87-96 | Green iff ≥ 85, orange iff in [70, 85), yellow iff in [50, 70), red iff < 50. |
| `Helpers.ScoreColorMonotone` | utils/helpers.py:87-96 | A higher score never gets a worse colour. |
| `Helpers.LoadConfig` | utils/helpers.py:64-85 | The result has every default key. A key the file gives takes the file's value, and the others keep the default. Without a file, or when its value is not an object, the defaults come back unchanged. |
| `Helpers.LoadConfigIdempotent` | utils/helpers.py:81 | Merging the merged configuration again changes nothing. |
| `Auth.DefaultUsers` | components/auth.py:22-41 | Two default users, "admin" and "hr_manager". Each has its default password, a role named like the user, and no login yet. |
| `Auth.LoginResult` | components/auth.py:77-97 | Login succeeds iff the user exists and the password's digest matches. Success stamps only that user's last login with now and returns their data; failure changes nothing. |
| `Auth.SessionOpened` | components/auth.py:99-111 | The new session carries the user data, created now and expiring eight hours later. Other sessions are kept. |
| `Auth.SessionChecked` | components/auth.py:113-128 | The user data is returned iff the session exists and now is before its expiry. An expired session is removed. Nothing else changes. |
| `Auth.LoggedOut` | components/auth.py:130-135 | The session is removed and every other one is kept. |
| `Auth.PasswordChanged` | components/auth.py:137-149 | Success iff the old password matches. Then only that user's digest changes, to the new password's. |
| `Auth.UserAdded` | components/auth.py:151-167 | Success iff the username is new. Then exactly that user is added, with a hashed password and no login; existing users are never overwritten. |
| `Auth.LoginKeepsCredentials` | components/auth.py:83-87 | A login attempt never changes which credentials are accepted. |
| `Auth.ChangedPasswordLogsIn` | components/auth.py:137-149 | After a change, the new password logs in. The old one fails unless the two have the same digest. |
| `Auth.AddedUserLogsIn` | components/auth.py:151-167 | A new user logs in with their password and gets the role and details they were added with. |
| `Auth.AddUserTwice` | components/auth.py:155-167 | Adding an existing username fails and changes nothing. |
| `Auth.SessionLifetime` | components/auth.py:104-122 | A fresh session is valid for exactly eight hours. After that it is refused and removed. |
| `Auth.SessionCheckIdempotent` | components/auth.py:113-128 | Checking a session twice at the same time gives the same answer and the same table. |
| `Auth.LogoutEndsSession` | components/auth.py:130-135 | After logout the session is refused, and logging out again changes nothing. |
| `Auth.AuthManager.constructor` | components/auth.py:12-45 | Existing tables are kept. A missing users table becomes the default users, and a missing sessions table becomes empty. |
| `Auth.AuthManager.AuthenticateUser` | components/auth.py:77-97 | Returns and stores exactly `LoginResult`. Sessions are untouched. |
| `Auth.AuthManager.CreateSession` | components/auth.py:99-111 | The id is the digest of the username followed by the time. The table becomes `SessionOpened`; users are untouched. |
| `Auth.AuthManager.ValidateSession` | components/auth.py:113-128 | Returns and stores exactly `SessionChecked`. Users are untouched. |
| `Auth.AuthManager.LogoutUser` | components/auth.py:130-135 | The sessions table becomes `LoggedOut`. Users are untouched. |
| `Auth.AuthManager.ChangePassword` | components/auth.py:137-149 | Returns and stores exactly `PasswordChanged`. Sessions are untouched. |
| `Auth.AuthManager.AddUser` | components/auth.py:151-167 | Returns and stores exactly `UserAdded`. Sessions are untouched. |

## Left out

- Regular expressions. The year and degree patterns are not interpreted. Their `re.findall` results (one list per pattern) are parameters of the resume and job-description extractors.
- Text handling is ASCII-only. Lower-casing is ASCII lower-casing, and white space and the word-boundary `\w` class are their ASCII forms; Unicode case folding and Unicode classes are not modelled.
- Numbers are exact reals. Floating-point arithmetic is not modelled, and neither is the `round(x, 2)` of the job-fit and overall scores, which are kept unrounded.
- Readability. The Flesch reading ease of the resume is computed by an external library, so it is a parameter of the resume score.
- The spaCy model. It is loaded by the analyzer but used by none of the modelled operations.
- The skills database file. The skills table is a parameter; the built-in fallback table is `Skills.DefaultSkillTable`.
- `job_title`. The resume score takes this argument but never uses it, so it is not a parameter.
- Skill lists. The source returns each category's skills as `list(set(...))`, whose order is unspecified, so they are modelled as sets. `total_skills_count` is therefore the number of distinct (category, skill) pairs.
- Files, clock and hashing in the authentication manager.
  - The JSON files are the two map fields. Reading or writing them, and a corrupt file (read as empty), are not modelled.
  - The clock is an integer number of seconds passed to each operation, and ISO timestamps are those integers. The session id hashes the username followed by the decimal rendering of those seconds, so two sessions of the same user within one second share an id; the source's microsecond clock text makes that unlikely.
  - SHA-256 is the manager's `hash` function value, with no property assumed.
- Configuration file. The check for its existence and the JSON parsing become one `Option<Json>` parameter. A file that fails to parse and a value that is not an object both lead to the defaults, as the source's exception handler does. JSON numbers are reals.
- User interface. Plotting, Streamlit session state other than the analysis history, `create_download_link` (HTML rendering only) and the timestamp text of a history item (a parameter) are not modelled.
- Scoring weights. The overall-score weights are the code's (components/ai_analyzer.py:425-447).
- `Fit.SkillsFit`: the neutral 50 applies only when the requirement map and the priority list are both empty. `extract_skills_precise` gives the requirement map an entry for every table category, so with a non-empty table the neutral case is not reachable. `Fit.SkillsFitWithoutWeight` states the resulting 0.
