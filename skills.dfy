/**
 * Skill extraction (`JobMatchingAIAnalyzer.extract_skills_precise`): every
 * skill of a category -> skills table is looked up in the lower-cased,
 * whitespace-collapsed text, first as a plain substring, then through the
 * two word-boundary regular expressions the analyzer builds.
 */
module Skills {
  import opened Common
  import opened Text

  /** Category -> skills, as loaded from the skills database. */
  type SkillTable = map<string, seq<string>>

  /** Category -> skills found; extraction returns `list(set(...))`, whose order is unspecified. */
  type FoundSkills = map<string, set<string>>

  /** The table the analyzer falls back to when the skills database file is missing. */
  const DefaultSkillTable: SkillTable := map[
    "programming_languages" := ["python", "java", "javascript", "c++", "c#", "php", "ruby", "swift"],
    "web_technologies" := ["html", "css", "react", "angular", "vue.js", "node.js", "express.js"],
    "databases" := ["mysql", "postgresql", "mongodb", "sqlite", "redis", "oracle"],
    "cloud_platforms" := ["aws", "azure", "google cloud", "heroku", "digitalocean"],
    "data_science" := ["machine learning", "deep learning", "data science", "pandas", "numpy"],
    "market_research" := ["market research", "consumer research", "survey design", "focus groups"],
    "business_consulting" := ["business strategy", "strategic planning", "process improvement"],
    "soft_skills" := ["leadership", "communication", "teamwork", "problem solving", "analytical thinking"]
  ]

  /** The text skills are searched in: `' '.join(text.lower().split())`. */
  function NormalizedText(text: string): string
  {
    Collapse(Lower(text))
  }

  /** `re.search(r'\b' + re.escape(p) + r'\b', t)`: `p` occurs literally with a word boundary on each side. */
  predicate BoundedOccurrence(t: string, p: string)
  {
    exists i: nat | i <= |t| :: OccursAt(t, p, i) && Boundary(t, i) && Boundary(t, i + |p|)
  }

  /**
   * Where the pattern `w1\s+w2\s+...\s+wn`, tried at position `i` of `t`,
   * ends. Each `\s+` takes the whole run of white space: the next word
   * starts with a non-space character, so no shorter run lets the match go on.
   */
  function WordsMatchEnd(t: string, i: nat, ws: seq<string>): (e: Option<nat>)
    requires i <= |t|
    ensures e.Some? ==> i <= e.value <= |t|
    decreases |ws|
  {
    if ws == [] || !OccursAt(t, ws[0], i) then None
    else
      var j := i + |ws[0]|;
      if |ws| == 1 then Some(j)
      else
        var k := SpaceEnd(t, j);
        if k == j then None else WordsMatchEnd(t, k, ws[1..])
  }

  /** `re.search(r'\b' + r'\s+'.join(map(re.escape, ws)) + r'\b', t)`. */
  predicate WordsPatternMatch(t: string, ws: seq<string>)
  {
    exists i :: 0 <= i <= |t| && Boundary(t, i) &&
      var e := WordsMatchEnd(t, i, ws); e.Some? && Boundary(t, e.value)
  }

  /**
   * Whether `skill` is reported as found in the normalised text `norm`: the
   * exact-phrase test, else the word-boundary test for single-word skills,
   * else the `\s+`-separated pattern for multi-word skills.
   */
  predicate SkillFound(norm: string, skill: string)
    ensures Contains(norm, Lower(skill)) ==> SkillFound(norm, skill)
    ensures |Words(Lower(skill))| <= 1 ==> (SkillFound(norm, skill) <==> Contains(norm, Lower(skill)))
  {
    var sl := Lower(skill);
    Contains(norm, sl)
    || (|Words(sl)| == 1 && BoundedOccurrence(norm, sl))
    || (|Words(sl)| > 1 && WordsPatternMatch(norm, Words(sl)))
  }

  /** The skills of one category found in `norm`, duplicates merged. */
  function CategoryMatches(norm: string, skills: seq<string>): set<string>
  {
    set s | s in skills && SkillFound(norm, s)
  }

  /** What `extract_skills_precise(text)` returns. */
  function SkillsOf(table: SkillTable, text: string): FoundSkills
  {
    map c | c in table :: CategoryMatches(NormalizedText(text), table[c])
  }

  /**
   * `extract_skills_precise`: one entry per category of the table, empty
   * ones included; each holds exactly the category's skills that are found.
   */
  method ExtractSkills(table: SkillTable, text: string) returns (found: FoundSkills)
    ensures found.Keys == table.Keys
    ensures forall c, s :: c in found ==> (s in found[c] <==> s in table[c] && SkillFound(NormalizedText(text), s))
    ensures found == SkillsOf(table, text)
  {
    var norm := NormalizedText(text);
    found := map[];
    var pending := table.Keys;
    while pending != {}
      invariant pending <= table.Keys
      invariant found.Keys == table.Keys - pending
      invariant forall c :: c in found ==> found[c] == CategoryMatches(norm, table[c])
      decreases |pending|
    {
      var c :| c in pending;
      var skills := table[c];
      var hits: seq<string> := [];
      for j := 0 to |skills|
        invariant forall s :: s in hits <==> s in skills[..j] && SkillFound(norm, s)
      {
        assert skills[..j + 1] == skills[..j] + [skills[j]];
        var skill := skills[j];
        var sl := Lower(skill);
        if Contains(norm, sl) {
          hits := hits + [skill];
        } else if |Words(sl)| == 1 && BoundedOccurrence(norm, sl) {
          hits := hits + [skill];
        } else if |Words(sl)| > 1 && WordsPatternMatch(norm, Words(sl)) {
          hits := hits + [skill];
        }
      }
      assert skills[..|skills|] == skills;
      found := found[c := set s | s in hits];
      pending := pending - {c};
    }
  }

  /** In single-spaced text, a `\s+`-separated match of the words spells exactly their blank-joined form. */
  lemma {:induction false} WordsMatchSpellsJoin(t: string, i: nat, ws: seq<string>)
    requires i <= |t| && SingleSpaced(t)
    requires forall k :: 0 <= k < |ws| ==> ws[k] != [] && NoSpace(ws[k])
    requires WordsMatchEnd(t, i, ws).Some?
    ensures t[i..WordsMatchEnd(t, i, ws).value] == Join(ws, " ")
    decreases |ws|
  {
    var w := ws[0];
    var j := i + |w|;
    assert t[i..j] == w;
    if |ws| > 1 {
      var k := SpaceEnd(t, j);
      assert IsSpace(t[j]) && SpacedAt(t, j);
      assert k == j + 1;
      WordsMatchSpellsJoin(t, k, ws[1..]);
      var e := WordsMatchEnd(t, i, ws).value;
      assert t[i..e] == t[i..j] + [t[j]] + t[k..e];
    }
  }

  /**
   * The two regular-expression branches of the lookup find nothing the
   * substring test misses when the skill's words are separated by single
   * blanks (as in every entry of the default table): then a skill is found
   * iff its lower-case form occurs in the normalised text.
   */
  lemma SingleSpacedSkillFound(text: string, skill: string)
    requires Lower(skill) == Join(Words(Lower(skill)), " ")
    ensures SkillFound(NormalizedText(text), skill) <==> Contains(NormalizedText(text), Lower(skill))
  {
    var norm, sl := NormalizedText(text), Lower(skill);
    var ws := Words(sl);
    if |ws| > 1 && WordsPatternMatch(norm, ws) {
      var i :| 0 <= i <= |norm| && Boundary(norm, i) && WordsMatchEnd(norm, i, ws).Some?;
      CollapseSingleSpaced(Lower(text));
      WordsMatchSpellsJoin(norm, i, ws);
      assert OccursAt(norm, sl, i);
    }
  }
}
