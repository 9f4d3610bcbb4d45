/** The keyword-heuristic job classifier of backend/app/main.py: the table of
    job categories, the fallback branch of `predict_category` and
    `extract_skills`.  Confidence is kept in integer hundredths, because the
    score is an integer and the service rounds the confidence to two places. */
module Classifier {
  import opened Text
  import opened Seqs

  datatype Category = Category(name: string, keywords: seq<string>)

  /** The keyword lists of `CATEGORIES`, one per category. */
  const DataScienceKeywords: seq<string> := ["python", "pandas", "numpy", "machine learning", "statistics", "sql", "scikit", "tensorflow", "pytorch", "data analysis"]
  const SoftwareEngineeringKeywords: seq<string> := ["javascript", "typescript", "react", "node", "java", "c++", "c#", "go", "docker", "kubernetes", "git", "api", "microservices"]
  const DevOpsCloudKeywords: seq<string> := ["aws", "azure", "gcp", "terraform", "ansible", "ci/cd", "jenkins", "kubernetes", "docker", "linux", "sre"]
  const ProductManagementKeywords: seq<string> := ["product", "roadmap", "stakeholder", "metrics", "kpi", "user research", "backlog", "agile", "scrum"]
  const UiUxDesignKeywords: seq<string> := ["figma", "sketch", "wireframe", "prototype", "ux", "ui", "usability", "design system", "adobe"]
  const DataEngineeringKeywords: seq<string> := ["spark", "airflow", "kafka", "hadoop", "etl", "data pipeline", "snowflake", "redshift", "databricks"]
  const CybersecurityKeywords: seq<string> := ["security", "siem", "soc", "incident response", "vulnerability", "nist", "owasp", "splunk", "iso 27001"]

  /** `CATEGORIES`, in table order. */
  const Categories: seq<Category> := [
    Category("Data Science", DataScienceKeywords),
    Category("Software Engineering", SoftwareEngineeringKeywords),
    Category("DevOps / Cloud", DevOpsCloudKeywords),
    Category("Product Management", ProductManagementKeywords),
    Category("UI/UX Design", UiUxDesignKeywords),
    Category("Data Engineering", DataEngineeringKeywords),
    Category("Cybersecurity", CybersecurityKeywords)
  ]

  /** The category reported when no keyword of any category matches. */
  const General: string := "General"

  /** The skills reported when no keyword matched. */
  const DefaultSkills: seq<string> := ["Communication", "Teamwork"]

  /** At most this many skills are reported. */
  const MaxSkills: nat := 10

  /** The response of `/predict`: category, confidence in hundredths, skills. */
  datatype Prediction = Prediction(category: string, conf100: int, skills: seq<string>)

  /** The keywords of `kws` that occur in `t`, in keyword order. */
  function Matched(kws: seq<string>, t: string): (m: seq<string>)
    ensures |m| <= |kws|
  {
    if kws == [] then []
    else
      var p := kws[..|kws| - 1];
      var kw := kws[|kws| - 1];
      assert kws == p + [kw];
      Matched(p, t) + (if Occurs(kw, t) then [kw] else [])
  }

  /** A keyword is matched exactly when it is one of `kws` and occurs in `t`. */
  lemma {:induction false} MatchedMembers(kws: seq<string>, t: string)
    ensures forall kw :: kw in Matched(kws, t) <==> kw in kws && Occurs(kw, t)
  {
    if kws != [] {
      var p, kw := kws[..|kws| - 1], kws[|kws| - 1];
      assert kws == p + [kw];
      MatchedMembers(p, t);
    }
  }

  lemma MatchedSnoc(kws: seq<string>, kw: string, t: string)
    ensures Matched(kws + [kw], t) == Matched(kws, t) + (if Occurs(kw, t) then [kw] else [])
  {
    assert (kws + [kw])[..|kws|] == kws;
  }

  /** With distinct keywords, no keyword is matched twice. */
  lemma {:induction false} MatchedDistinct(kws: seq<string>, t: string)
    requires NoDup(kws)
    ensures NoDup(Matched(kws, t))
  {
    if kws != [] {
      var p, kw := kws[..|kws| - 1], kws[|kws| - 1];
      assert kws == p + [kw];
      assert NoDup(p);
      MatchedDistinct(p, t);
      MatchedMembers(p, t);
      assert kw !in p;
    }
  }

  /** With distinct keywords, the matched keywords are distinct, keep the
      table's keyword order, and their number (the score) is the number of
      distinct keywords that occur in `t`. */
  lemma MatchedInKeywordOrder(kws: seq<string>, t: string)
    requires NoDup(kws)
    ensures NoDup(Matched(kws, t))
    ensures InOrderOf(Matched(kws, t), kws)
    ensures |Matched(kws, t)| == |set kw | kw in kws && Occurs(kw, t)|
  {
    var m := Matched(kws, t);
    MatchedDistinct(kws, t);
    forall i, j | 0 <= i < j < |m|
      ensures m[i] in kws && m[j] in kws && IndexOf(kws, m[i]) < IndexOf(kws, m[j])
    {
      assert IndexOf(m, m[i]) == i && IndexOf(m, m[j]) == j;
      MatchedIndexOrder(kws, t, m[i], m[j]);
    }
    NoDupCard(m);
    MatchedMembers(kws, t);
    assert (set x | x in m) == (set kw | kw in kws && Occurs(kw, t));
  }

  /** The keyword lists of the table have no repeated keyword. */
  lemma CategoryKeywordsDistinct()
    ensures forall k :: 0 <= k < |Categories| ==> NoDup(Categories[k].keywords)
  {
    DataScienceDistinct();
    SoftwareEngineeringDistinct();
    DevOpsCloudDistinct();
    ProductManagementDistinct();
    UiUxDesignDistinct();
    DataEngineeringDistinct();
    CybersecurityDistinct();
  }

  lemma DataScienceDistinct() ensures NoDup(DataScienceKeywords) { }
  lemma SoftwareEngineeringDistinct() ensures NoDup(SoftwareEngineeringKeywords) { }
  lemma DevOpsCloudDistinct() ensures NoDup(DevOpsCloudKeywords) { }
  lemma ProductManagementDistinct() ensures NoDup(ProductManagementKeywords) { }
  lemma UiUxDesignDistinct() ensures NoDup(UiUxDesignKeywords) { }
  lemma DataEngineeringDistinct() ensures NoDup(DataEngineeringKeywords) { }
  lemma CybersecurityDistinct() ensures NoDup(CybersecurityKeywords) { }

  /** Every keyword of the table is already lower case. */
  lemma CategoryKeywordsLower()
    ensures forall k, kw :: 0 <= k < |Categories| && kw in Categories[k].keywords ==> NoUpper(kw)
  {
    DataScienceLower();
    SoftwareEngineeringLower();
    DevOpsCloudLower();
    ProductManagementLower();
    UiUxDesignLower();
    DataEngineeringLower();
    CybersecurityLower();
  }

  lemma DataScienceLower() ensures forall kw :: kw in DataScienceKeywords ==> NoUpper(kw) { }
  lemma SoftwareEngineeringLower() ensures forall kw :: kw in SoftwareEngineeringKeywords ==> NoUpper(kw) { }
  lemma DevOpsCloudLower() ensures forall kw :: kw in DevOpsCloudKeywords ==> NoUpper(kw) { }
  lemma ProductManagementLower() ensures forall kw :: kw in ProductManagementKeywords ==> NoUpper(kw) { }
  lemma UiUxDesignLower() ensures forall kw :: kw in UiUxDesignKeywords ==> NoUpper(kw) { }
  lemma DataEngineeringLower() ensures forall kw :: kw in DataEngineeringKeywords ==> NoUpper(kw) { }
  lemma CybersecurityLower() ensures forall kw :: kw in CybersecurityKeywords ==> NoUpper(kw) { }

  /** The scores of the categories of `cats` on `t`, in table order: how many
      of each category's keywords occur in `t`. */
  function Scores(cats: seq<Category>, t: string): (s: seq<nat>)
    ensures |s| == |cats|
  {
    seq(|cats|, k requires 0 <= k < |cats| => |Matched(cats[k].keywords, t)|)
  }

  /** On `CATEGORIES`, a category's score is the number of its keywords that
      occur in the text, and its matched keywords keep the table's order. */
  lemma TableScoreCountsKeywords(t: string, k: nat)
    requires k < |Categories|
    ensures Scores(Categories, t)[k] == |set kw | kw in Categories[k].keywords && Occurs(kw, t)|
    ensures InOrderOf(Matched(Categories[k].keywords, t), Categories[k].keywords)
  {
    CategoryKeywordsDistinct();
    MatchedInKeywordOrder(Categories[k].keywords, t);
  }

  /** The index of the earliest maximal positive entry of `s`, or -1 when all
      entries are 0: the choice made by a scan that replaces its best entry
      only on a strictly greater score. */
  function FirstMax(s: seq<nat>): (k: int)
    ensures -1 <= k < |s|
  {
    if s == [] then -1
    else
      var k := FirstMax(s[..|s| - 1]);
      var best := if k < 0 then 0 else s[k];
      if s[|s| - 1] > best then |s| - 1 else k
  }

  /** `FirstMax` finds the earliest maximal positive score, and -1 exactly when
      every score is 0. */
  lemma {:induction false} FirstMaxSpec(s: seq<nat>)
    ensures FirstMax(s) == -1 <==> forall j :: 0 <= j < |s| ==> s[j] == 0
    ensures FirstMax(s) >= 0 ==>
      var k := FirstMax(s);
      s[k] > 0 &&
      (forall j :: 0 <= j < |s| ==> s[j] <= s[k]) &&
      (forall j :: 0 <= j < k ==> s[j] < s[k])
  {
    if s != [] {
      var p := s[..|s| - 1];
      FirstMaxSpec(p);
      assert forall j :: 0 <= j < |p| ==> p[j] == s[j];
    }
  }

  /** Extending the scanned prefix by one entry moves the choice to that
      entry exactly when it beats the best score so far. */
  lemma FirstMaxStep(s: seq<nat>, i: nat)
    requires i < |s|
    ensures var k := FirstMax(s[..i]);
      FirstMax(s[..i + 1]) == if s[i] > (if k < 0 then 0 else s[k]) then i else k
  {
    assert s[..i + 1][..i] == s[..i];
  }

  /** The best score: that of the chosen category, or 0. */
  function BestScore(s: seq<nat>): nat {
    var k := FirstMax(s);
    if k < 0 then 0 else s[k]
  }

  /** The heuristic confidence in hundredths:
      `min(0.95, 0.5 + score / 10)` when something matched, else 0.5. */
  function Conf100(score: nat): (c: int)
    ensures 50 <= c <= 95
    ensures c == 50 <==> score == 0
    ensures score > 0 ==> c == (if 50 + 10 * score < 95 then 50 + 10 * score else 95)
  {
    if score > 0 then (if 95 < 50 + 10 * score then 95 else 50 + 10 * score) else 50
  }

  /** The heuristic confidence never decreases as the score grows. */
  lemma ConfMonotone(a: nat, b: nat)
    requires a <= b
    ensures Conf100(a) <= Conf100(b)
  {
  }

  /** `[s.title() for s in ss]`. */
  function TitleAll(ss: seq<string>): (r: seq<string>)
    ensures |r| == |ss|
    ensures forall i :: 0 <= i < |ss| ==> r[i] == Title(ss[i])
  {
    if ss == [] then [] else [Title(ss[0])] + TitleAll(ss[1..])
  }

  /** `[s.title() for s in matched][:10] or ["Communication", "Teamwork"]`. */
  function SkillsDisplay(matched: seq<string>): (r: seq<string>)
    ensures 1 <= |r| <= MaxSkills
    ensures matched == [] ==> r == DefaultSkills
    ensures matched != [] ==>
      |r| == (if |matched| < MaxSkills then |matched| else MaxSkills) &&
      forall i :: 0 <= i < |r| ==> r[i] == Title(matched[i])
  {
    var d := Take(TitleAll(matched), MaxSkills);
    if d == [] then DefaultSkills else d
  }

  /** The prediction the heuristic makes with the table `cats` for the
      lower-cased text `textLower`. */
  function Pick(cats: seq<Category>, textLower: string): Prediction {
    var s := Scores(cats, textLower);
    var k := FirstMax(s);
    if k < 0 then Prediction(General, Conf100(0), SkillsDisplay([]))
    else Prediction(cats[k].name, Conf100(s[k]), SkillsDisplay(Matched(cats[k].keywords, textLower)))
  }

  /** The confidence of a pick is that of the best score. */
  lemma PickConfidence(cats: seq<Category>, textLower: string)
    ensures Pick(cats, textLower).conf100 == Conf100(BestScore(Scores(cats, textLower)))
  {
  }

  /** What the heuristic branch of `predict_category` returns for `text`. */
  function Classify(text: string): Prediction {
    Pick(Categories, Lower(text))
  }

  /** The inner loop of `predict_category`: score one category's keywords. */
  method ScoreKeywords(keywords: seq<string>, textLower: string) returns (score: nat, matched: seq<string>)
    ensures matched == Matched(keywords, textLower)
    ensures score == |matched|
  {
    score, matched := 0, [];
    var j := 0;
    while j < |keywords|
      invariant 0 <= j <= |keywords|
      invariant matched == Matched(keywords[..j], textLower)
      invariant score == |matched|
    {
      var kw := keywords[j];
      assert keywords[..j + 1] == keywords[..j] + [kw];
      MatchedSnoc(keywords[..j], kw, textLower);
      if Occurs(kw, textLower) {
        score := score + 1;
        matched := matched + [kw];
      }
      j := j + 1;
    }
    assert keywords[..j] == keywords;
  }

  /** The outer loop of `predict_category` over the table `cats`: keep the
      first category with the strictly highest score, then derive the
      confidence and the displayed skills. */
  method ScanCategories(cats: seq<Category>, textLower: string) returns (r: Prediction)
    ensures r == Pick(cats, textLower)
  {
    ghost var s := Scores(cats, textLower);
    var bestCategory := General;
    var bestScore := 0;
    var bestSkills: seq<string> := [];
    var i := 0;
    while i < |cats|
      invariant 0 <= i <= |cats|
      invariant var k := FirstMax(s[..i]);
        && bestScore == (if k < 0 then 0 else s[k])
        && bestCategory == (if k < 0 then General else cats[k].name)
        && bestSkills == (if k < 0 then [] else Matched(cats[k].keywords, textLower))
    {
      var score, matched := ScoreKeywords(cats[i].keywords, textLower);
      FirstMaxStep(s, i);
      if score > bestScore {
        bestScore := score;
        bestCategory := cats[i].name;
        bestSkills := matched;
      }
      i := i + 1;
    }
    assert s[..i] == s;
    r := Prediction(bestCategory, Conf100(bestScore), SkillsDisplay(bestSkills));
  }

  /** The heuristic branch of `predict_category` on `CATEGORIES`. */
  method PredictCategory(text: string) returns (r: Prediction)
    ensures r == Classify(text)
  {
    var textLower := Lower(text);
    r := ScanCategories(Categories, textLower);
  }

  /** The chosen category is the earliest one with the maximal positive score;
      "General" with confidence 0.50 and the default skills when nothing
      matched.  Otherwise the skills are the winner's matched keywords,
      title-cased and cut to ten. */
  lemma ClassifySpec(text: string)
    ensures var p, s, k := Classify(text), Scores(Categories, Lower(text)), FirstMax(Scores(Categories, Lower(text)));
      && (k == -1 <==> forall j :: 0 <= j < |s| ==> s[j] == 0)
      && (k == -1 ==> p == Prediction(General, 50, DefaultSkills))
      && (k >= 0 ==>
            && p.category == Categories[k].name
            && s[k] > 0
            && (forall j :: 0 <= j < |s| ==> s[j] <= s[k])
            && (forall j :: 0 <= j < k ==> s[j] < s[k])
            && p.conf100 == Conf100(s[k])
            && p.skills == SkillsDisplay(Matched(Categories[k].keywords, Lower(text))))
  {
    FirstMaxSpec(Scores(Categories, Lower(text)));
  }

  /** The heuristic confidence lies in [0.50, 0.95] and is 0.50 exactly when
      the category is "General"; there are always one to ten skills, and the
      default pair when the category is "General". */
  lemma ClassifyBounds(text: string)
    ensures var p := Classify(text);
      && 50 <= p.conf100 <= 95
      && 1 <= |p.skills| <= MaxSkills
      && (p.category == General <==> p.conf100 == 50)
      && (p.category == General ==> p.skills == DefaultSkills)
  {
    var s := Scores(Categories, Lower(text));
    FirstMaxSpec(s);
    var k := FirstMax(s);
    if k >= 0 {
      assert Categories[k].name != General;
    }
  }

  /** All keywords of the table, in table order, with repeats. */
  function Flatten(cats: seq<Category>): seq<string> {
    if cats == [] then [] else Flatten(cats[..|cats| - 1]) + cats[|cats| - 1].keywords
  }

  /** The keywords a scan of the table `cats` in the manner of
      `extract_skills` collects from `textLower`: every keyword of every
      category that occurs, once, in first-occurrence order across the table. */
  function ExtractedKeywords(cats: seq<Category>, textLower: string): seq<string> {
    Dedup(Matched(Flatten(cats), textLower))
  }

  /** The extracted keywords are distinct, are exactly the table's keywords
      that occur in the text, and follow their first appearance in the table. */
  lemma ExtractedKeywordsSpec(cats: seq<Category>, textLower: string)
    ensures var e := ExtractedKeywords(cats, textLower);
      && NoDup(e)
      && (forall kw :: kw in e <==> (exists k :: 0 <= k < |cats| && kw in cats[k].keywords) && Occurs(kw, textLower))
      && InOrderOf(e, Flatten(cats))
  {
    var m := Matched(Flatten(cats), textLower);
    DedupSpec(m);
    MatchedMembers(Flatten(cats), textLower);
    FlattenMembers(cats);
    var e := ExtractedKeywords(cats, textLower);
    forall i, j | 0 <= i < j < |e|
      ensures e[i] in Flatten(cats) && e[j] in Flatten(cats)
      ensures IndexOf(Flatten(cats), e[i]) < IndexOf(Flatten(cats), e[j])
    {
      assert InOrderOf(e, m);
      MatchedIndexOrder(Flatten(cats), textLower, e[i], e[j]);
    }
  }

  lemma {:induction false} FlattenMembers(cats: seq<Category>)
    ensures forall kw :: kw in Flatten(cats) <==> exists k :: 0 <= k < |cats| && kw in cats[k].keywords
  {
    if cats != [] {
      var p := cats[..|cats| - 1];
      FlattenMembers(p);
      assert forall k :: 0 <= k < |p| ==> p[k] == cats[k];
    }
  }

  /** Keyword order in the matched list agrees with keyword order in the
      keyword list. */
  lemma {:induction false} MatchedIndexOrder(kws: seq<string>, t: string, x: string, y: string)
    requires x in Matched(kws, t) && y in Matched(kws, t)
    requires IndexOf(Matched(kws, t), x) < IndexOf(Matched(kws, t), y)
    ensures x in kws && y in kws && IndexOf(kws, x) < IndexOf(kws, y)
  {
    var p, kw := kws[..|kws| - 1], kws[|kws| - 1];
    assert kws == p + [kw];
    var mp := Matched(p, t);
    var m := Matched(kws, t);
    assert m == mp + (if Occurs(kw, t) then [kw] else []);
    if x in mp && y in mp {
      if !Occurs(kw, t) {
        assert m == mp;
      } else {
        IndexOfSnocEarlier(mp, kw, x);
        IndexOfSnocEarlier(mp, kw, y);
      }
      MatchedIndexOrder(p, t, x, y);
      IndexOfSnocEarlier(p, kw, x);
      IndexOfSnocEarlier(p, kw, y);
    } else if y in mp {
      IndexOfSnocNew(mp, kw);
      IndexOfSnocEarlier(mp, kw, y);
    } else if x in mp {
      assert y == kw && Occurs(kw, t);
      MatchedMembers(p, t);
      assert kw !in p;
      IndexOfSnocEarlier(p, kw, x);
      IndexOfSnocNew(p, kw);
    }
  }

  /** The inner loop of `extract_skills`: append each keyword of one
      category that occurs and is not yet in the list.  `done` stands for the
      keywords already scanned. */
  method AddNewMatches(matched0: seq<string>, keywords: seq<string>, textLower: string, ghost done: seq<string>)
    returns (matched: seq<string>)
    requires matched0 == Dedup(Matched(done, textLower))
    ensures matched == Dedup(Matched(done + keywords, textLower))
  {
    matched := matched0;
    var j := 0;
    assert done + keywords[..0] == done;
    while j < |keywords|
      invariant 0 <= j <= |keywords|
      invariant matched == Dedup(Matched(done + keywords[..j], textLower))
    {
      ExtractStep(done, keywords, j, textLower);
      var kw := keywords[j];
      if Occurs(kw, textLower) && kw !in matched {
        matched := matched + [kw];
      }
      j := j + 1;
    }
    assert keywords[..j] == keywords;
  }

  /** The outer loop of `extract_skills` over the table `cats`. */
  method CollectKeywords(cats: seq<Category>, textLower: string) returns (matched: seq<string>)
    ensures matched == ExtractedKeywords(cats, textLower)
  {
    matched := [];
    var i := 0;
    while i < |cats|
      invariant 0 <= i <= |cats|
      invariant matched == Dedup(Matched(Flatten(cats[..i]), textLower))
    {
      matched := AddNewMatches(matched, cats[i].keywords, textLower, Flatten(cats[..i]));
      assert cats[..i + 1][..i] == cats[..i];
      i := i + 1;
    }
    assert cats[..i] == cats;
  }

  /** `extract_skills`: collect every matched keyword of `CATEGORIES` once,
      then title-case, cut to ten, and fall back to the default pair. */
  method ExtractSkills(text: string) returns (skills: seq<string>)
    ensures skills == SkillsDisplay(ExtractedKeywords(Categories, Lower(text)))
  {
    var matched := CollectKeywords(Categories, Lower(text));
    skills := SkillsDisplay(matched);
  }

  /** One step of the inner loop of `extract_skills`: scanning the next
      keyword of a category appends it exactly when it occurs and is new. */
  lemma ExtractStep(done: seq<string>, keywords: seq<string>, j: nat, t: string)
    requires j < |keywords|
    ensures var d, kw := Dedup(Matched(done + keywords[..j], t)), keywords[j];
      Dedup(Matched(done + keywords[..j + 1], t)) == if Occurs(kw, t) && kw !in d then d + [kw] else d
  {
    var scanned, kw := done + keywords[..j], keywords[j];
    assert done + keywords[..j + 1] == scanned + [kw];
    MatchedSnoc(scanned, kw, t);
    var m := Matched(scanned, t);
    if Occurs(kw, t) {
      DedupSnoc(m, kw);
    } else {
      assert m + [] == m;
    }
  }

  lemma DedupSnoc(s: seq<string>, x: string)
    ensures Dedup(s + [x]) == if x in Dedup(s) then Dedup(s) else Dedup(s) + [x]
  {
    assert (s + [x])[..|s|] == s;
  }

  /** Extraction falls back to the default pair exactly when no keyword of
      the table occurs in the text. */
  lemma ExtractSkillsFallback(cats: seq<Category>, textLower: string)
    ensures var e := ExtractedKeywords(cats, textLower);
      && (e == [] <==> forall k, kw :: 0 <= k < |cats| && kw in cats[k].keywords ==> !Occurs(kw, textLower))
      && (e == [] ==> SkillsDisplay(e) == DefaultSkills)
  {
    ExtractedKeywordsSpec(cats, textLower);
    var e := ExtractedKeywords(cats, textLower);
    if e != [] {
      assert e[0] in e;
      var k :| 0 <= k < |cats| && e[0] in cats[k].keywords;
      assert Occurs(e[0], textLower);
    }
  }

  /** Title-casing distinct lower-case keywords and cutting to ten keeps them
      distinct; the default pair is distinct too. */
  lemma {:induction false} SkillsDisplayDistinct(m: seq<string>)
    requires NoDup(m)
    requires forall kw :: kw in m ==> NoUpper(kw)
    ensures NoDup(SkillsDisplay(m))
  {
    var t := TitleAll(m);
    forall i, j | 0 <= i < j < |t| ensures t[i] != t[j] {
      if t[i] == t[j] {
        TitleInjective(m[i], m[j]);
      }
    }
    var r := SkillsDisplay(m);
    if m == [] {
      assert r == DefaultSkills;
    } else {
      assert r == t[..|r|];
    }
  }

  /** `extract_skills` returns no skill twice. */
  lemma ExtractSkillsDistinct(text: string)
    ensures NoDup(SkillsDisplay(ExtractedKeywords(Categories, Lower(text))))
  {
    var e := ExtractedKeywords(Categories, Lower(text));
    ExtractedKeywordsSpec(Categories, Lower(text));
    CategoryKeywordsLower();
    SkillsDisplayDistinct(e);
  }
}
