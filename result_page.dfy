/** The result view of src/pages/Result.tsx: it reads the stored analysis on
    mount, redirects to the upload page when there is none, and otherwise
    derives the percentage, the three-tier label and colour, and the tip
    sentence from it.  Confidences are exact reals (see README). */
module ResultPage {
  import opened Wire
  import opened Seqs
  import opened Text

  /** The session-storage key the analysis is stored under. */
  const StorageKey: string := "analysisResult"
  const UploadPath: string := "/upload"

  /** What the view renders from one analysis. */
  datatype Screen = Screen(
    category: string,
    percentage: int,
    level: string,
    color: string,
    skills: seq<string>,
    tipSkills: string,
    progress: int)

  /** The outcome of mounting the view: a redirect that renders nothing, or
      the rendered analysis. */
  datatype View = RedirectTo(path: string) | Show(screen: Screen)

  /** `Math.round(confidence * 100)`: the nearest integer, halves rounded up. */
  function Percentage(c: real): (p: int)
    ensures p as real <= c * 100.0 + 0.5 < p as real + 1.0
  {
    (c * 100.0 + 0.5).Floor
  }

  /** `getConfidenceLevel`. */
  function ConfidenceLevel(c: real): (l: string)
    ensures l == "High" <==> c >= 0.8
    ensures l == "Medium" <==> 0.6 <= c < 0.8
    ensures l == "Low" <==> c < 0.6
  {
    if c >= 0.8 then "High" else if c >= 0.6 then "Medium" else "Low"
  }

  /** The colour class that belongs to each label tier. */
  function LevelColor(level: string): string {
    if level == "High" then "text-green-400"
    else if level == "Medium" then "text-yellow-400"
    else "text-orange-400"
  }

  /** `getConfidenceColor`: its thresholds are written separately from the
      label's, and it always picks the colour of the label's tier. */
  function ConfidenceColor(c: real): (col: string)
    ensures col == LevelColor(ConfidenceLevel(c))
  {
    if c >= 0.8 then "text-green-400" else if c >= 0.6 then "text-yellow-400" else "text-orange-400"
  }

  /** `skills.slice(0, 2).join(" and ")` of the advancement tip. */
  function TipSkills(skills: seq<string>): (t: string)
    ensures skills == [] ==> t == []
    ensures |skills| == 1 ==> t == skills[0]
    ensures |skills| >= 2 ==> t == skills[0] + " and " + skills[1]
  {
    Join(Take(skills, 2), " and ")
  }

  /** The rendered page for a stored analysis. */
  function Render(r: AnalysisResult): (s: Screen)
    ensures s.category == r.category && s.skills == r.skills && s.tipSkills == TipSkills(r.skills)
    ensures s.progress == s.percentage == Percentage(r.confidence)
    ensures s.level == ConfidenceLevel(r.confidence) && s.color == LevelColor(s.level)
  {
    var pct := Percentage(r.confidence);
    Screen(r.category, pct, ConfidenceLevel(r.confidence), ConfidenceColor(r.confidence),
           r.skills, TipSkills(r.skills), pct)
  }

  /** The mount effect: show the stored analysis, or redirect to the upload
      page when nothing is stored.  The storage is only read. */
  function OnMount(session: map<string, AnalysisResult>): (v: View)
    ensures v.RedirectTo? <==> StorageKey !in session
    ensures v.RedirectTo? ==> v.path == UploadPath
    ensures v.Show? ==> v.screen == Render(session[StorageKey])
  {
    if StorageKey in session then Show(Render(session[StorageKey])) else RedirectTo(UploadPath)
  }

  /** For a confidence given in hundredths, as the backend sends it, the
      percentage is those hundredths and the tiers are 80 and 60. */
  lemma HundredthsView(k: int)
    ensures Percentage(k as real / 100.0) == k
    ensures ConfidenceLevel(k as real / 100.0) == (if k >= 80 then "High" else if k >= 60 then "Medium" else "Low")
  {
    var c := k as real / 100.0;
    assert c * 100.0 == k as real;
    assert (k as real + 0.5).Floor == k;
  }
}
