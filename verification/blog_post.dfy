/**
  * A blog article page: looking the article up by its URL slug, and turning
  * its text into page elements line by line with a small prefix-driven
  * markup (headings, bullets, bold lines, rules, numbered items, paragraphs).
  * The article bodies are not copied here; the rendering is stated for every
  * text.
  */
module BlogPost {
  import opened Text

  /** The header fields of an article. */
  datatype PostMeta = PostMeta(title: string, author: string, date: string, readTime: string, category: string)

  /** The five articles of `blogContent`. */
  datatype Article = TimetableGuide | AiVsTraditional | ScienceBackedTechniques | CompetitiveExamTime | PomodoroGuide

  const Slugs: set<string> := {
    "how-to-create-perfect-study-timetable", "ai-vs-traditional-study-planning",
    "10-science-backed-study-techniques", "managing-study-time-competitive-exams",
    "pomodoro-technique-complete-guide" }

  /** The article stored under a slug of `blogContent`, if any. */
  function ArticleFor(slug: string): (a: Option<Article>)
    ensures a.Some? <==> slug in Slugs
  {
    if slug == "how-to-create-perfect-study-timetable" then Some(TimetableGuide)
    else if slug == "ai-vs-traditional-study-planning" then Some(AiVsTraditional)
    else if slug == "10-science-backed-study-techniques" then Some(ScienceBackedTechniques)
    else if slug == "managing-study-time-competitive-exams" then Some(CompetitiveExamTime)
    else if slug == "pomodoro-technique-complete-guide" then Some(PomodoroGuide)
    else None
  }

  /** The header fields of each article. */
  function MetaOf(a: Article): PostMeta {
    match a
    case TimetableGuide =>
      PostMeta("How to Create the Perfect Study Timetable for Exams", "Task2Top Team", "February 1, 2026", "8 min read", "Study Tips")
    case AiVsTraditional =>
      PostMeta("AI vs Traditional Study Planning: Which Works Better?", "Task2Top Team", "January 28, 2026", "6 min read", "AI & Learning")
    case ScienceBackedTechniques =>
      PostMeta("10 Science-Backed Study Techniques for Better Retention", "Task2Top Team", "January 24, 2026", "10 min read", "Study Techniques")
    case CompetitiveExamTime =>
      PostMeta("Managing Study Time for Competitive Exams (JEE/NEET/UPSC)", "Task2Top Team", "January 20, 2026", "12 min read", "Competitive Exams")
    case PomodoroGuide =>
      PostMeta("The Pomodoro Technique: A Complete Guide for Students", "Task2Top Team", "January 15, 2026", "7 min read", "Productivity")
  }

  /** `slug ? blogContent[slug] : null`; None shows "Post not found". */
  function LookupPost(slug: Option<string>): (post: Option<PostMeta>)
    ensures post.Some? <==> slug.Some? && slug.value in Slugs
    ensures post.Some? ==> post.value.author == "Task2Top Team"
  {
    match slug
    case None => None
    case Some(s) =>
      if s == "" then None
      else match ArticleFor(s)
        case None => None
        case Some(a) => Some(MetaOf(a))
  }

  /** A missing, empty or unknown slug shows "Post not found"; each of the five slugs shows its article. */
  lemma SlugLookup(slug: Option<string>)
    ensures LookupPost(slug).Some? <==> slug.Some? && slug.value in Slugs
  {
  }

  /** The Pomodoro guide's slug shows the Pomodoro guide. */
  lemma PomodoroGuideFound(slug: string)
    requires slug == "pomodoro-technique-complete-guide"
    ensures LookupPost(Some(slug)).value.title == "The Pomodoro Technique: A Complete Guide for Students"
  {
    assert ArticleFor(slug) == Some(PomodoroGuide);
  }

  // ---------------------------------------------------------------------------
  // Line-by-line markup

  datatype Block =
    | Heading2(text: string)
    | Heading3(text: string)
    | Bullet(text: string)
    | BoldLine(text: string)
    | LineBreak
    | Rule
    | NumberedItem(text: string)
    | Paragraph(text: string)

  predicate StartsWith(s: string, prefix: string) {
    |prefix| <= |s| && s[..|prefix|] == prefix
  }

  predicate EndsWith(s: string, suffix: string) {
    |suffix| <= |s| && s[|s| - |suffix|..] == suffix
  }

  /** The characters JavaScript's `trim` and `\s` treat as white space or line terminators. */
  predicate IsJsWhitespace(c: char) {
    c == ' ' || c == '\t' || c == '\n' || c == '\r' || c == '\U{000B}' || c == '\U{000C}' ||
    c == '\U{00A0}' || c == '\U{1680}' || '\U{2000}' <= c <= '\U{200A}' || c == '\U{2028}' || c == '\U{2029}' ||
    c == '\U{202F}' || c == '\U{205F}' || c == '\U{3000}' || c == '\U{FEFF}'
  }

  /** `line.trim() === ''`. */
  predicate TrimsToEmpty(line: string) {
    forall i :: 0 <= i < |line| ==> IsJsWhitespace(line[i])
  }

  /** The text with every '*' dropped. */
  function NonStars(s: string): (r: string)
    ensures |r| <= |s|
    ensures forall i :: 0 <= i < |r| ==> r[i] != '*'
  {
    if s == [] then [] else (if s[0] == '*' then [] else [s[0]]) + NonStars(s[1..])
  }

  /** `replace(/\*\*\/g, '')`: every non-overlapping "**", from the left, removed. */
  function RemoveDoubleStars(s: string): (r: string)
    ensures |r| <= |s|
    ensures forall i :: 0 <= i < |r| - 1 ==> !(r[i] == '*' && r[i + 1] == '*')
    ensures s != [] && s[0] != '*' ==> r != [] && r[0] == s[0]
    ensures NonStars(r) == NonStars(s)
  {
    if |s| >= 2 && s[0] == '*' && s[1] == '*' then
      assert s[1..][1..] == s[2..];
      RemoveDoubleStars(s[2..])
    else if s == [] then []
    else
      var r := [s[0]] + RemoveDoubleStars(s[1..]);
      assert r[1..] == RemoveDoubleStars(s[1..]);
      r
  }

  /** The length of the run of ASCII digits that starts the text (`\d+`). */
  function DigitRun(s: string): (n: nat)
    ensures n <= |s| && AllDigits(s[..n])
    ensures n < |s| ==> !IsDigit(s[n])
  {
    if s != [] && IsDigit(s[0]) then
      var n := 1 + DigitRun(s[1..]);
      assert s[..n] == [s[0]] + s[1..][..n - 1];
      n
    else 0
  }

  /** The length of the leading white space of the text (`\s*`). */
  function WhitespaceRun(s: string): (n: nat)
    ensures n <= |s| && TrimsToEmpty(s[..n])
    ensures n < |s| ==> !IsJsWhitespace(s[n])
  {
    if s != [] && IsJsWhitespace(s[0]) then
      var n := 1 + WhitespaceRun(s[1..]);
      assert s[..n] == [s[0]] + s[1..][..n - 1];
      n
    else 0
  }

  /** The text after its leading white space. */
  function SkipWhitespace(s: string): string {
    s[WhitespaceRun(s)..]
  }

  /** `line.match(/^\d+\./)`. */
  predicate StartsNumbered(line: string) {
    var n := DigitRun(line);
    n >= 1 && n < |line| && line[n] == '.'
  }

  /** The element one line of the article becomes: the first rule of the chain that applies. */
  function ClassifyLine(line: string): (b: Block)
    ensures b.Heading2? ==> line == "## " + b.text
    ensures b.Heading3? ==> line == "### " + b.text
    ensures b.Bullet? ==> line == "- " + b.text
    ensures b.BoldLine? ==> StartsWith(line, "**") && EndsWith(line, "**") && |b.text| <= |line|
    ensures b.LineBreak? ==> TrimsToEmpty(line)
    ensures b.Rule? ==> StartsWith(line, "---")
    ensures b.NumberedItem? ==> StartsNumbered(line) && |b.text| < |line|
    ensures b.Paragraph? ==> b.text == line && !TrimsToEmpty(line)
  {
    if StartsWith(line, "## ") then Heading2(line[3..])
    else if StartsWith(line, "### ") then Heading3(line[4..])
    else if StartsWith(line, "- ") then Bullet(line[2..])
    else if StartsWith(line, "**") && EndsWith(line, "**") then BoldLine(RemoveDoubleStars(line))
    else if TrimsToEmpty(line) then LineBreak
    else if StartsWith(line, "---") then Rule
    else if StartsNumbered(line) then NumberedItem(SkipWhitespace(line[DigitRun(line) + 1..]))
    else Paragraph(line)
  }

  function ClassifyAll(lines: seq<string>): (blocks: seq<Block>)
    ensures |blocks| == |lines|
    ensures forall i :: 0 <= i < |lines| ==> blocks[i] == ClassifyLine(lines[i])
  {
    if lines == [] then [] else [ClassifyLine(lines[0])] + ClassifyAll(lines[1..])
  }

  /** `content.split('\n').map(...)`: one element per line, so one more than the number of newlines. */
  function RenderContent(content: string): (blocks: seq<Block>)
    ensures |blocks| == Count(content, '\n') + 1
  {
    ClassifyAll(Split(content, '\n'))
  }

  /** A "## " line is a level-2 heading without its marker. */
  lemma Heading2Rule(line: string)
    requires StartsWith(line, "## ")
    ensures ClassifyLine(line) == Heading2(line[3..])
  {
  }

  /** A "### " line is a level-3 heading, never a level-2 one. */
  lemma Heading3Rule(line: string)
    requires StartsWith(line, "### ")
    ensures ClassifyLine(line) == Heading3(line[4..])
  {
    assert line[2] == '#';
  }

  /** A "- " line is a bullet; a "---" line is never one, it is a rule. */
  lemma BulletAndRule(line: string)
    ensures StartsWith(line, "- ") ==> ClassifyLine(line) == Bullet(line[2..])
    ensures StartsWith(line, "---") ==> ClassifyLine(line) == Rule
  {
    if StartsWith(line, "- ") {
      assert line[0] == '-';
    }
    if StartsWith(line, "---") {
      assert line[0] == '-' && line[1] == '-';
      assert !TrimsToEmpty(line) by {
        assert !IsJsWhitespace(line[0]);
      }
    }
  }

  /** A line that starts and ends with "**" (outside the rules above) is bold text with no "**" left in it. */
  lemma BoldRule(line: string)
    requires StartsWith(line, "**") && EndsWith(line, "**")
    ensures ClassifyLine(line).BoldLine?
    ensures var t := ClassifyLine(line).text;
            forall i :: 0 <= i < |t| - 1 ==> !(t[i] == '*' && t[i + 1] == '*')
    ensures NonStars(ClassifyLine(line).text) == NonStars(line)
  {
    assert line[0] == '*';
  }

  /** A line of white space only, the empty line included, is a line break. */
  lemma BlankLineRule(line: string)
    requires TrimsToEmpty(line)
    ensures ClassifyLine(line) == LineBreak
  {
    if line != [] {
      assert IsJsWhitespace(line[0]);
      assert line[0] != '#' && line[0] != '-' && line[0] != '*';
      assert !StartsWith(line, "## ") && !StartsWith(line, "### ") && !StartsWith(line, "- ") && !StartsWith(line, "**");
    }
  }

  /** Digits, a dot and the rest make a numbered item holding the rest without its leading white space. */
  lemma NumberedRule(digits: string, rest: string)
    requires |digits| >= 1 && AllDigits(digits)
    ensures ClassifyLine(digits + "." + rest) == NumberedItem(rest[WhitespaceRun(rest)..])
  {
    var line := digits + "." + rest;
    assert line == digits + ("." + rest);
    DigitRunOfDigits(digits, "." + rest);
    assert line[|digits|] == '.';
    assert StartsNumbered(line);
    assert line[|digits| + 1..] == rest;
    var c := line[0];
    assert IsDigit(c);
    assert !StartsWith(line, "## ") && !StartsWith(line, "### ") && !StartsWith(line, "- ") by {
      assert c != '#' && c != '-';
    }
    assert !StartsWith(line, "**") && !StartsWith(line, "---") by {
      assert c != '*' && c != '-';
    }
    assert !TrimsToEmpty(line) by {
      assert !IsJsWhitespace(c);
    }
  }

  lemma {:induction false} DigitRunOfDigits(digits: string, rest: string)
    requires AllDigits(digits) && (rest == [] || !IsDigit(rest[0]))
    ensures DigitRun(digits + rest) == |digits|
    decreases |digits|
  {
    if digits == [] {
      assert digits + rest == rest;
    } else {
      assert (digits + rest)[1..] == digits[1..] + rest;
      DigitRunOfDigits(digits[1..], rest);
    }
  }

  /** A line that starts with a letter is a plain paragraph holding the whole line. */
  lemma LetterLineIsParagraph(line: string)
    requires line != [] && ('a' <= line[0] <= 'z' || 'A' <= line[0] <= 'Z')
    ensures ClassifyLine(line) == Paragraph(line)
  {
    assert !TrimsToEmpty(line) by {
      assert !IsJsWhitespace(line[0]);
    }
  }

  /** The chain decides in order: a heading marker wins over bold text and over a numbered item. */
  lemma HeadingWinsOverBold()
    ensures ClassifyLine("## **Tip**") == Heading2("**Tip**")
    ensures ClassifyLine("- 1. step") == Bullet("1. step")
  {
    assert StartsWith("- 1. step", "- ");
    BulletAndRule("- 1. step");
  }
}
