/**
  * The subject catalogue: the class levels a student can pick, the streams of
  * classes 11 and 12, the subject list of every catalogue key, and the lookup
  * that picks the subject list for a class level and stream.
  *
  * Each list is written element by element (`LevelAt`, `PrimaryAt`, ...)
  * and the list is the sequence of those elements, so that a proof about
  * one entry does not carry the text of every list.
  */
module PlannerData {
  import opened Text

  datatype ClassLevel = ClassLevel(value: string, display: string, category: string)

  datatype Stream = Stream(value: string, display: string)

  datatype Subject = Subject(name: string, color: string)

  /** `classLevels[i]`: the nineteen levels in their listed order. */
  function LevelAt(i: int): (level: ClassLevel)
    requires 0 <= i < 19
    ensures ValueSlot(level.value) == i
  {
    if i == 0 then ClassLevel("class-1", "Class 1", "primary")
    else if i == 1 then ClassLevel("class-2", "Class 2", "primary")
    else if i == 2 then ClassLevel("class-3", "Class 3", "primary")
    else if i == 3 then ClassLevel("class-4", "Class 4", "primary")
    else if i == 4 then ClassLevel("class-5", "Class 5", "primary")
    else if i == 5 then ClassLevel("class-6", "Class 6", "middle")
    else if i == 6 then ClassLevel("class-7", "Class 7", "middle")
    else if i == 7 then ClassLevel("class-8", "Class 8", "middle")
    else if i == 8 then ClassLevel("class-9", "Class 9", "secondary")
    else if i == 9 then ClassLevel("class-10", "Class 10", "secondary")
    else if i == 10 then ClassLevel("class-11", "Class 11", "higher-secondary")
    else if i == 11 then ClassLevel("class-12", "Class 12", "higher-secondary")
    else if i == 12 then ClassLevel("jee", "JEE (Engineering)", "competitive")
    else if i == 13 then ClassLevel("neet", "NEET (Medical)", "competitive")
    else if i == 14 then ClassLevel("upsc", "UPSC", "competitive")
    else if i == 15 then ClassLevel("cat", "CAT (MBA)", "competitive")
    else if i == 16 then ClassLevel("gate", "GATE", "competitive")
    else if i == 17 then ClassLevel("undergraduate", "Undergraduate", "college")
    else ClassLevel("postgraduate", "Postgraduate", "college")
  }

  /** `classLevels`. */
  function ClassLevels(): (r: seq<ClassLevel>)
    ensures |r| == 19
    ensures forall i :: 0 <= i < |r| ==> r[i] == LevelAt(i)
    ensures UniqueValues(r)
  {
    var r := seq(19, LevelAt);
    SlotsMakeUnique(r);
    r
  }

  /**
    * A position computed from a class value's length and last character.
    * It gives back the index of every listed value, which shows that no two
    * listed levels share a value.
    */
  function ValueSlot(v: string): int {
    if v == [] then -1
    else
      var n, c := |v|, v[|v| - 1];
      if n == 7 then c as int - '1' as int
      else if n == 8 then 9 + (c as int - '0' as int)
      else if n == 3 then (if c == 'e' then 12 else 15)
      else if n == 4 then (if c == 't' then 13 else if c == 'c' then 14 else 16)
      else if n == 13 then 17
      else 18
  }

  lemma SlotsMakeUnique(levels: seq<ClassLevel>)
    requires forall i :: 0 <= i < |levels| ==> ValueSlot(levels[i].value) == i
    ensures UniqueValues(levels)
  {
  }

  function Streams(): seq<Stream> {
    [
      Stream("science-pcm", "Science (PCM)"),
      Stream("science-pcb", "Science (PCB)"),
      Stream("commerce", "Commerce"),
      Stream("arts", "Arts/Humanities")
    ]
  }

  /** `subjectsByLevel.primary[i]`. */
  function PrimaryAt(i: int): Subject
    requires 0 <= i < 4
  {
    if i == 0 then Subject("Mathematics", "#3B82F6")
    else if i == 1 then Subject("English", "#10B981")
    else if i == 2 then Subject("Hindi", "#F59E0B")
    else Subject("EVS (Environmental Studies)", "#8B5CF6")
  }

  /** `subjectsByLevel.primary`: distinct subject names. */
  function PrimarySubjects(): (r: seq<Subject>)
    ensures |r| == 4
    ensures UniqueNames(r)
  {
    var r := seq(4, PrimaryAt);
    assert r == [PrimaryAt(0), PrimaryAt(1), PrimaryAt(2), PrimaryAt(3)];
    r
  }

  /** `subjectsByLevel.middle[i]`. */
  function MiddleAt(i: int): Subject
    requires 0 <= i < 8
  {
    if i == 0 then Subject("Mathematics", "#3B82F6")
    else if i == 1 then Subject("Science", "#8B5CF6")
    else if i == 2 then Subject("English", "#10B981")
    else if i == 3 then Subject("Hindi", "#F59E0B")
    else if i == 4 then Subject("Social Science - History", "#EF4444")
    else if i == 5 then Subject("Social Science - Geography", "#14B8A6")
    else if i == 6 then Subject("Social Science - Civics", "#6366F1")
    else Subject("Sanskrit", "#EC4899")
  }

  /** `subjectsByLevel.middle`: distinct subject names. */
  function MiddleSubjects(): (r: seq<Subject>)
    ensures |r| == 8
    ensures UniqueNames(r)
  {
    var r := seq(8, MiddleAt);
    assert r == [MiddleAt(0), MiddleAt(1), MiddleAt(2), MiddleAt(3), MiddleAt(4), MiddleAt(5), MiddleAt(6), MiddleAt(7)];
    r
  }

  /** `subjectsByLevel.secondary[i]`. */
  function SecondaryAt(i: int): Subject
    requires 0 <= i < 10
  {
    if i == 0 then Subject("Mathematics", "#3B82F6")
    else if i == 1 then Subject("Science", "#8B5CF6")
    else if i == 2 then Subject("English Language & Literature", "#10B981")
    else if i == 3 then Subject("Hindi Course A/B", "#F59E0B")
    else if i == 4 then Subject("Social Science - History", "#EF4444")
    else if i == 5 then Subject("Social Science - Geography", "#14B8A6")
    else if i == 6 then Subject("Social Science - Political Science", "#6366F1")
    else if i == 7 then Subject("Social Science - Economics", "#EC4899")
    else if i == 8 then Subject("Sanskrit", "#84CC16")
    else Subject("Information Technology", "#0EA5E9")
  }

  /** `subjectsByLevel.secondary`: distinct subject names. */
  function SecondarySubjects(): (r: seq<Subject>)
    ensures |r| == 10
    ensures UniqueNames(r)
  {
    var r := seq(10, SecondaryAt);
    assert r == [SecondaryAt(0), SecondaryAt(1), SecondaryAt(2), SecondaryAt(3), SecondaryAt(4), SecondaryAt(5), SecondaryAt(6), SecondaryAt(7), SecondaryAt(8), SecondaryAt(9)];
    assert SecondaryAt(5).name[17] != SecondaryAt(7).name[17];
    r
  }

  /** `subjectsByLevel["science-pcm"][i]`. */
  function SciencePcmAt(i: int): Subject
    requires 0 <= i < 6
  {
    if i == 0 then Subject("Physics", "#3B82F6")
    else if i == 1 then Subject("Chemistry", "#8B5CF6")
    else if i == 2 then Subject("Mathematics", "#10B981")
    else if i == 3 then Subject("English Core", "#F59E0B")
    else if i == 4 then Subject("Computer Science / IP", "#14B8A6")
    else Subject("Physical Education", "#EF4444")
  }

  /** `subjectsByLevel["science-pcm"]`: distinct subject names. */
  function SciencePcmSubjects(): (r: seq<Subject>)
    ensures |r| == 6
    ensures UniqueNames(r)
  {
    var r := seq(6, SciencePcmAt);
    assert r == [SciencePcmAt(0), SciencePcmAt(1), SciencePcmAt(2), SciencePcmAt(3), SciencePcmAt(4), SciencePcmAt(5)];
    r
  }

  /** `subjectsByLevel["science-pcb"][i]`. */
  function SciencePcbAt(i: int): Subject
    requires 0 <= i < 6
  {
    if i == 0 then Subject("Physics", "#3B82F6")
    else if i == 1 then Subject("Chemistry", "#8B5CF6")
    else if i == 2 then Subject("Biology", "#10B981")
    else if i == 3 then Subject("English Core", "#F59E0B")
    else if i == 4 then Subject("Psychology", "#14B8A6")
    else Subject("Physical Education", "#EF4444")
  }

  /** `subjectsByLevel["science-pcb"]`: distinct subject names. */
  function SciencePcbSubjects(): (r: seq<Subject>)
    ensures |r| == 6
    ensures UniqueNames(r)
  {
    var r := seq(6, SciencePcbAt);
    assert r == [SciencePcbAt(0), SciencePcbAt(1), SciencePcbAt(2), SciencePcbAt(3), SciencePcbAt(4), SciencePcbAt(5)];
    r
  }

  /** `subjectsByLevel.commerce[i]`. */
  function CommerceAt(i: int): Subject
    requires 0 <= i < 7
  {
    if i == 0 then Subject("Accountancy", "#3B82F6")
    else if i == 1 then Subject("Business Studies", "#8B5CF6")
    else if i == 2 then Subject("Economics", "#10B981")
    else if i == 3 then Subject("English Core", "#F59E0B")
    else if i == 4 then Subject("Mathematics", "#14B8A6")
    else if i == 5 then Subject("Entrepreneurship", "#EF4444")
    else Subject("Informatics Practices", "#6366F1")
  }

  /** `subjectsByLevel.commerce`: distinct subject names. */
  function CommerceSubjects(): (r: seq<Subject>)
    ensures |r| == 7
    ensures UniqueNames(r)
  {
    var r := seq(7, CommerceAt);
    assert r == [CommerceAt(0), CommerceAt(1), CommerceAt(2), CommerceAt(3), CommerceAt(4), CommerceAt(5), CommerceAt(6)];
    r
  }

  /** `subjectsByLevel.arts[i]`. */
  function ArtsAt(i: int): Subject
    requires 0 <= i < 9
  {
    if i == 0 then Subject("History", "#3B82F6")
    else if i == 1 then Subject("Geography", "#8B5CF6")
    else if i == 2 then Subject("Political Science", "#10B981")
    else if i == 3 then Subject("Economics", "#F59E0B")
    else if i == 4 then Subject("English Core", "#14B8A6")
    else if i == 5 then Subject("Psychology", "#EF4444")
    else if i == 6 then Subject("Sociology", "#6366F1")
    else if i == 7 then Subject("Philosophy", "#EC4899")
    else Subject("Hindi Elective", "#84CC16")
  }

  /** `subjectsByLevel.arts`: distinct subject names. */
  function ArtsSubjects(): (r: seq<Subject>)
    ensures |r| == 9
    ensures UniqueNames(r)
  {
    var r := seq(9, ArtsAt);
    assert r == [ArtsAt(0), ArtsAt(1), ArtsAt(2), ArtsAt(3), ArtsAt(4), ArtsAt(5), ArtsAt(6), ArtsAt(7), ArtsAt(8)];
    r
  }

  /** `subjectsByLevel.jee[i]`. */
  function JeeAt(i: int): Subject
    requires 0 <= i < 7
  {
    if i == 0 then Subject("Physics", "#3B82F6")
    else if i == 1 then Subject("Chemistry - Physical", "#8B5CF6")
    else if i == 2 then Subject("Chemistry - Organic", "#10B981")
    else if i == 3 then Subject("Chemistry - Inorganic", "#14B8A6")
    else if i == 4 then Subject("Mathematics - Algebra", "#F59E0B")
    else if i == 5 then Subject("Mathematics - Calculus", "#EF4444")
    else Subject("Mathematics - Coordinate Geometry", "#6366F1")
  }

  /** `subjectsByLevel.jee`: distinct subject names. */
  function JeeSubjects(): (r: seq<Subject>)
    ensures |r| == 7
    ensures UniqueNames(r)
  {
    var r := seq(7, JeeAt);
    assert r == [JeeAt(0), JeeAt(1), JeeAt(2), JeeAt(3), JeeAt(4), JeeAt(5), JeeAt(6)];
    r
  }

  /** `subjectsByLevel.neet[i]`. */
  function NeetAt(i: int): Subject
    requires 0 <= i < 6
  {
    if i == 0 then Subject("Physics", "#3B82F6")
    else if i == 1 then Subject("Chemistry - Physical", "#8B5CF6")
    else if i == 2 then Subject("Chemistry - Organic", "#10B981")
    else if i == 3 then Subject("Chemistry - Inorganic", "#14B8A6")
    else if i == 4 then Subject("Biology - Botany", "#F59E0B")
    else Subject("Biology - Zoology", "#EF4444")
  }

  /** `subjectsByLevel.neet`: distinct subject names. */
  function NeetSubjects(): (r: seq<Subject>)
    ensures |r| == 6
    ensures UniqueNames(r)
  {
    var r := seq(6, NeetAt);
    assert r == [NeetAt(0), NeetAt(1), NeetAt(2), NeetAt(3), NeetAt(4), NeetAt(5)];
    r
  }

  /** `subjectsByLevel.upsc[i]`. */
  function UpscAt(i: int): Subject
    requires 0 <= i < 8
  {
    if i == 0 then Subject("General Studies I - Indian Heritage & Culture", "#3B82F6")
    else if i == 1 then Subject("General Studies II - Governance & Constitution", "#8B5CF6")
    else if i == 2 then Subject("General Studies III - Economy & Environment", "#10B981")
    else if i == 3 then Subject("General Studies IV - Ethics", "#F59E0B")
    else if i == 4 then Subject("CSAT", "#14B8A6")
    else if i == 5 then Subject("Essay", "#EF4444")
    else if i == 6 then Subject("Current Affairs", "#6366F1")
    else Subject("Optional Subject", "#EC4899")
  }

  /** `subjectsByLevel.upsc`: distinct subject names. */
  function UpscSubjects(): (r: seq<Subject>)
    ensures |r| == 8
    ensures UniqueNames(r)
  {
    var r := seq(8, UpscAt);
    assert r == [UpscAt(0), UpscAt(1), UpscAt(2), UpscAt(3), UpscAt(4), UpscAt(5), UpscAt(6), UpscAt(7)];
    r
  }

  /** `subjectsByLevel.cat[i]`. */
  function CatAt(i: int): Subject
    requires 0 <= i < 3
  {
    if i == 0 then Subject("Quantitative Aptitude", "#3B82F6")
    else if i == 1 then Subject("Verbal Ability & Reading Comprehension", "#8B5CF6")
    else Subject("Data Interpretation & Logical Reasoning", "#10B981")
  }

  /** `subjectsByLevel.cat`: distinct subject names. */
  function CatSubjects(): (r: seq<Subject>)
    ensures |r| == 3
    ensures UniqueNames(r)
  {
    var r := seq(3, CatAt);
    assert r == [CatAt(0), CatAt(1), CatAt(2)];
    r
  }

  /** `subjectsByLevel.gate[i]`. */
  function GateAt(i: int): Subject
    requires 0 <= i < 5
  {
    if i == 0 then Subject("Engineering Mathematics", "#3B82F6")
    else if i == 1 then Subject("Core Subject - Part 1", "#8B5CF6")
    else if i == 2 then Subject("Core Subject - Part 2", "#10B981")
    else if i == 3 then Subject("Core Subject - Part 3", "#14B8A6")
    else Subject("General Aptitude", "#F59E0B")
  }

  /** `subjectsByLevel.gate`: distinct subject names. */
  function GateSubjects(): (r: seq<Subject>)
    ensures |r| == 5
    ensures UniqueNames(r)
  {
    var r := seq(5, GateAt);
    assert r == [GateAt(0), GateAt(1), GateAt(2), GateAt(3), GateAt(4)];
    r
  }

  /** `subjectsByLevel.college[i]`. */
  function CollegeAt(i: int): Subject
    requires 0 <= i < 6
  {
    if i == 0 then Subject("Core Subject 1", "#3B82F6")
    else if i == 1 then Subject("Core Subject 2", "#8B5CF6")
    else if i == 2 then Subject("Core Subject 3", "#10B981")
    else if i == 3 then Subject("Elective 1", "#F59E0B")
    else if i == 4 then Subject("Elective 2", "#14B8A6")
    else Subject("Language", "#EF4444")
  }

  /** `subjectsByLevel.college`: distinct subject names. */
  function CollegeSubjects(): (r: seq<Subject>)
    ensures |r| == 6
    ensures UniqueNames(r)
  {
    var r := seq(6, CollegeAt);
    assert r == [CollegeAt(0), CollegeAt(1), CollegeAt(2), CollegeAt(3), CollegeAt(4), CollegeAt(5)];
    r
  }

  /** The keys of the catalogue `subjectsByLevel`. */
  const CatalogueKeys: set<string> := {
    "primary", "middle", "secondary", "science-pcm", "science-pcb", "commerce", "arts",
    "jee", "neet", "upsc", "cat", "gate", "college"
  }

  /** The thirteen lists of the catalogue. */
  datatype ListName = Primary | Middle | Secondary | SciencePcm | SciencePcb | Commerce | Arts
                    | Jee | Neet | Upsc | Cat | Gate | College

  /** The list a catalogue key names, if the key is in the catalogue. */
  function ListKey(key: string): (name: Option<ListName>)
    ensures name.None? <==> key !in CatalogueKeys
  {
    if key == "primary" then Some(Primary)
    else if key == "middle" then Some(Middle)
    else if key == "secondary" then Some(Secondary)
    else if key == "science-pcm" then Some(SciencePcm)
    else if key == "science-pcb" then Some(SciencePcb)
    else if key == "commerce" then Some(Commerce)
    else if key == "arts" then Some(Arts)
    else if key == "jee" then Some(Jee)
    else if key == "neet" then Some(Neet)
    else if key == "upsc" then Some(Upsc)
    else if key == "cat" then Some(Cat)
    else if key == "gate" then Some(Gate)
    else if key == "college" then Some(College)
    else None
  }

  function ListOf(name: ListName): (r: seq<Subject>)
    ensures r != [] && UniqueNames(r)
  {
    match name
    case Primary => PrimarySubjects()
    case Middle => MiddleSubjects()
    case Secondary => SecondarySubjects()
    case SciencePcm => SciencePcmSubjects()
    case SciencePcb => SciencePcbSubjects()
    case Commerce => CommerceSubjects()
    case Arts => ArtsSubjects()
    case Jee => JeeSubjects()
    case Neet => NeetSubjects()
    case Upsc => UpscSubjects()
    case Cat => CatSubjects()
    case Gate => GateSubjects()
    case College => CollegeSubjects()
  }

  /** `subjectsByLevel[key] || []`: the list stored under `key`, or nothing for a missing key. */
  function SubjectsFor(key: string): (r: seq<Subject>)
    ensures UniqueNames(r)
    ensures r != [] <==> key in CatalogueKeys
  {
    match ListKey(key)
    case None => []
    case Some(name) => ListOf(name)
  }

  /** `levels.find((c) => c.value === value)`: the first level with that value. */
  function FindLevel(levels: seq<ClassLevel>, value: string): (r: Option<ClassLevel>)
    ensures r.None? <==> forall i :: 0 <= i < |levels| ==> levels[i].value != value
    ensures r.Some? ==> exists i :: 0 <= i < |levels| && levels[i] == r.value && r.value.value == value &&
                                    forall j :: 0 <= j < i ==> levels[j].value != value
  {
    if levels == [] then None
    else if levels[0].value == value then Some(levels[0])
    else
      var r := FindLevel(levels[1..], value);
      assert r.Some? ==> exists i :: 0 <= i < |levels[1..]| && levels[1..][i] == r.value && r.value.value == value &&
                                    forall j :: 0 <= j < i ==> levels[1..][j].value != value;
      assert r.Some? ==> exists i :: 1 <= i < |levels| && levels[i] == r.value && r.value.value == value &&
                                    forall j :: 0 <= j < i ==> levels[j].value != value by {
        if r.Some? {
          var i :| 0 <= i < |levels[1..]| && levels[1..][i] == r.value && r.value.value == value &&
                   forall j :: 0 <= j < i ==> levels[1..][j].value != value;
          assert levels[i + 1] == r.value;
          forall j | 0 <= j < i + 1 ensures levels[j].value != value {
            if j > 0 { assert levels[j] == levels[1..][j - 1]; }
          }
        }
      }
      r
  }

  /**
    * The catalogue key `getSubjectsForLevel` looks up for a class level and
    * stream, or None when the class level is not listed (its `return []`).
    * An empty `stream` stands for a missing one.
    */
  function CatalogueKey(classLevel: string, stream: string): (r: Option<string>)
    ensures r.None? <==> forall i :: 0 <= i < |ClassLevels()| ==> ClassLevels()[i].value != classLevel
  {
    match FindLevel(ClassLevels(), classLevel)
    case None => None
    case Some(level) =>
      if level.category == "higher-secondary" && stream != "" then Some(stream)
      else if level.category == "competitive" then Some(classLevel)
      else if level.category == "college" then Some("college")
      else Some(level.category)
  }

  /** `getSubjectsForLevel(classLevel, stream)`. */
  function GetSubjectsForLevel(classLevel: string, stream: string): (r: seq<Subject>)
    ensures UniqueNames(r)
    ensures r != [] <==> CatalogueKey(classLevel, stream).Some? && CatalogueKey(classLevel, stream).value in CatalogueKeys
    ensures (forall i :: 0 <= i < |ClassLevels()| ==> ClassLevels()[i].value != classLevel) ==> r == []
  {
    match CatalogueKey(classLevel, stream)
    case None => []
    case Some(key) => SubjectsFor(key)
  }

  predicate UniqueValues(levels: seq<ClassLevel>) {
    forall i, j :: 0 <= i < j < |levels| ==> levels[i].value != levels[j].value
  }

  predicate UniqueNames(subjects: seq<Subject>) {
    forall i, j :: 0 <= i < j < |subjects| ==> subjects[i].name != subjects[j].name
  }

  predicate IsListedLevel(classLevel: string) {
    exists i :: 0 <= i < |ClassLevels()| && ClassLevels()[i].value == classLevel
  }

  /** A listed level is found by its own value. */
  lemma FindListedLevel(i: nat)
    requires i < |ClassLevels()|
    ensures FindLevel(ClassLevels(), ClassLevels()[i].value) == Some(ClassLevels()[i])
  {
  }

  /** An unknown class level yields the empty subject list. */
  lemma UnknownLevelHasNoSubjects(classLevel: string, stream: string)
    requires !IsListedLevel(classLevel)
    ensures CatalogueKey(classLevel, stream).None?
    ensures GetSubjectsForLevel(classLevel, stream) == []
  {
  }

  /** Classes 11 and 12 with a stream look the stream up, so an unknown stream yields nothing. */
  lemma HigherSecondaryUsesStream(i: nat, stream: string)
    requires i < |ClassLevels()| && ClassLevels()[i].category == "higher-secondary"
    requires stream != ""
    ensures CatalogueKey(ClassLevels()[i].value, stream) == Some(stream)
    ensures stream !in CatalogueKeys ==> GetSubjectsForLevel(ClassLevels()[i].value, stream) == []
  {
    FindListedLevel(i);
  }

  /** Every stream the stream picker offers has its own non-empty list. */
  lemma ListedStreamHasSubjects(j: nat)
    requires j < |Streams()|
    ensures Streams()[j].value in CatalogueKeys
  {
  }

  /** Classes 11 and 12 without a stream fall through to the missing "higher-secondary" key. */
  lemma HigherSecondaryWithoutStreamIsEmpty(i: nat)
    requires i < |ClassLevels()| && ClassLevels()[i].category == "higher-secondary"
    ensures CatalogueKey(ClassLevels()[i].value, "") == Some("higher-secondary")
    ensures GetSubjectsForLevel(ClassLevels()[i].value, "") == []
  {
    HigherSecondaryKeyWithoutStream(i, "");
    HigherSecondaryKeyIsMissing("higher-secondary");
  }

  /** Without a stream, classes 11 and 12 look up their category. */
  lemma HigherSecondaryKeyWithoutStream(i: nat, stream: string)
    requires i < |ClassLevels()| && ClassLevels()[i].category == "higher-secondary"
    requires stream == ""
    ensures CatalogueKey(ClassLevels()[i].value, stream) == Some("higher-secondary")
  {
    FindListedLevel(i);
  }

  /** The catalogue holds no list under "higher-secondary". */
  lemma HigherSecondaryKeyIsMissing(key: string)
    requires key == "higher-secondary"
    ensures SubjectsFor(key) == []
  {
    assert key !in CatalogueKeys;
  }

  /** A competitive exam looks up the list keyed by its own value, whatever the stream. */
  lemma CompetitiveUsesOwnKey(i: nat, stream: string)
    requires i < |ClassLevels()| && ClassLevels()[i].category == "competitive"
    ensures CatalogueKey(ClassLevels()[i].value, stream) == Some(ClassLevels()[i].value)
  {
    FindListedLevel(i);
  }

  /** Every competitive exam has its own list in the catalogue. */
  lemma CompetitiveKeyListed(i: nat)
    requires i < |ClassLevels()| && ClassLevels()[i].category == "competitive"
    ensures ClassLevels()[i].value in CatalogueKeys
  {
  }

  /** Both college levels share the one college list, whatever the stream. */
  lemma CollegeLevelsShareList(i: nat, stream: string)
    requires i < |ClassLevels()| && ClassLevels()[i].category == "college"
    ensures GetSubjectsForLevel(ClassLevels()[i].value, stream) == CollegeSubjects()
  {
    FindListedLevel(i);
    var key := CatalogueKey(ClassLevels()[i].value, stream).value;
    assert key == "college";
    CollegeKey(key);
  }

  /** The catalogue's college list is stored under "college". */
  lemma CollegeKey(key: string)
    requires key == "college"
    ensures SubjectsFor(key) == CollegeSubjects()
  {
    CollegeListName(key);
  }

  lemma CollegeListName(key: string)
    requires key == "college"
    ensures ListKey(key) == Some(College)
  {
  }

  /** Primary, middle and secondary levels look up the list keyed by their category. */
  lemma SchoolLevelUsesCategory(i: nat, stream: string)
    requires i < |ClassLevels()| && ClassLevels()[i].category in {"primary", "middle", "secondary"}
    ensures CatalogueKey(ClassLevels()[i].value, stream) == Some(ClassLevels()[i].category)
    ensures ClassLevels()[i].category in CatalogueKeys
  {
    FindListedLevel(i);
  }

  /**
    * Every choice the class and stream pickers can make (a listed level, and a
    * listed stream for classes 11 and 12) yields a non-empty list of distinct subjects.
    */
  lemma ListedChoiceHasSubjects(i: nat, stream: string)
    requires i < |ClassLevels()|
    requires ClassLevels()[i].category == "higher-secondary" ==> exists j :: 0 <= j < |Streams()| && Streams()[j].value == stream
    ensures GetSubjectsForLevel(ClassLevels()[i].value, stream) != []
    ensures UniqueNames(GetSubjectsForLevel(ClassLevels()[i].value, stream))
  {
    ListedChoiceHasKey(i, stream);
  }

  /** Every choice the pickers can make leads to a key of the catalogue. */
  lemma ListedChoiceHasKey(i: nat, stream: string)
    requires i < |ClassLevels()|
    requires ClassLevels()[i].category == "higher-secondary" ==> exists j :: 0 <= j < |Streams()| && Streams()[j].value == stream
    ensures CatalogueKey(ClassLevels()[i].value, stream).Some?
    ensures CatalogueKey(ClassLevels()[i].value, stream).value in CatalogueKeys
  {
    var category := ClassLevels()[i].category;
    if category == "higher-secondary" {
      var j :| 0 <= j < |Streams()| && Streams()[j].value == stream;
      ListedStreamHasSubjects(j);
      HigherSecondaryUsesStream(i, stream);
    } else if category == "competitive" {
      CompetitiveUsesOwnKey(i, stream);
      CompetitiveKeyListed(i);
    } else if category == "college" {
      FindListedLevel(i);
    } else {
      assert category in {"primary", "middle", "secondary"};
      SchoolLevelUsesCategory(i, stream);
    }
  }
}
