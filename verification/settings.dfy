/**
  * The settings page: the avatar's initials and fallback letter, whether the
  * stream selector is shown, how the profile form is saved to and loaded
  * from the profile row, and the four notification switches. The profile
  * row and the stored preferences are values passed in and out; the
  * database and the browser storage themselves are not modelled.
  */
module Settings {
  import opened Text
  import PlannerData
  import PlannerForm

  // ---------------------------------------------------------------------------
  // Initials

  /** `.map(n => n[0]).join("")`: the first character of each word; an empty word adds nothing. */
  function Firsts(words: seq<string>): (r: string)
    ensures |r| <= |words|
  {
    if words == [] then []
    else (if words[0] == [] then [] else [words[0][0]]) + Firsts(words[1..])
  }

  /**
    * The characters of `s` that begin a word: not a space, and first in the
    * text (when `afterSpace`) or right after a space.
    */
  function WordStartsFrom(s: string, afterSpace: bool): (r: string)
    ensures |r| <= |s|
    ensures forall i :: 0 <= i < |r| ==> r[i] != ' '
  {
    if s == [] then []
    else (if s[0] != ' ' && afterSpace then [s[0]] else []) + WordStartsFrom(s[1..], s[0] == ' ')
  }

  /** The first letter of every word of a name, in order. */
  function WordStarts(name: string): string {
    WordStartsFrom(name, true)
  }

  /** Splitting at spaces and taking first characters picks exactly the word starts. */
  lemma {:induction false} FirstsOfSplit(s: string)
    ensures Firsts(Split(s, ' ')) == WordStartsFrom(s, true)
    ensures Firsts(Split(s, ' ')[1..]) == WordStartsFrom(s, false)
  {
    if s != [] {
      var rest := Split(s[1..], ' ');
      FirstsOfSplit(s[1..]);
      var parts := Split(s, ' ');
      if s[0] == ' ' {
        assert parts == [""] + rest;
        assert parts[1..] == rest;
      } else {
        assert parts == [[s[0]] + rest[0]] + rest[1..];
        assert parts[1..] == rest[1..];
      }
    }
  }

  /** `.slice(0, 2)`. */
  function Take2(s: string): string {
    if |s| <= 2 then s else s[..2]
  }

  /** `getInitials`: the upper-cased first letters of the first two words of the name. */
  function GetInitials(name: string): (r: string)
    ensures r == Take2(ToUpper(WordStarts(name)))
    ensures |r| == if |WordStarts(name)| <= 2 then |WordStarts(name)| else 2
    ensures forall i :: 0 <= i < |r| ==> r[i] == UpperChar(WordStarts(name)[i])
  {
    FirstsOfSplit(name);
    Take2(ToUpper(Firsts(Split(name, ' '))))
  }

  /** How the word starts of a joined text combine. */
  lemma {:induction false} WordStartsAppend(a: string, b: string, afterSpace: bool)
    ensures WordStartsFrom(a + b, afterSpace) ==
            WordStartsFrom(a, afterSpace) + WordStartsFrom(b, if a == [] then afterSpace else a[|a| - 1] == ' ')
  {
    if a == [] {
      assert a + b == b;
    } else {
      assert (a + b)[1..] == a[1..] + b;
      WordStartsAppend(a[1..], b, a[0] == ' ');
    }
  }

  /** A run of spaces counts like one space: an extra space between words adds no initial. */
  lemma RepeatedSpacesAddNothing(a: string, b: string)
    ensures GetInitials(a + "  " + b) == GetInitials(a + " " + b)
  {
    assert a + "  " + b == a + (" " + (" " + b));
    assert a + " " + b == a + (" " + b);
    WordStartsAppend(a, " " + (" " + b), true);
    WordStartsAppend(a, " " + b, true);
    var p := if a == [] then true else a[|a| - 1] == ' ';
    LeadingSpace(" " + b, p);
    LeadingSpace(b, true);
    LeadingSpace(b, p);
  }

  /** A space in front starts no word of its own and makes the next character a word start. */
  lemma LeadingSpace(s: string, afterSpace: bool)
    ensures WordStartsFrom(" " + s, afterSpace) == WordStartsFrom(s, true)
  {
    assert (" " + s)[1..] == s;
  }

  /** Two words give the upper-cased first letter of each. */
  lemma TwoWordName(first: string, last: string)
    requires first != [] && last != [] && last[0] != ' '
    requires forall i :: 0 <= i < |first| ==> first[i] != ' '
    ensures GetInitials(first + " " + last) == [UpperChar(first[0]), UpperChar(last[0])]
  {
    var name := first + " " + last;
    WordsAroundSpace(first, last);
    SingleWordStart(first);
    var w := WordStarts(name);
    assert w == [first[0]] + WordStartsFrom(last, true);
    assert w[1] == last[0];
    InitialsOfFirstTwo(name);
  }

  /** The word starts of two texts joined by a space are those of each text on its own. */
  lemma WordsAroundSpace(first: string, last: string)
    requires first != [] && first[|first| - 1] != ' '
    ensures WordStarts(first + " " + last) == WordStartsFrom(first, true) + WordStartsFrom(last, true)
  {
    assert first + " " + last == first + (" " + last);
    WordStartsAppend(first, " " + last, true);
    LeadingSpace(last, false);
  }

  /** A word without spaces has one start, its first letter. */
  lemma SingleWordStart(word: string)
    requires word != [] && forall i :: 0 <= i < |word| ==> word[i] != ' '
    ensures WordStartsFrom(word, true) == [word[0]]
  {
    NoSpaceNoStart(word[1..]);
  }

  /** Only the first two word starts make the initials. */
  lemma InitialsOfFirstTwo(name: string)
    requires |WordStarts(name)| >= 2
    ensures GetInitials(name) == [UpperChar(WordStarts(name)[0]), UpperChar(WordStarts(name)[1])]
  {
  }

  /** A text without spaces starts no word after its first character. */
  lemma {:induction false} NoSpaceNoStart(s: string)
    requires forall i :: 0 <= i < |s| ==> s[i] != ' '
    ensures WordStartsFrom(s, false) == ""
  {
    if s != [] {
      NoSpaceNoStart(s[1..]);
    }
  }

  // ---------------------------------------------------------------------------
  // Avatar fallback

  /** The fallback text of the avatar: initials for a set name, else the email's first letter, else "U". */
  function AvatarFallback(fullName: string, email: Option<string>): (r: string)
    ensures |r| <= 2
  {
    if fullName != "" then GetInitials(fullName)
    else if email.Some? && email.value != "" then ToUpper([email.value[0]])
    else "U"
  }

  /** The three cases of the fallback, and a name of spaces only that shows nothing at all. */
  lemma AvatarFallbackCases(fullName: string, email: Option<string>)
    ensures fullName != "" ==> AvatarFallback(fullName, email) == GetInitials(fullName)
    ensures fullName == "" && email.Some? && email.value != "" ==> AvatarFallback(fullName, email) == [UpperChar(email.value[0])]
    ensures fullName == "" && (email.None? || email.value == "") ==> AvatarFallback(fullName, email) == "U"
    ensures AvatarFallback(fullName, email) == "" <==> fullName != "" && WordStarts(fullName) == ""
  {
  }

  /** Spaces alone make a set name with no initials: the fallback is empty, not "U". */
  lemma {:induction false} SpacesOnlyName(fullName: string, afterSpace: bool)
    requires forall i :: 0 <= i < |fullName| ==> fullName[i] == ' '
    ensures WordStartsFrom(fullName, afterSpace) == ""
    ensures fullName != "" ==> GetInitials(fullName) == ""
  {
    if fullName != [] {
      SpacesOnlyName(fullName[1..], true);
    }
  }

  // ---------------------------------------------------------------------------
  // Stream selector

  /** `needsStream` as written: compares with underscored values the class list never uses. */
  function NeedsStreamAsWritten(classLevel: string): (shown: bool)
    ensures shown <==> classLevel == "class_11" || classLevel == "class_12"
    ensures shown ==> |classLevel| == 8 && classLevel[..6] == "class_"
  {
    classLevel == "class_11" || classLevel == "class_12"
  }

  /** No class level a user can pick ever shows the stream selector as written, not even Class 11 or 12. */
  lemma StreamSelectorNeverShown(i: int)
    requires 0 <= i < |PlannerData.ClassLevels()|
    ensures !NeedsStreamAsWritten(PlannerData.ClassLevels()[i].value)
  {
    var v := PlannerData.ClassLevels()[i].value;
    if |v| == 8 {
      assert i == 9 || i == 10 || i == 11;
      assert v[5] == '-';
      assert "class_11"[5] == '_' && "class_12"[5] == '_';
    }
  }

  /** Class 11 is a level the planner form asks a stream for, yet the settings page as written does not. */
  lemma ClassElevenAsWritten()
    ensures var classEleven := PlannerData.ClassLevels()[10].value;
            PlannerForm.NeedsStream(classEleven) && !NeedsStreamAsWritten(classEleven)
  {
    PlannerForm.NeedsStreamAtHigherSecondary(10);
    StreamSelectorNeverShown(10);
  }

  /** The stream selector shown for the hyphenated values the class list uses. */
  function NeedsStreamCorrected(classLevel: string): (needs: bool)
    ensures needs <==> PlannerForm.NeedsStream(classLevel)
  {
    NeedsStreamAgrees(classLevel);
    assert PlannerData.ClassLevels()[10].value == "class-11" && PlannerData.ClassLevels()[11].value == "class-12";
    classLevel == "class-11" || classLevel == "class-12"
  }

  /** Only the eleventh and twelfth entries of the class list are higher-secondary. */
  lemma HigherSecondaryIndices(i: int)
    requires 0 <= i < |PlannerData.ClassLevels()| && PlannerData.ClassLevels()[i].category == "higher-secondary"
    ensures i == 10 || i == 11
  {
    assert |PlannerData.ClassLevels()[i].category| == 16;
  }

  /** A level the planner form asks a stream for is the eleventh or twelfth entry of the class list. */
  lemma NeedsStreamListed(classLevel: string)
    requires PlannerForm.NeedsStream(classLevel)
    ensures classLevel == PlannerData.ClassLevels()[10].value || classLevel == PlannerData.ClassLevels()[11].value
  {
    var levels := PlannerData.ClassLevels();
    var r := PlannerData.FindLevel(levels, classLevel);
    var i :| 0 <= i < |levels| && levels[i] == r.value && r.value.value == classLevel;
    HigherSecondaryIndices(i);
  }

  /** The two hyphenated values are exactly the higher-secondary levels that the planner form asks a stream for. */
  lemma NeedsStreamAgrees(classLevel: string)
    ensures var levels := PlannerData.ClassLevels();
            (classLevel == levels[10].value || classLevel == levels[11].value) <==> PlannerForm.NeedsStream(classLevel)
  {
    if PlannerForm.NeedsStream(classLevel) {
      NeedsStreamListed(classLevel);
    } else {
      HigherSecondaryNeedsStream(10);
      HigherSecondaryNeedsStream(11);
    }
  }

  /** Classes 11 and 12 are asked for a stream by the planner form. */
  lemma HigherSecondaryNeedsStream(i: int)
    requires i == 10 || i == 11
    ensures PlannerForm.NeedsStream(PlannerData.ClassLevels()[i].value)
  {
    PlannerForm.NeedsStreamAtHigherSecondary(i);
  }

  // ---------------------------------------------------------------------------
  // Saving and loading the profile

  /** The four text fields of the profile form. */
  datatype ProfileForm = ProfileForm(fullName: string, classLevel: string, stream: string, avatarUrl: string)

  /** The nullable columns of the profile row. */
  datatype ProfileRow = ProfileRow(fullName: Option<string>, classLevel: Option<string>, stream: Option<string>, avatarUrl: Option<string>)

  /** `field || null`. */
  function ToColumn(field: string): (column: Option<string>)
    ensures column.None? <==> field == ""
    ensures column.Some? ==> column.value == field
  {
    if field == "" then None else Some(field)
  }

  /** `column || ""`. */
  function FromColumn(column: Option<string>): (field: string)
    ensures column.Some? ==> field == column.value
    ensures column.None? ==> field == ""
  {
    match column
    case None => ""
    case Some(v) => v
  }

  /** The update `handleSaveProfile` sends. */
  function SaveProfile(form: ProfileForm): (row: ProfileRow)
    ensures NoEmptyColumn(row)
    ensures row.fullName.None? <==> form.fullName == ""
    ensures row.classLevel.None? <==> form.classLevel == ""
    ensures row.stream.None? <==> form.stream == ""
    ensures row.avatarUrl.None? <==> form.avatarUrl == ""
  {
    ProfileRow(ToColumn(form.fullName), ToColumn(form.classLevel), ToColumn(form.stream), ToColumn(form.avatarUrl))
  }

  /** The form `fetchProfile` fills from a row. */
  function LoadProfile(row: ProfileRow): (form: ProfileForm)
    ensures form.fullName == "" <==> row.fullName.None? || row.fullName == Some("")
    ensures form.classLevel == "" <==> row.classLevel.None? || row.classLevel == Some("")
    ensures form.stream == "" <==> row.stream.None? || row.stream == Some("")
    ensures form.avatarUrl == "" <==> row.avatarUrl.None? || row.avatarUrl == Some("")
  {
    ProfileForm(FromColumn(row.fullName), FromColumn(row.classLevel), FromColumn(row.stream), FromColumn(row.avatarUrl))
  }

  /** No column is an empty text. */
  predicate NoEmptyColumn(row: ProfileRow) {
    row.fullName != Some("") && row.classLevel != Some("") && row.stream != Some("") && row.avatarUrl != Some("")
  }

  /** Saving stores nothing but nulls and non-empty texts, and loading it back gives the same form. */
  lemma SaveThenLoad(form: ProfileForm)
    ensures NoEmptyColumn(SaveProfile(form))
    ensures LoadProfile(SaveProfile(form)) == form
  {
  }

  /** Loading then saving gives the row back exactly when no column holds an empty text. */
  lemma LoadThenSave(row: ProfileRow)
    ensures SaveProfile(LoadProfile(row)) == row <==> NoEmptyColumn(row)
  {
  }

  // ---------------------------------------------------------------------------
  // Notification preferences

  datatype Preferences = Preferences(streakReminders: bool, studyReminders: bool, dailyTips: bool, achievements: bool)

  /** The four switches. */
  datatype Switch = StreakReminders | StudyReminders | DailyTips | Achievements

  function DefaultPreferences(): (p: Preferences)
    ensures forall s: Switch :: IsOn(p, s)
  {
    Preferences(true, true, true, true)
  }

  predicate IsOn(p: Preferences, s: Switch) {
    match s
    case StreakReminders => p.streakReminders
    case StudyReminders => p.studyReminders
    case DailyTips => p.dailyTips
    case Achievements => p.achievements
  }

  /** `{ ...notificationPrefs, field: checked }`. */
  function WithSwitch(p: Preferences, s: Switch, checked: bool): (q: Preferences)
    ensures IsOn(q, s) == checked
    ensures forall t: Switch :: t != s ==> IsOn(q, t) == IsOn(p, t)
  {
    match s
    case StreakReminders => p.(streakReminders := checked)
    case StudyReminders => p.(studyReminders := checked)
    case DailyTips => p.(dailyTips := checked)
    case Achievements => p.(achievements := checked)
  }

  /** Setting a switch to the value it already has changes nothing. */
  lemma SwitchIdempotent(p: Preferences, s: Switch)
    ensures WithSwitch(p, s, IsOn(p, s)) == p
  {
  }

  /** Settings of two different switches commute. */
  lemma SwitchesCommute(p: Preferences, s: Switch, t: Switch, a: bool, b: bool)
    requires s != t
    ensures WithSwitch(WithSwitch(p, s, a), t, b) == WithSwitch(WithSwitch(p, t, b), s, a)
  {
  }

  /** The later of two settings of one switch wins. */
  lemma LastSettingWins(p: Preferences, s: Switch, a: bool, b: bool)
    ensures WithSwitch(WithSwitch(p, s, a), s, b) == WithSwitch(p, s, b)
  {
  }

  /** `loadNotificationPreferences`: a stored record replaces the current one; nothing stored keeps it. */
  function AfterLoad(current: Preferences, stored: Option<Preferences>): (prefs: Preferences)
    ensures prefs == current || Some(prefs) == stored
    ensures stored.Some? ==> forall s: Switch :: IsOn(prefs, s) == IsOn(stored.value, s)
  {
    match stored
    case None => current
    case Some(p) => p
  }

  /** The page's notification preferences and the copy kept in the browser's storage. */
  class NotificationSettings {
    var prefs: Preferences
    var stored: Option<Preferences>

    /** The page opens with every switch on, over whatever the storage holds. */
    constructor (stored: Option<Preferences>)
      ensures prefs == DefaultPreferences() && this.stored == stored
    {
      prefs := Preferences(true, true, true, true);
      this.stored := stored;
    }

    /** Reading the stored record when the page loads. */
    method LoadPreferences()
      modifies this
      ensures prefs == AfterLoad(old(prefs), old(stored)) && stored == old(stored)
    {
      if stored.Some? {
        prefs := stored.value;
      }
    }

    /** `onCheckedChange` of one switch: the new record is stored and shown. */
    method SetSwitch(s: Switch, checked: bool)
      modifies this
      ensures prefs == WithSwitch(old(prefs), s, checked)
      ensures stored == Some(prefs)
    {
      var next := WithSwitch(prefs, s, checked);
      stored := Some(next);
      prefs := next;
    }
  }

  /** After any switch is set, a reload finds the record just shown. */
  lemma SavedSwitchSurvivesReload(p: Preferences, current: Preferences, s: Switch, checked: bool)
    ensures IsOn(AfterLoad(current, Some(WithSwitch(p, s, checked))), s) == checked
    ensures AfterLoad(current, None) == current
  {
  }
}
