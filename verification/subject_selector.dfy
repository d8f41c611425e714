/**
  * The subject step of the planner wizard: which catalogue subjects are
  * selected, and the 1-to-5 priority of each. Every operation builds a new
  * list and hands it back, as the component passes it to `onChange`.
  */
module SubjectSelector {
  import opened Text
  import PlannerData

  /** A selected subject: a catalogue subject plus its priority (1 = weak, 5 = strong). */
  datatype SelectedSubject = SelectedSubject(name: string, color: string, priority: int)

  /** The priority a newly selected subject gets, and the one shown when none is stored. */
  const DefaultPriority: int := 3

  /** `isSelected`: some entry carries the name. */
  function IsSelected(selected: seq<SelectedSubject>, name: string): (b: bool)
    ensures b <==> exists i :: 0 <= i < |selected| && selected[i].name == name
  {
    if selected == [] then false
    else selected[0].name == name || IsSelected(selected[1..], name)
  }

  /** `find`: the first entry carrying the name. */
  function FindByName(selected: seq<SelectedSubject>, name: string): (r: Option<SelectedSubject>)
    ensures r.None? <==> !IsSelected(selected, name)
    ensures r.Some? ==> exists i :: 0 <= i < |selected| && selected[i] == r.value && selected[i].name == name &&
                                    forall j :: 0 <= j < i ==> selected[j].name != name
  {
    if selected == [] then None
    else if selected[0].name == name then Some(selected[0])
    else
      var r := FindByName(selected[1..], name);
      assert r.Some? ==> forall i :: 0 <= i < |selected[1..]| ==> selected[1..][i] == selected[i + 1];
      r
  }

  /** `getSubjectPriority`: the stored priority of the first match; `|| 3` also turns a stored 0 into 3. */
  function GetSubjectPriority(selected: seq<SelectedSubject>, name: string): (r: int)
    ensures r != 0
    ensures (forall i :: 0 <= i < |selected| ==> selected[i].name != name) ==> r == DefaultPriority
    ensures r != DefaultPriority ==> exists i :: 0 <= i < |selected| && selected[i].name == name && selected[i].priority == r
  {
    match FindByName(selected, name)
    case None => DefaultPriority
    case Some(s) => if s.priority != 0 then s.priority else DefaultPriority
  }

  /** The `filter` that drops every entry carrying the name. */
  function RemoveName(selected: seq<SelectedSubject>, name: string): (r: seq<SelectedSubject>)
    ensures !IsSelected(r, name)
    ensures forall x :: x in r ==> x in selected
    ensures |r| <= |selected|
  {
    if selected == [] then []
    else (if selected[0].name == name then [] else [selected[0]]) + RemoveName(selected[1..], name)
  }

  /** `toggleSubject`: deselect when selected, else append with the default priority. */
  function ToggleSubject(selected: seq<SelectedSubject>, subject: PlannerData.Subject): (r: seq<SelectedSubject>)
    ensures IsSelected(r, subject.name) <==> !IsSelected(selected, subject.name)
  {
    if IsSelected(selected, subject.name) then RemoveName(selected, subject.name)
    else
      var r := selected + [SelectedSubject(subject.name, subject.color, DefaultPriority)];
      assert r[|selected|].name == subject.name;
      r
  }

  /** `updatePriority`: the `map` that sets the priority of every entry carrying the name. */
  function UpdatePriority(selected: seq<SelectedSubject>, name: string, priority: int): (r: seq<SelectedSubject>)
    ensures |r| == |selected|
    ensures forall i :: 0 <= i < |r| ==>
              r[i].name == selected[i].name && r[i].color == selected[i].color &&
              r[i].priority == (if selected[i].name == name then priority else selected[i].priority)
  {
    if selected == [] then []
    else [if selected[0].name == name then selected[0].(priority := priority) else selected[0]]
         + UpdatePriority(selected[1..], name, priority)
  }

  predicate UniqueNames(selected: seq<SelectedSubject>) {
    forall i, j :: 0 <= i < j < |selected| ==> selected[i].name != selected[j].name
  }

  /** Every stored priority is one of the five star values. */
  predicate PrioritiesInRange(selected: seq<SelectedSubject>) {
    forall i :: 0 <= i < |selected| ==> 1 <= selected[i].priority <= 5
  }

  /** The shown priority is the first matching entry's non-zero priority. */
  lemma PriorityOfFirstMatch(selected: seq<SelectedSubject>, name: string, i: int)
    requires 0 <= i < |selected| && selected[i].name == name && selected[i].priority != 0
    requires forall j :: 0 <= j < i ==> selected[j].name != name
    ensures GetSubjectPriority(selected, name) == selected[i].priority
  {
    var r := FindByName(selected, name);
    var k :| 0 <= k < |selected| && selected[k] == r.value && selected[k].name == name &&
             forall j :: 0 <= j < k ==> selected[j].name != name;
    assert k == i;
  }

  /** An unselected name, or a stored priority of 0, shows the default 3. */
  lemma PriorityDefaultsToThree(selected: seq<SelectedSubject>, name: string)
    requires !IsSelected(selected, name) || (FindByName(selected, name).Some? && FindByName(selected, name).value.priority == 0)
    ensures GetSubjectPriority(selected, name) == 3
  {
  }

  /** Priorities set through the stars keep every shown priority in 1..5. */
  lemma ShownPriorityInRange(selected: seq<SelectedSubject>, name: string)
    requires PrioritiesInRange(selected)
    ensures 1 <= GetSubjectPriority(selected, name) <= 5
  {
    if FindByName(selected, name).Some? {
      var r := FindByName(selected, name);
      var k :| 0 <= k < |selected| && selected[k] == r.value && selected[k].name == name;
    }
  }

  /** Removing a name does nothing when the name is absent. */
  lemma {:induction false} RemoveAbsentName(selected: seq<SelectedSubject>, name: string)
    requires !IsSelected(selected, name)
    ensures RemoveName(selected, name) == selected
  {
    if selected != [] {
      RemoveAbsentName(selected[1..], name);
    }
  }

  /** Removing distributes over concatenation, so the entries kept stay in their order. */
  lemma {:induction false} RemoveNameAppend(a: seq<SelectedSubject>, b: seq<SelectedSubject>, name: string)
    ensures RemoveName(a + b, name) == RemoveName(a, name) + RemoveName(b, name)
  {
    if a == [] {
      assert a + b == b;
    } else {
      assert (a + b)[1..] == a[1..] + b;
      RemoveNameAppend(a[1..], b, name);
    }
  }

  /** Removing keeps exactly the entries with other names, each as it was. */
  lemma {:induction false} RemoveNameKeepsOthers(selected: seq<SelectedSubject>, name: string, x: SelectedSubject)
    requires x.name != name
    ensures x in RemoveName(selected, name) <==> x in selected
  {
    if selected != [] {
      RemoveNameKeepsOthers(selected[1..], name, x);
      assert selected == [selected[0]] + selected[1..];
    }
  }

  /** Selecting a subject appends it with priority 3 and keeps what was there. */
  lemma ToggleAppends(selected: seq<SelectedSubject>, subject: PlannerData.Subject)
    requires !IsSelected(selected, subject.name)
    ensures var r := ToggleSubject(selected, subject);
            |r| == |selected| + 1 && r[..|selected|] == selected &&
            r[|selected|] == SelectedSubject(subject.name, subject.color, 3)
  {
  }

  /** Toggling an unselected subject twice gives back the original list. */
  lemma ToggleTwice(selected: seq<SelectedSubject>, subject: PlannerData.Subject)
    requires !IsSelected(selected, subject.name)
    ensures ToggleSubject(ToggleSubject(selected, subject), subject) == selected
  {
    var added := SelectedSubject(subject.name, subject.color, DefaultPriority);
    RemoveNameAppend(selected, [added], subject.name);
    RemoveAbsentName(selected, subject.name);
    assert RemoveName([added], subject.name) == [];
  }

  /** Unique names stay unique under toggling. */
  lemma ToggleKeepsUnique(selected: seq<SelectedSubject>, subject: PlannerData.Subject)
    requires UniqueNames(selected)
    ensures UniqueNames(ToggleSubject(selected, subject))
  {
    if IsSelected(selected, subject.name) {
      RemoveKeepsUnique(selected, subject.name);
    }
  }

  lemma {:induction false} RemoveKeepsUnique(selected: seq<SelectedSubject>, name: string)
    requires UniqueNames(selected)
    ensures UniqueNames(RemoveName(selected, name))
  {
    if selected != [] {
      RemoveKeepsUnique(selected[1..], name);
      var rest := RemoveName(selected[1..], name);
      if selected[0].name != name {
        forall x | x in rest
          ensures x.name != selected[0].name
        {
          var k :| 0 <= k < |selected[1..]| && selected[1..][k] == x;
          assert selected[k + 1] == x;
        }
        assert RemoveName(selected, name) == [selected[0]] + rest;
      } else {
        assert RemoveName(selected, name) == rest;
      }
    }
  }

  /** Unique names stay unique under a priority update, and a star value keeps all priorities in range. */
  lemma UpdateKeepsInvariants(selected: seq<SelectedSubject>, name: string, star: int)
    ensures UniqueNames(selected) ==> UniqueNames(UpdatePriority(selected, name, star))
    ensures PrioritiesInRange(selected) && 1 <= star <= 5 ==> PrioritiesInRange(UpdatePriority(selected, name, star))
  {
  }

  /** Toggling keeps every priority in range, since a new entry gets 3. */
  lemma ToggleKeepsPriorities(selected: seq<SelectedSubject>, subject: PlannerData.Subject)
    requires PrioritiesInRange(selected)
    ensures PrioritiesInRange(ToggleSubject(selected, subject))
  {
    if IsSelected(selected, subject.name) {
      var r := RemoveName(selected, subject.name);
      forall i | 0 <= i < |r|
        ensures 1 <= r[i].priority <= 5
      {
        assert r[i] in selected;
      }
    }
  }

  /** After a star click the shown priority of that subject is the star's value. */
  lemma UpdateThenShown(selected: seq<SelectedSubject>, name: string, star: int)
    requires IsSelected(selected, name) && 1 <= star <= 5
    ensures GetSubjectPriority(UpdatePriority(selected, name, star), name) == star
  {
    var r := UpdatePriority(selected, name, star);
    var f := FindByName(selected, name);
    var i :| 0 <= i < |selected| && selected[i] == f.value && selected[i].name == name &&
             forall j :: 0 <= j < i ==> selected[j].name != name;
    assert r[i].name == name && r[i].priority == star;
    assert forall j :: 0 <= j < i ==> r[j].name != name;
    PriorityOfFirstMatch(r, name, i);
  }
}
