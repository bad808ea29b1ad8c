/**
 * What both habit screens share: the category table, the icon and label lookups over it,
 * the `field.trim() || undefined` rule for optional fields, and the requests their add and
 * log forms send.
 */
module HabitCategories {
  import opened Wrappers
  import opened Text
  import opened Entities
  import Api

  datatype Category = Category(key: string, caption: string, icon: string)

  const FallbackIcon: string := "checkmark-circle"

  const HabitCategoryTable: seq<Category> := [
    Category("fitness", "\U{1F4AA} Fitness", "fitness"),
    Category("diet", "\U{1F957} Nutrition", "restaurant"),
    Category("discipline", "\U{1F9E0} Discipline", "library"),
    Category("sleep", "\U{1F634} Sleep", "moon")
  ]

  /** `HABIT_CATEGORIES.find(c => c.key === key)`: the first entry with this key. */
  function FindCategory(table: seq<Category>, key: string): (r: Option<Category>)
    ensures r.Some? ==> r.value.key == key
    ensures r.Some? ==>
              exists i :: 0 <= i < |table| && table[i] == r.value && forall j :: 0 <= j < i ==> table[j].key != key
    ensures r.None? <==> forall i :: 0 <= i < |table| ==> table[i].key != key
  {
    if table == [] then None
    else if table[0].key == key then Some(table[0])
    else
      var r := FindCategory(table[1..], key);
      assert forall i :: 0 < i < |table| ==> table[i] == table[1..][i - 1];
      r
  }

  /** No two entries of the table share a key, every caption and icon is non-empty. */
  lemma TableWellFormed()
    ensures forall i, j :: 0 <= i < j < |HabitCategoryTable| ==> HabitCategoryTable[i].key != HabitCategoryTable[j].key
    ensures forall i :: 0 <= i < |HabitCategoryTable| ==> HabitCategoryTable[i].caption != [] && HabitCategoryTable[i].icon != []
  {
  }

  /** With distinct keys, the entry found is the one entry with that key. */
  lemma FindsTheEntry(i: nat)
    requires i < |HabitCategoryTable|
    ensures FindCategory(HabitCategoryTable, HabitCategoryTable[i].key) == Some(HabitCategoryTable[i])
  {
    TableWellFormed();
    var r := FindCategory(HabitCategoryTable, HabitCategoryTable[i].key);
    var k :| 0 <= k < |HabitCategoryTable| && HabitCategoryTable[k] == r.value
             && forall j :: 0 <= j < k ==> HabitCategoryTable[j].key != HabitCategoryTable[i].key;
    assert k == i;
  }

  /**
   * `getCategoryIcon`: the table icon of a known key, `checkmark-circle` for any other
   * category.
   */
  function CategoryIcon(category: string): (r: string)
    ensures forall i :: 0 <= i < |HabitCategoryTable| && HabitCategoryTable[i].key == category ==>
              r == HabitCategoryTable[i].icon
    ensures (forall i :: 0 <= i < |HabitCategoryTable| ==> HabitCategoryTable[i].key != category) ==>
              r == FallbackIcon
    ensures r != []
  {
    TableWellFormed();
    var found := FindCategory(HabitCategoryTable, category);
    if found.Some? && found.value.icon != [] then
      assert forall i :: 0 <= i < |HabitCategoryTable| && HabitCategoryTable[i].key == category ==>
               HabitCategoryTable[i] == found.value by {
        forall i | 0 <= i < |HabitCategoryTable| && HabitCategoryTable[i].key == category {
          FindsTheEntry(i);
        }
      }
      found.value.icon
    else FallbackIcon
  }

  /** `getCategoryLabel`: the table caption of a known key, the category itself otherwise. */
  function CategoryLabel(category: string): (r: string)
    ensures forall i :: 0 <= i < |HabitCategoryTable| && HabitCategoryTable[i].key == category ==>
              r == HabitCategoryTable[i].caption
    ensures (forall i :: 0 <= i < |HabitCategoryTable| ==> HabitCategoryTable[i].key != category) ==>
              r == category
  {
    TableWellFormed();
    var found := FindCategory(HabitCategoryTable, category);
    if found.Some? && found.value.caption != [] then
      assert forall i :: 0 <= i < |HabitCategoryTable| && HabitCategoryTable[i].key == category ==>
               HabitCategoryTable[i] == found.value by {
        forall i | 0 <= i < |HabitCategoryTable| && HabitCategoryTable[i].key == category {
          FindsTheEntry(i);
        }
      }
      found.value.caption
    else category
  }

  /**
   * The label of an unknown category is the category itself, so a custom category spelled
   * like a table caption shows the same text as that table entry.
   */
  lemma LabelsCanCollide()
    ensures CategoryLabel("\U{1F4AA} Fitness") == CategoryLabel("fitness")
    ensures "\U{1F4AA} Fitness" != "fitness"
  {
    FindsTheEntry(0);
    assert CategoryLabel("fitness") == "\U{1F4AA} Fitness";
    var fake := "\U{1F4AA} Fitness";
    assert forall i :: 0 <= i < |HabitCategoryTable| ==> HabitCategoryTable[i].key != fake by {
      assert fake[0] == '\U{1F4AA}';
    }
  }

  /** `field.trim() || undefined`: absent when the field is blank, the trimmed text otherwise. */
  function OptionalText(s: string): (r: Option<string>)
    ensures r.Some? ==> r.value == Trim(s) && r.value != []
  {
    if IsBlank(s) then None else Some(Trim(s))
  }

  /** A field is left out of the request exactly when it holds nothing but white space. */
  lemma OptionalTextAbsentIffAllSpace(s: string)
    ensures OptionalText(s).None? <==> AllSpace(s)
  {
    BlankIffAllSpace(s);
  }

  /** Trimming a field first does not change what the form sends. */
  lemma OptionalTextOfTrimmed(s: string)
    ensures OptionalText(Trim(s)) == OptionalText(s)
  {
    TrimIdempotent(s);
    BlankIffAllSpace(s);
    BlankIffAllSpace(Trim(s));
  }

  /**
   * The request the add-habit form sends, if any: none for a blank name or without a user;
   * otherwise the trimmed name, the category, and the target and unit trimmed or left out
   * when blank.
   */
  function AddHabitRequest(user: Option<User>, name: string, category: string, target: string, unit: string)
    : (r: Option<Api.Endpoint>)
    ensures r.Some? <==> !IsBlank(name) && user.Some?
    ensures r.Some? ==> r.value.CreateHabit? && r.value.userId == user.value.id && r.value.category == category
    ensures r.Some? ==> r.value.name == Trim(name) && r.value.name != []
    ensures r.Some? && r.value.targetValue.Some? ==> r.value.targetValue.value == Trim(target)
    ensures r.Some? && r.value.unit.Some? ==> r.value.unit.value == Trim(unit)
  {
    if IsBlank(name) || user.None? then None
    else Some(Api.CreateHabit(user.value.id, Trim(name), category, OptionalText(target), OptionalText(unit)))
  }

  /** The target and the unit are left out of the add-habit request exactly when they are all white space. */
  lemma AddHabitRequestOptionalFields(user: Option<User>, name: string, category: string, target: string, unit: string)
    requires AddHabitRequest(user, name, category, target, unit).Some?
    ensures var e := AddHabitRequest(user, name, category, target, unit).value;
            && (e.targetValue.None? <==> AllSpace(target))
            && (e.unit.None? <==> AllSpace(unit))
  {
    OptionalTextAbsentIffAllSpace(target);
    OptionalTextAbsentIffAllSpace(unit);
  }

  /**
   * The request the log form sends, if any: none for a blank value, without a selected habit
   * or without a user; otherwise the trimmed value for the selected habit, and the notes
   * trimmed or left out when blank.
   */
  function LogHabitRequest(user: Option<User>, selected: Option<Habit>, value: string, notes: string)
    : (r: Option<Api.Endpoint>)
    ensures r.Some? <==> !IsBlank(value) && selected.Some? && user.Some?
    ensures r.Some? ==> r.value.LogHabit? && r.value.userId == user.value.id && r.value.habitId == selected.value.id
    ensures r.Some? ==> r.value.value == Trim(value) && r.value.value != []
    ensures r.Some? && r.value.notes.Some? ==> r.value.notes.value == Trim(notes)
  {
    if IsBlank(value) || selected.None? || user.None? then None
    else Some(Api.LogHabit(user.value.id, selected.value.id, Trim(value), OptionalText(notes)))
  }

  /** The notes are left out of the log request exactly when they are all white space. */
  lemma LogHabitRequestNotes(user: Option<User>, selected: Option<Habit>, value: string, notes: string)
    requires LogHabitRequest(user, selected, value, notes).Some?
    ensures LogHabitRequest(user, selected, value, notes).value.notes.None? <==> AllSpace(notes)
  {
    OptionalTextAbsentIffAllSpace(notes);
  }
}
