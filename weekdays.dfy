/**
 * The day-of-week column of the feature vector.  app.py builds a dictionary
 * from each day name to its position in the Monday-first list of names
 * (`{day: i for i, day in enumerate(names)}`) and looks the selected name
 * up in it; a name that is not a key raises a KeyError.
 */
module Weekdays {
  import opened Wrappers

  /** The seven options of the day selector, Monday first. */
  const Names: seq<string> :=
    ["Monday", "Tuesday", "Wednesday", "Thursday", "Friday", "Saturday", "Sunday"]

  /** No value occurs twice in `s`. */
  predicate Distinct(s: seq<string>) {
    forall i, j :: 0 <= i < j < |s| ==> s[i] != s[j]
  }

  /**
   * The dictionary comprehension over `enumerate(names)`: entries are
   * inserted in list order, so a name that occurs twice keeps its last index.
   */
  function Enumerated(names: seq<string>): (m: map<string, int>)
    ensures forall k :: k in m <==> k in names
    ensures forall k :: k in m ==> 0 <= m[k] < |names| && names[m[k]] == k
    ensures forall k, j :: k in m && m[k] < j < |names| ==> names[j] != k
  {
    if names == [] then map[]
    else Enumerated(names[..|names| - 1])[names[|names| - 1] := |names| - 1]
  }

  /** When the names are distinct, every name is mapped to its own position. */
  lemma EnumeratedPositions(names: seq<string>, i: int)
    requires Distinct(names)
    requires 0 <= i < |names|
    ensures names[i] in Enumerated(names) && Enumerated(names)[names[i]] == i
  {
    assert names[i] in names;
  }

  /** `day_mapping` of app.py. */
  function DayMapping(): (m: map<string, int>)
    ensures forall name :: name in m <==> name in Names
    ensures forall name :: name in m ==> 0 <= m[name] < 7 && Names[m[name]] == name
  {
    Enumerated(Names)
  }

  /** Looking a day name up in `day_mapping`; `None` is the KeyError. */
  function DayIndex(name: string): (r: Option<int>)
    ensures r.None? <==> name !in Names
    ensures r.Some? ==> 0 <= r.value < 7 && Names[r.value] == name
  {
    if name in DayMapping() then Some(DayMapping()[name]) else None
  }

  lemma NamesDistinct()
    ensures Distinct(Names)
  {
  }

  /** Each of the seven names is sent to its zero-based Monday-first position. */
  lemma DayIndexOfPosition(i: int)
    requires 0 <= i < 7
    ensures DayIndex(Names[i]) == Some(i)
  {
    NamesDistinct();
    EnumeratedPositions(Names, i);
  }

  /** Monday is day 0 and Sunday is day 6. */
  lemma DayIndexEnds()
    ensures DayIndex("Monday") == Some(0)
    ensures DayIndex("Sunday") == Some(6)
  {
    DayIndexOfPosition(0);
    DayIndexOfPosition(6);
  }

  /** Two names with the same index are the same name. */
  lemma DayIndexInjective(a: string, b: string)
    requires DayIndex(a).Some? && DayIndex(a) == DayIndex(b)
    ensures a == b
  {
  }
}
