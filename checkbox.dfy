/**
 * The checkbox group: the value of the field is a list of the selected
 * option values (or undefined before the first change), and clicking an
 * option toggles that value's membership in the list.
 */
module Checkbox {
  import opened Wrappers
  import opened Sequences
  import opened FormTypes

  /** The list an absent field value stands for (`field.value ?? []`). */
  function Selected(value: Option<seq<string>>): seq<string> {
    value.GetOr([])
  }

  /** `field.value?.includes(v)`: false when the field value is undefined. */
  predicate Includes(value: Option<seq<string>>, v: string) {
    value.Some? && v in value.value
  }

  /**
   * An option's box is checked iff some position of the field value holds
   * the option's value.
   */
  predicate IsChecked(value: Option<seq<string>>, option: SelectOption)
    ensures IsChecked(value, option) <==>
      exists i :: 0 <= i < |Selected(value)| && Selected(value)[i] == option.value
  {
    assert Includes(value, option.value) <==> option.value in Selected(value);
    Includes(value, option.value)
  }

  /** The test handed to `filter` when `v` is unselected: keep every other value. */
  function Other(v: string): string -> bool {
    (x: string) => x != v
  }

  /**
   * The new field value computed by `onChange` for the option whose value is
   * `v`: it holds `v` iff the old value did not, and it grows by at most the
   * one appended element.
   */
  function Toggle(value: Option<seq<string>>, v: string): (r: seq<string>)
    ensures v in r <==> !Includes(value, v)
    ensures |r| <= |Selected(value)| + 1
  {
    if Includes(value, v) then
      FilterMembership(value.value, Other(v), v);
      Filter(value.value, Other(v))
    else Selected(value) + [v]
  }

  /** The indices of the options shown checked. */
  function CheckedIndices(value: Option<seq<string>>, options: seq<SelectOption>): set<nat> {
    set i: nat | i < |options| && IsChecked(value, options[i])
  }

  /** Toggling an unselected value appends it after the list, which is otherwise unchanged. */
  lemma ToggleOnAppends(value: Option<seq<string>>, v: string)
    requires !Includes(value, v)
    ensures var r := Toggle(value, v);
      |r| == |Selected(value)| + 1 && r[..|Selected(value)|] == Selected(value) && r[|Selected(value)|] == v
  {
    var r := Toggle(value, v);
    assert r[..|Selected(value)|] == Selected(value);
  }

  /** The first toggle of an undefined field value yields the one-element list. */
  lemma ToggleUndefined(v: string)
    ensures Toggle(None, v) == [v]
  {
  }

  /**
   * Toggling a selected value removes every occurrence of it and keeps each
   * other value, as often as before and in the original order.
   */
  lemma ToggleOffRemovesAll(s: seq<string>, v: string)
    requires v in s
    ensures v !in Toggle(Some(s), v)
    ensures forall x :: x != v ==> multiset(Toggle(Some(s), v))[x] == multiset(s)[x]
    ensures IsSubsequence(Toggle(Some(s), v), s)
  {
    FilterMembership(s, Other(v), v);
    forall x | x != v ensures multiset(Toggle(Some(s), v))[x] == multiset(s)[x] {
      FilterCount(s, Other(v), x);
    }
    FilterIsSubsequence(s, Other(v));
  }

  /** A toggle flips the toggled value's membership and leaves every other value's alone. */
  lemma ToggleFlipsMembership(value: Option<seq<string>>, v: string, x: string)
    ensures Includes(Some(Toggle(value, v)), x) == if x == v then !Includes(value, v) else Includes(value, x)
  {
    if Includes(value, v) {
      FilterMembership(value.value, Other(v), x);
    }
  }

  /** A list without duplicates stays without duplicates. */
  lemma ToggleKeepsDistinct(value: Option<seq<string>>, v: string)
    requires Distinct(Selected(value))
    ensures Distinct(Toggle(value, v))
  {
    if Includes(value, v) {
      FilterDistinct(value.value, Other(v));
    } else {
      DistinctSnoc(Selected(value), v);
    }
  }

  /** Toggling an unselected value twice gives back the list it started from. */
  lemma ToggleTwiceRestores(value: Option<seq<string>>, v: string)
    requires !Includes(value, v)
    ensures Toggle(Some(Toggle(value, v)), v) == Selected(value)
  {
    var s := Selected(value);
    assert v in s + [v];
    FilterAppend(s, [v], Other(v));
    assert Filter([v], Other(v)) == Filter([], Other(v));
    FilterKeepsAll(s, Other(v));
  }

  /** Toggling a selected value twice moves it, once, to the end of the remaining values. */
  lemma ToggleTwiceMovesToEnd(s: seq<string>, v: string)
    requires v in s
    ensures Toggle(Some(Toggle(Some(s), v)), v) == Filter(s, Other(v)) + [v]
  {
    FilterMembership(s, Other(v), v);
  }

  /**
   * With distinct option values, toggling option `i` changes the set of
   * checked boxes in exactly one place: box `i`.
   */
  lemma ToggleChangesOneBox(value: Option<seq<string>>, options: seq<SelectOption>, i: nat)
    requires DistinctValues(options) && i < |options|
    ensures var before := CheckedIndices(value, options);
      CheckedIndices(Some(Toggle(value, options[i].value)), options)
        == if i in before then before - {i} else before + {i}
  {
    var v := options[i].value;
    var before := CheckedIndices(value, options);
    var after := CheckedIndices(Some(Toggle(value, v)), options);
    forall j: nat | j < |options| ensures j in after <==> (if j == i then i !in before else j in before) {
      ToggleFlipsMembership(value, v, options[j].value);
    }
  }
}
