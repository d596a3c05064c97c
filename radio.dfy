/**
 * The radio group: the value of the field is one option value (or
 * undefined), and clicking an option replaces it.
 */
module Radio {
  import opened Wrappers
  import opened FormTypes

  /**
   * An option is checked iff the field value is defined and equals the
   * option's value; an undefined value checks no option.
   */
  predicate IsChecked(value: Option<string>, option: SelectOption)
    ensures IsChecked(value, option) <==> value.Some? && value.value == option.value
  {
    value == Some(option.value)
  }

  /** The new field value after clicking `option`; the previous value plays no part. */
  function Choose(previous: Option<string>, option: SelectOption): (r: Option<string>)
    ensures IsChecked(r, option)
  {
    Some(option.value)
  }

  /** The indices of the options shown checked. */
  function CheckedIndices(value: Option<string>, options: seq<SelectOption>): set<nat> {
    set i: nat | i < |options| && IsChecked(value, options[i])
  }

  /** Whatever the previous value, choosing gives the option's value; choosing again changes nothing. */
  lemma ChooseIgnoresPrevious(p: Option<string>, q: Option<string>, option: SelectOption)
    ensures Choose(p, option) == Choose(q, option) == Some(option.value)
    ensures Choose(Choose(p, option), option) == Choose(p, option)
  {
  }

  /** With distinct option values, at most one option is checked, whatever the value. */
  lemma AtMostOneChecked(value: Option<string>, options: seq<SelectOption>)
    requires DistinctValues(options)
    ensures |CheckedIndices(value, options)| <= 1
  {
    var c := CheckedIndices(value, options);
    if c != {} {
      var i :| i in c;
      assert c == {i};
    }
  }

  /** Right after option `i` is chosen, it is the one option checked. */
  lemma ChooseChecksExactly(previous: Option<string>, options: seq<SelectOption>, i: nat)
    requires DistinctValues(options) && i < |options|
    ensures CheckedIndices(Choose(previous, options[i]), options) == {i}
  {
    var c := CheckedIndices(Choose(previous, options[i]), options);
    assert i in c;
  }

  /** With no errors recorded, the group shows no error text. */
  lemma NoErrorsNoText(name: string)
    ensures ErrorText(map[], name) == None
  {
  }

  /**
   * The error entry used by the component's error-display test: the
   * paragraph shows the message passed in the entry.
   */
  lemma PassedMessageShown()
    ensures ErrorText(map["radioTest" := FieldError(Some("This is an error message"))], "radioTest")
      == Some("This is an error message")
  {
  }
}
