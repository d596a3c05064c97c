/**
 * The dynamic part of the form page: questions fetched at runtime are split
 * into a radio bucket and a checkbox bucket, and every render turns them into
 * default values and validation rules keyed by the question's id, merged
 * with the static rules of the name fields.
 *
 * Validation rules are recorded as data (what was built), not evaluated.
 */
module DynamicForm {
  import opened Wrappers
  import opened Sequences
  import opened FormTypes

  datatype Answer = Answer(id: nat, answerText: string, locale: string)

  /** One question descriptor of the fetched list. */
  datatype Question = Question(
    id: nat,
    questionType: string,
    active: bool,
    questionText: string,
    additionalLabels: string,
    locale: string,
    answers: seq<Answer>,
    required: bool,
    errorMessage: string)

  /** A default field value: a string, or the empty array. */
  datatype DefaultValue = Text(s: string) | EmptyList

  /** The `.min(count, message)` check of an array rule. */
  datatype MinItems = MinItems(count: nat, message: string)

  /**
   * A validation rule as built: a string rule with an optional
   * `.required(message)`, or an array rule with an element rule (`.of`), an
   * optional minimum length and an optional `.required(message)`.
   */
  datatype Rule =
    | StringRule(required: Option<string>)
    | ArrayRule(elements: Rule, min: Option<MinItems>, required: Option<string>)

  // ---------------------------------------------------------------------
  // Partition of the fetched list
  // ---------------------------------------------------------------------

  /** The test handed to `filter`: the question has type `t`. */
  function HasType(t: string): Question -> bool {
    (q: Question) => q.questionType == t
  }

  /** The questions of type `t`, in the order they were fetched. */
  function Bucket(data: seq<Question>, t: string): seq<Question> {
    Filter(data, HasType(t))
  }

  /** The radio bucket: no longer than the fetched list, and only RADIO questions. */
  function RadioBucket(data: seq<Question>): (r: seq<Question>)
    ensures |r| <= |data|
    ensures forall i :: 0 <= i < |r| ==> r[i].questionType == "RADIO"
  {
    Bucket(data, "RADIO")
  }

  /** The checkbox bucket: no longer than the fetched list, and only CHECKBOX questions. */
  function CheckboxBucket(data: seq<Question>): (r: seq<Question>)
    ensures |r| <= |data|
    ensures forall i :: 0 <= i < |r| ==> r[i].questionType == "CHECKBOX"
  {
    Bucket(data, "CHECKBOX")
  }

  /**
   * A bucket holds exactly the questions of its type: each as often as in
   * the fetched list, no other question, and in the original order.
   */
  lemma BucketIsExact(data: seq<Question>, t: string)
    ensures forall q :: q in Bucket(data, t) <==> q in data && q.questionType == t
    ensures forall q :: multiset(Bucket(data, t))[q] == if q.questionType == t then multiset(data)[q] else 0
    ensures IsSubsequence(Bucket(data, t), data)
  {
    forall q ensures q in Bucket(data, t) <==> q in data && q.questionType == t {
      FilterMembership(data, HasType(t), q);
    }
    forall q ensures multiset(Bucket(data, t))[q] == if q.questionType == t then multiset(data)[q] else 0 {
      FilterCount(data, HasType(t), q);
    }
    FilterIsSubsequence(data, HasType(t));
  }

  /** A question of any other type lands in neither bucket, and no question lands in both. */
  lemma BucketsSeparate(data: seq<Question>, q: Question)
    ensures q in RadioBucket(data) ==> q !in CheckboxBucket(data)
    ensures q.questionType != "RADIO" && q.questionType != "CHECKBOX" ==>
      q !in RadioBucket(data) && q !in CheckboxBucket(data)
  {
    FilterMembership(data, HasType("RADIO"), q);
    FilterMembership(data, HasType("CHECKBOX"), q);
  }

  /**
   * Neither filter looks at `active` (nor at `locale`): an inactive RADIO
   * question is kept in the radio bucket and gets its rule all the same.
   */
  lemma InactiveQuestionKept(q: Question)
    requires q.questionType == "RADIO" && !q.active
    ensures RadioBucket([q]) == [q]
    ensures SynthesizedRules(map[], RadioBucket([q]), CheckboxBucket([q])) == map[Key(q) := RadioRule(q)]
  {
    assert [q][1..] == [];
    assert CheckboxBucket([q]) == [];
    assert [q][..0] == [];
    var afterRadios := WriteAll(map[], [q], RadioRule);
    assert afterRadios == WriteAll(map[], [], RadioRule)[Key(q) := RadioRule(q)];
    assert WriteAll(afterRadios, [], CheckboxRule) == afterRadios;
  }

  /**
   * The options a question is rendered with: one per answer, in order, whose
   * label and stored value are both the answer's text.
   */
  function AnswerOptions(q: Question): (r: seq<SelectOption>)
    ensures |r| == |q.answers|
    ensures forall i :: 0 <= i < |r| ==> r[i].key == r[i].value == q.answers[i].answerText
  {
    seq(|q.answers|, i requires 0 <= i < |q.answers| =>
      SelectOption(q.answers[i].answerText, q.answers[i].answerText))
  }

  /** A question's options have distinct values exactly when its answers have distinct texts. */
  lemma AnswerOptionsDistinct(q: Question)
    ensures DistinctValues(AnswerOptions(q)) <==>
      forall i, j :: 0 <= i < j < |q.answers| ==> q.answers[i].answerText != q.answers[j].answerText
  {
  }

  // ---------------------------------------------------------------------
  // Field names: the decimal form of a question id
  // ---------------------------------------------------------------------

  predicate IsDigit(c: char) {
    '0' <= c <= '9'
  }

  /** A non-empty string of decimal digits: the shape of every id key. */
  predicate IsIdKey(k: string) {
    |k| >= 1 && forall i :: 0 <= i < |k| ==> IsDigit(k[i])
  }

  function Digit(d: nat): (c: char)
    requires d < 10
    ensures IsDigit(c)
  {
    ('0' as int + d) as char
  }

  function DigitValue(c: char): nat
    requires IsDigit(c)
  {
    c as int - '0' as int
  }

  /**
   * The decimal digits of `n`, without leading zeros. This is `id.toString()`
   * for every id up to 2^53 - 1 (`Number.MAX_SAFE_INTEGER`). A JavaScript
   * number above that prints the shortest digits that round-trip, padded with
   * zeros, so the digits may differ from these.
   */
  function DecimalString(n: nat): (r: string)
    ensures IsIdKey(r)
    ensures r[0] == '0' ==> n == 0
    decreases n
  {
    if n < 10 then [Digit(n)] else DecimalString(n / 10) + [Digit(n % 10)]
  }

  /** Reads a string of decimal digits back as a number. */
  function ParseDecimal(s: string): nat
    requires forall i :: 0 <= i < |s| ==> IsDigit(s[i])
    decreases |s|
  {
    if s == [] then 0 else ParseDecimal(s[..|s| - 1]) * 10 + DigitValue(s[|s| - 1])
  }

  /** Reading the decimal form of `n` gives back `n`. */
  lemma {:induction false} ParseDecimalString(n: nat)
    ensures ParseDecimal(DecimalString(n)) == n
    decreases n
  {
    var s := DecimalString(n);
    if n >= 10 {
      ParseDecimalString(n / 10);
      assert s[..|s| - 1] == DecimalString(n / 10);
    }
  }

  /** Distinct ids get distinct field names. */
  lemma DecimalStringInjective(a: nat, b: nat)
    ensures DecimalString(a) == DecimalString(b) ==> a == b
  {
    ParseDecimalString(a);
    ParseDecimalString(b);
  }

  /** The field name a question is bound to. */
  function Key(q: Question): string {
    DecimalString(q.id)
  }

  /** The field names of a list of questions. */
  function KeysOf(qs: seq<Question>): set<string> {
    set i | 0 <= i < |qs| :: Key(qs[i])
  }

  /** No id key is the name of one of the static fields. */
  lemma StaticNamesAreNotIdKeys()
    ensures !IsIdKey("firstName") && !IsIdKey("lastName") && !IsIdKey("email")
  {
    assert !IsDigit("firstName"[0]) && !IsDigit("lastName"[0]) && !IsDigit("email"[0]);
  }

  // ---------------------------------------------------------------------
  // The writes made by the synthesis loops
  // ---------------------------------------------------------------------

  /** The index of the last question in `qs` bound to field `k`, or -1 if there is none. */
  function LastIndexOfKey(qs: seq<Question>, k: string): (r: int)
    ensures -1 <= r < |qs|
    ensures r >= 0 ==> Key(qs[r]) == k
    ensures forall j :: r < j < |qs| ==> Key(qs[j]) != k
    decreases |qs|
  {
    if qs == [] then -1
    else if Key(qs[|qs| - 1]) == k then |qs| - 1
    else LastIndexOfKey(qs[..|qs| - 1], k)
  }

  /** A field has a question in `qs` exactly when the search from the end finds one. */
  lemma LastIndexFinds(qs: seq<Question>, k: string)
    ensures k in KeysOf(qs) <==> LastIndexOfKey(qs, k) >= 0
  {
    var r := LastIndexOfKey(qs, k);
    if r >= 0 {
      assert Key(qs[r]) in KeysOf(qs);
    }
  }

  /**
   * `target[item.id.toString()] = value(item)` for every item of `qs`, in
   * order: the map once the loop over `qs` has run from `m`.
   */
  function WriteAll<V>(m: map<string, V>, qs: seq<Question>, value: Question -> V): (r: map<string, V>)
    ensures m.Keys <= r.Keys
    ensures forall i :: 0 <= i < |qs| ==> Key(qs[i]) in r
    decreases |qs|
  {
    if qs == [] then m
    else WriteAll(m, qs[..|qs| - 1], value)[Key(qs[|qs| - 1]) := value(qs[|qs| - 1])]
  }

  /** One more iteration of the loop over `qs` adds the write of question `i`. */
  lemma WriteAllStep<V>(m: map<string, V>, qs: seq<Question>, value: Question -> V, i: nat)
    requires i < |qs|
    ensures WriteAll(m, qs[..i + 1], value) == WriteAll(m, qs[..i], value)[Key(qs[i]) := value(qs[i])]
  {
    assert qs[..i + 1][..i] == qs[..i];
  }

  /**
   * After the writes, the fields are the old ones plus those of `qs`; each
   * field of `qs` holds the value of the LAST question bound to it, every
   * other field its old value.
   */
  lemma {:induction false} WriteAllSpec<V>(m: map<string, V>, qs: seq<Question>, value: Question -> V, k: string)
    ensures k in WriteAll(m, qs, value) <==> k in m || k in KeysOf(qs)
    ensures k in WriteAll(m, qs, value) ==>
      WriteAll(m, qs, value)[k] == if k in KeysOf(qs) then value(qs[LastIndexOfKey(qs, k)]) else m[k]
    decreases |qs|
  {
    LastIndexFinds(qs, k);
    if qs != [] {
      var init := qs[..|qs| - 1];
      WriteAllSpec(m, init, value, k);
      LastIndexFinds(init, k);
    }
  }

  /** The writes add exactly the questions' fields: none is ever removed, no other is added. */
  lemma WriteAllKeys<V>(m: map<string, V>, qs: seq<Question>, value: Question -> V)
    ensures WriteAll(m, qs, value).Keys == m.Keys + KeysOf(qs)
  {
    forall k ensures k in WriteAll(m, qs, value) <==> k in m || k in KeysOf(qs) {
      WriteAllSpec(m, qs, value, k);
    }
  }

  /** Running the same writes a second time changes nothing. */
  lemma WriteAllTwice<V>(m: map<string, V>, qs: seq<Question>, value: Question -> V)
    ensures WriteAll(WriteAll(m, qs, value), qs, value) == WriteAll(m, qs, value)
  {
    var once := WriteAll(m, qs, value);
    var twice := WriteAll(once, qs, value);
    forall k ensures k in twice <==> k in once {
      WriteAllSpec(m, qs, value, k);
      WriteAllSpec(once, qs, value, k);
    }
    forall k | k in twice ensures twice[k] == once[k] {
      WriteAllSpec(m, qs, value, k);
      WriteAllSpec(once, qs, value, k);
    }
  }

  // ---------------------------------------------------------------------
  // What one render builds
  // ---------------------------------------------------------------------

  function RadioDefault(q: Question): DefaultValue {
    Text("")
  }

  function CheckboxDefault(q: Question): DefaultValue {
    EmptyList
  }

  /**
   * The rule a radio question's loop body leaves behind: a string rule that
   * carries a required check, with the question's message, iff the question
   * is required.
   */
  function RadioRule(q: Question): (r: Rule)
    ensures r.StringRule?
    ensures r.required.Some? <==> q.required
    ensures r.required.Some? ==> r.required.value == q.errorMessage
  {
    if q.required then StringRule(Some(q.errorMessage)) else StringRule(None)
  }

  /**
   * The rule a checkbox question's loop body leaves behind: an array of
   * string rules. A required question adds a required check on each element,
   * a minimum of one element and a required check on the array, all with its
   * message; otherwise there is none of the three.
   */
  function CheckboxRule(q: Question): (r: Rule)
    ensures r.ArrayRule? && r.elements.StringRule?
    ensures r.elements.required.Some? <==> q.required
    ensures r.min.Some? <==> q.required
    ensures r.required.Some? <==> q.required
    ensures q.required ==>
      r.elements.required.value == r.required.value == q.errorMessage && r.min.value == MinItems(1, q.errorMessage)
  {
    if q.required then
      ArrayRule(StringRule(Some(q.errorMessage)), Some(MinItems(1, q.errorMessage)), Some(q.errorMessage))
    else
      ArrayRule(StringRule(None), None, None)
  }

  /** The defaults every render starts from. */
  function StaticDefaults(): (r: map<string, DefaultValue>)
    ensures r.Keys == {"firstName", "lastName", "email"}
    ensures forall k :: k in r ==> r[k] == Text("")
  {
    map["firstName" := Text(""), "lastName" := Text(""), "email" := Text("")]
  }

  /** The rules of the name fields, written into the schema before the dynamic ones. */
  function StaticRules(): (r: map<string, Rule>)
    ensures r.Keys == {"firstName", "lastName"}
    ensures forall k :: k in r ==> r[k].StringRule? && r[k].required.Some?
  {
    map["firstName" := StringRule(Some("First Name is a required field")),
        "lastName" := StringRule(Some("Last Name is a required field"))]
  }

  /**
   * The default values one render computes: the static defaults, then the
   * radio writes, then the checkbox writes. Every static field and every
   * question's field has a default.
   */
  function InitialValues(radios: seq<Question>, checkboxes: seq<Question>): (r: map<string, DefaultValue>)
    ensures "firstName" in r && "lastName" in r && "email" in r
    ensures forall i :: 0 <= i < |radios| ==> Key(radios[i]) in r
    ensures forall i :: 0 <= i < |checkboxes| ==> Key(checkboxes[i]) in r
  {
    WriteAll(WriteAll(StaticDefaults(), radios, RadioDefault), checkboxes, CheckboxDefault)
  }

  /**
   * The rule dictionary after one render: the rules earlier renders left,
   * then the radio writes, then the checkbox writes. No earlier field is
   * lost, and every question's field has a rule.
   */
  function SynthesizedRules(rules: map<string, Rule>, radios: seq<Question>, checkboxes: seq<Question>): (r: map<string, Rule>)
    ensures rules.Keys <= r.Keys
    ensures forall i :: 0 <= i < |radios| ==> Key(radios[i]) in r
    ensures forall i :: 0 <= i < |checkboxes| ==> Key(checkboxes[i]) in r
  {
    WriteAll(WriteAll(rules, radios, RadioRule), checkboxes, CheckboxRule)
  }

  /**
   * The static rules followed by the dynamic ones: the fields are the two
   * name fields and every rule field; on a shared field the dynamic rule
   * wins, elsewhere the static rule stands; "email" is in the schema only
   * if it is a rule field.
   */
  function Schema(rules: map<string, Rule>): (r: map<string, Rule>)
    ensures r.Keys == {"firstName", "lastName"} + rules.Keys
    ensures forall k :: k in rules ==> r[k] == rules[k]
    ensures forall k :: k in StaticRules() && k !in rules ==> r[k] == StaticRules()[k]
    ensures "email" in r <==> "email" in rules
  {
    StaticRules() + rules
  }

  /**
   * The default values: the three static fields hold "", a checkbox field
   * holds [] and a field only a radio question uses holds "", and there are
   * no other fields.
   */
  lemma InitialValuesSpec(radios: seq<Question>, checkboxes: seq<Question>, k: string)
    ensures k in InitialValues(radios, checkboxes) <==>
      k in {"firstName", "lastName", "email"} || k in KeysOf(radios) || k in KeysOf(checkboxes)
    ensures k in {"firstName", "lastName", "email"} ==> InitialValues(radios, checkboxes)[k] == Text("")
    ensures k in KeysOf(checkboxes) ==> InitialValues(radios, checkboxes)[k] == EmptyList
    ensures k in KeysOf(radios) && k !in KeysOf(checkboxes) ==> InitialValues(radios, checkboxes)[k] == Text("")
  {
    var afterRadios := WriteAll(StaticDefaults(), radios, RadioDefault);
    WriteAllSpec(StaticDefaults(), radios, RadioDefault, k);
    WriteAllSpec(afterRadios, checkboxes, CheckboxDefault, k);
    if k in {"firstName", "lastName", "email"} {
      StaticNamesAreNotIdKeys();
      KeysOfAreIdKeys(radios, k);
      KeysOfAreIdKeys(checkboxes, k);
    }
  }

  /** Every field name of a list of questions is an id key. */
  lemma KeysOfAreIdKeys(qs: seq<Question>, k: string)
    requires !IsIdKey(k)
    ensures k !in KeysOf(qs)
  {
  }

  /**
   * The rules after a render: the earlier fields plus the fields of both
   * buckets; a checkbox field holds the rule of the last checkbox question
   * bound to it, a field only radio questions use holds the rule of the
   * last of them, and every other field keeps its earlier rule.
   */
  lemma SynthesizedRulesSpec(rules: map<string, Rule>, radios: seq<Question>, checkboxes: seq<Question>, k: string)
    ensures k in SynthesizedRules(rules, radios, checkboxes) <==>
      k in rules || k in KeysOf(radios) || k in KeysOf(checkboxes)
    ensures k in KeysOf(checkboxes) ==>
      SynthesizedRules(rules, radios, checkboxes)[k] == CheckboxRule(checkboxes[LastIndexOfKey(checkboxes, k)])
    ensures k in KeysOf(radios) && k !in KeysOf(checkboxes) ==>
      SynthesizedRules(rules, radios, checkboxes)[k] == RadioRule(radios[LastIndexOfKey(radios, k)])
    ensures k in rules && k !in KeysOf(radios) && k !in KeysOf(checkboxes) ==>
      SynthesizedRules(rules, radios, checkboxes)[k] == rules[k]
  {
    WriteAllSpec(rules, radios, RadioRule, k);
    WriteAllSpec(WriteAll(rules, radios, RadioRule), checkboxes, CheckboxRule, k);
  }

  /** A second render over the same buckets leaves the rule dictionary as the first left it. */
  lemma SynthesisIdempotent(rules: map<string, Rule>, radios: seq<Question>, checkboxes: seq<Question>)
    ensures SynthesizedRules(SynthesizedRules(rules, radios, checkboxes), radios, checkboxes)
      == SynthesizedRules(rules, radios, checkboxes)
  {
    var once := SynthesizedRules(rules, radios, checkboxes);
    var twice := SynthesizedRules(once, radios, checkboxes);
    forall k ensures k in twice <==> k in once {
      SynthesizedRulesSpec(rules, radios, checkboxes, k);
      SynthesizedRulesSpec(once, radios, checkboxes, k);
    }
    forall k | k in twice ensures twice[k] == once[k] {
      SynthesizedRulesSpec(rules, radios, checkboxes, k);
      SynthesizedRulesSpec(once, radios, checkboxes, k);
    }
  }

  /**
   * Defaults and rules agree on every dynamic field: [] goes with an array
   * rule and "" with a string rule.
   */
  lemma DefaultsMatchRules(rules: map<string, Rule>, radios: seq<Question>, checkboxes: seq<Question>, k: string)
    requires k in KeysOf(radios) || k in KeysOf(checkboxes)
    ensures k in InitialValues(radios, checkboxes) && k in SynthesizedRules(rules, radios, checkboxes)
    ensures InitialValues(radios, checkboxes)[k] == EmptyList <==> SynthesizedRules(rules, radios, checkboxes)[k].ArrayRule?
    ensures InitialValues(radios, checkboxes)[k] == Text("") <==> SynthesizedRules(rules, radios, checkboxes)[k].StringRule?
  {
    InitialValuesSpec(radios, checkboxes, k);
    SynthesizedRulesSpec(rules, radios, checkboxes, k);
  }

  /**
   * When every rule field is an id key, the name fields keep their static
   * rules and "email" has no rule.
   */
  lemma StaticRulesStand(rules: map<string, Rule>)
    requires forall k :: k in rules ==> IsIdKey(k)
    ensures Schema(rules)["firstName"] == StringRule(Some("First Name is a required field"))
    ensures Schema(rules)["lastName"] == StringRule(Some("Last Name is a required field"))
    ensures "email" !in Schema(rules)
  {
    StaticNamesAreNotIdKeys();
  }

  // ---------------------------------------------------------------------
  // The page component
  // ---------------------------------------------------------------------

  /**
   * The page's state: the two question buckets (component state, empty
   * until the fetch completes) and the rule dictionary, which is memoized
   * once and so lives across renders.
   */
  class App {
    var radioQuestions: seq<Question>
    var checkboxQuestions: seq<Question>
    var validationRules: map<string, Rule>

    /** Only id keys are ever written into the rule dictionary. */
    ghost predicate Valid()
      reads this
    {
      forall k :: k in validationRules ==> IsIdKey(k)
    }

    constructor ()
      ensures Valid()
      ensures radioQuestions == [] && checkboxQuestions == [] && validationRules == map[]
    {
      radioQuestions := [];
      checkboxQuestions := [];
      validationRules := map[];
    }

    /** The fetch handler: store both buckets of the fetched list. */
    method ReceiveQuestions(data: seq<Question>)
      requires Valid()
      modifies this`radioQuestions, this`checkboxQuestions
      ensures Valid()
      ensures radioQuestions == RadioBucket(data)
      ensures checkboxQuestions == CheckboxBucket(data)
      ensures unchanged(this`validationRules)
    {
      radioQuestions := RadioBucket(data);
      checkboxQuestions := CheckboxBucket(data);
    }

    /**
     * One render: build the default values afresh, write the rules of both
     * buckets into the persistent dictionary and merge it into the schema.
     */
    method Render() returns (initialValues: map<string, DefaultValue>, schema: map<string, Rule>)
      requires Valid()
      modifies this`validationRules
      ensures Valid()
      ensures validationRules == SynthesizedRules(old(validationRules), radioQuestions, checkboxQuestions)
      ensures initialValues == InitialValues(radioQuestions, checkboxQuestions)
      ensures schema == Schema(validationRules)
    {
      initialValues := StaticDefaults();
      initialValues := WriteRadioFields(initialValues);
      initialValues := WriteCheckboxFields(initialValues);
      schema := StaticRules() + validationRules;
    }

    /** The `forEach` over the radio bucket: a "" default and a string rule per question. */
    method WriteRadioFields(values: map<string, DefaultValue>) returns (initialValues: map<string, DefaultValue>)
      requires Valid()
      modifies this`validationRules
      ensures Valid()
      ensures initialValues == WriteAll(values, radioQuestions, RadioDefault)
      ensures validationRules == WriteAll(old(validationRules), radioQuestions, RadioRule)
    {
      ghost var rules0 := validationRules;
      initialValues := values;
      var i := 0;
      while i < |radioQuestions|
        invariant 0 <= i <= |radioQuestions|
        invariant initialValues == WriteAll(values, radioQuestions[..i], RadioDefault)
        invariant validationRules == WriteAll(rules0, radioQuestions[..i], RadioRule)
        invariant Valid()
      {
        var item := radioQuestions[i];
        var key := DecimalString(item.id);
        ghost var before := validationRules;
        initialValues := initialValues[key := Text("")];
        validationRules := validationRules[key := StringRule(None)];
        if item.required {
          validationRules := validationRules[key := StringRule(Some(item.errorMessage))];
        }
        assert validationRules == before[Key(item) := RadioRule(item)];
        WriteAllStep(values, radioQuestions, RadioDefault, i);
        WriteAllStep(rules0, radioQuestions, RadioRule, i);
        i := i + 1;
      }
      assert radioQuestions[..i] == radioQuestions;
    }

    /** The `forEach` over the checkbox bucket: a [] default and an array rule per question. */
    method WriteCheckboxFields(values: map<string, DefaultValue>) returns (initialValues: map<string, DefaultValue>)
      requires Valid()
      modifies this`validationRules
      ensures Valid()
      ensures initialValues == WriteAll(values, checkboxQuestions, CheckboxDefault)
      ensures validationRules == WriteAll(old(validationRules), checkboxQuestions, CheckboxRule)
    {
      ghost var rules0 := validationRules;
      initialValues := values;
      var j := 0;
      while j < |checkboxQuestions|
        invariant 0 <= j <= |checkboxQuestions|
        invariant initialValues == WriteAll(values, checkboxQuestions[..j], CheckboxDefault)
        invariant validationRules == WriteAll(rules0, checkboxQuestions[..j], CheckboxRule)
        invariant Valid()
      {
        var item := checkboxQuestions[j];
        var key := DecimalString(item.id);
        ghost var before := validationRules;
        initialValues := initialValues[key := EmptyList];
        validationRules := validationRules[key := ArrayRule(StringRule(None), None, None)];
        if item.required {
          validationRules := validationRules[key :=
            ArrayRule(StringRule(Some(item.errorMessage)), Some(MinItems(1, item.errorMessage)), Some(item.errorMessage))];
        }
        assert validationRules == before[Key(item) := CheckboxRule(item)];
        WriteAllStep(values, checkboxQuestions, CheckboxDefault, j);
        WriteAllStep(rules0, checkboxQuestions, CheckboxRule, j);
        j := j + 1;
      }
      assert checkboxQuestions[..j] == checkboxQuestions;
    }
  }

  /**
   * The page's life from mount: a first render with no questions, the
   * fetch handler storing the buckets of `data`, and the render that
   * follows (the two setters batched into one update; see
   * `UnbatchedRenderSameRules` for the case they are not). The second
   * render's defaults and schema cover exactly the fetched radio and
   * checkbox questions besides the static fields.
   */
  method MountAndLoad(data: seq<Question>) returns (initialValues: map<string, DefaultValue>, schema: map<string, Rule>)
    ensures initialValues == InitialValues(RadioBucket(data), CheckboxBucket(data))
    ensures schema == Schema(SynthesizedRules(map[], RadioBucket(data), CheckboxBucket(data)))
    ensures schema.Keys == {"firstName", "lastName"} + KeysOf(RadioBucket(data)) + KeysOf(CheckboxBucket(data))
    ensures schema["firstName"] == StringRule(Some("First Name is a required field"))
    ensures "email" in initialValues && "email" !in schema
  {
    var app := new App();
    var _, _ := app.Render();
    app.ReceiveQuestions(data);
    initialValues, schema := app.Render();
    ghost var radios, checkboxes := RadioBucket(data), CheckboxBucket(data);
    FirstSchemaKeys(radios, checkboxes);
    StaticRulesStand(app.validationRules);
    InitialValuesSpec(radios, checkboxes, "email");
  }

  /**
   * The two bucket setters of the fetch handler may cause one render with
   * only the radio bucket filled before the render with both. That extra
   * render leaves the same rule dictionary in the end.
   */
  lemma UnbatchedRenderSameRules(rules: map<string, Rule>, radios: seq<Question>, checkboxes: seq<Question>)
    ensures SynthesizedRules(SynthesizedRules(rules, radios, []), radios, checkboxes)
      == SynthesizedRules(rules, radios, checkboxes)
  {
    var afterRadios := WriteAll(rules, radios, RadioRule);
    assert SynthesizedRules(rules, radios, []) == afterRadios;
    WriteAllTwice(rules, radios, RadioRule);
  }

  /** Rules synthesized from nothing cover exactly the buckets' fields, so the schema adds only the name fields. */
  lemma FirstSchemaKeys(radios: seq<Question>, checkboxes: seq<Question>)
    ensures Schema(SynthesizedRules(map[], radios, checkboxes)).Keys
      == {"firstName", "lastName"} + KeysOf(radios) + KeysOf(checkboxes)
  {
    WriteAllKeys(map[], radios, RadioRule);
    WriteAllKeys(WriteAll(map[], radios, RadioRule), checkboxes, CheckboxRule);
  }
}
