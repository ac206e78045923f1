/**
 * The answer a participant gives to one element of a questionnaire, and the map from element
 * id to answer that questionnaires fill in. Each kind of element carries its own kind of value;
 * the kinds that take no answer carry nothing.
 */
module ElementValues {
  import opened Wrappers
  import opened Text

  datatype ElementType =
    | RadioGroup | CheckboxGroup | Slider | TextEntry | QuantityEntry | SocialNetworkEntry
    | ButtonGroup | TimeInput | ExternalQuestionnaireLink | SocialNetworkRating | Circumplex
    | LikertScaleLabel | Malformed | TextView

  /** The element kinds that hold no answer. */
  datatype AnswerlessKind =
    | LinkKind | RatingKind | CircumplexKind | LikertLabelKind | MalformedKind | TextViewKind

  /**
   * The value of an element. A slider's Double, a time input's value and the social-network
   * entries are kept as the text their `toString()` gives.
   */
  datatype Content =
    | RadioGroupValue(index: int)
    | CheckboxGroupValue(values: seq<string>)
    | SliderValue(sliderText: string)
    | TextEntryValue(text: string)
    | QuantityEntryValue(quantity: string)
    | SocialNetworkEntryValue(entries: seq<string>)
    | ButtonGroupValue(button: string)
    | TimeInputValue(timeText: string)
    | NoAnswer(kind: AnswerlessKind)

  datatype ElementValue = ElementValue(elementId: int, elementName: string, content: Content)

  /** The element type a value belongs to. */
  function TypeOf(c: Content): ElementType
  {
    match c
    case RadioGroupValue(_) => RadioGroup
    case CheckboxGroupValue(_) => CheckboxGroup
    case SliderValue(_) => Slider
    case TextEntryValue(_) => TextEntry
    case QuantityEntryValue(_) => QuantityEntry
    case SocialNetworkEntryValue(_) => SocialNetworkEntry
    case ButtonGroupValue(_) => ButtonGroup
    case TimeInputValue(_) => TimeInput
    case NoAnswer(LinkKind) => ExternalQuestionnaireLink
    case NoAnswer(RatingKind) => SocialNetworkRating
    case NoAnswer(CircumplexKind) => Circumplex
    case NoAnswer(LikertLabelKind) => LikertScaleLabel
    case NoAnswer(MalformedKind) => Malformed
    case NoAnswer(TextViewKind) => TextView
  }

  /** Kotlin's `joinToString(sep)`. */
  function JoinToString(items: seq<string>, sep: string): string
  {
    if |items| == 0 then ""
    else if |items| == 1 then items[0]
    else items[0] + sep + JoinToString(items[1..], sep)
  }

  /** Kotlin's `List.toString()`: the items between brackets, separated by ", ". */
  function ListToString(items: seq<string>): (s: string)
    ensures |s| >= 2 && s[0] == '[' && s[|s| - 1] == ']'
  {
    "[" + JoinToString(items, ", ") + "]"
  }

  /** The texts a rule compares against: "[]", "[Yes]", and items separated by a comma and a space. */
  lemma ListToStringExamples()
    ensures ListToString([]) == "[]"
    ensures ListToString(["Yes"]) == "[Yes]"
    ensures ListToString(["a", "b"]) == "[a, b]"
  {
    assert JoinToString(["a", "b"], ", ") == "a" + ", " + JoinToString(["b"], ", ");
  }

  /**
   * A `Map<Int, ElementValue>` as its entries in iteration order. Kotlin's maps here are linked
   * hash maps: a new key goes to the end, an existing key keeps its place.
   */
  type ValueMap = seq<(int, ElementValue)>

  predicate DistinctKeys(m: ValueMap)
  {
    forall i, j :: 0 <= i < j < |m| ==> m[i].0 != m[j].0
  }

  function Keys(m: ValueMap): set<int>
  {
    set i | 0 <= i < |m| :: m[i].0
  }

  lemma KeysCons(m: ValueMap)
    requires |m| > 0
    ensures Keys(m) == {m[0].0} + Keys(m[1..])
  {
    forall k | k in Keys(m) ensures k in {m[0].0} + Keys(m[1..]) {
      var i :| 0 <= i < |m| && m[i].0 == k;
      if i > 0 {
        assert m[1..][i - 1] == m[i];
      }
    }
  }

  /** `m[key]`. */
  function Get(m: ValueMap, key: int): (r: Option<ElementValue>)
    ensures r.None? <==> key !in Keys(m)
    ensures r.Some? ==> exists i :: 0 <= i < |m| && m[i] == (key, r.value)
  {
    if |m| == 0 then None
    else if m[0].0 == key then Some(m[0].1)
    else
      var r := Get(m[1..], key);
      KeysCons(m);
      assert r.Some? ==> exists i :: 0 <= i < |m| && m[i] == (key, r.value) by {
        if r.Some? {
          var i :| 0 <= i < |m[1..]| && m[1..][i] == (key, r.value);
          assert m[i + 1] == (key, r.value);
        }
      }
      r
  }

  /** `m[key] = value`: replaced in place when the key is present, appended otherwise. */
  function Put(m: ValueMap, key: int, value: ElementValue): (r: ValueMap)
    ensures |r| == if key in Keys(m) then |m| else |m| + 1
  {
    if |m| == 0 then [(key, value)]
    else if m[0].0 == key then [(key, value)] + m[1..]
    else
      KeysCons(m);
      [m[0]] + Put(m[1..], key, value)
  }

  /** After `m[key] = value` the key reads the value, every other key reads as before, and no key is lost. */
  lemma {:induction false} PutGet(m: ValueMap, key: int, value: ElementValue, other: int)
    ensures Get(Put(m, key, value), key) == Some(value)
    ensures other != key ==> Get(Put(m, key, value), other) == Get(m, other)
    ensures Keys(Put(m, key, value)) == Keys(m) + {key}
  {
    var r := Put(m, key, value);
    if |m| > 0 && m[0].0 != key {
      PutGet(m[1..], key, value, other);
      assert r[1..] == Put(m[1..], key, value);
    }
    KeysCons(r);
    if |m| > 0 {
      KeysCons(m);
      if m[0].0 == key {
        assert r[1..] == m[1..];
      }
    } else {
      assert r[1..] == [];
    }
  }
}
