/**
 * `org.json` values as the app builds and reads them: a `JSONObject` is a map from keys to
 * values, a `JSONArray` a sequence. Numbers are exact (`JNum` for integers, `JReal` for
 * floating-point values); the JSON text itself is not modelled.
 *
 * Object keys are the field names the app writes and reads, one constructor each; `KeyName`
 * is the key's text. A `JNum` is a whole number as `org.json` holds it, an `Integer` or a `Long`.
 *
 * The getters convert as Android's `org.json` does (`getString` writes any value as text,
 * `getInt` reads a numeric string, `getBoolean` reads "true" and "false") and return `None`
 * where it throws: a missing key, or a value the conversion refuses.
 */
module Json {
  import opened Wrappers
  import Text

  datatype Key =
    // ScreenSnapshot, TreeSkeleton, SkeletonNode, InteractionEvent
    | Timestamp | AppPackage | Framework | Skeleton | Interaction | Signature | Nodes
    | Id | ParentId | Type | Depth | Region | SizeClass | RelativeX | RelativeY | RelativeWidth | RelativeHeight
    | Clickable | Scrollable | Editable | Focusable | HasText | TextCategory | HasImage | Role
    | TargetNodeId | TapX | TapY
    // a snapshot batch
    | Count | Snapshots
    // QuestionnaireElement
    | QuestionnaireId | Name | Step | Position | Configuration | TextContent | Options | Alignment | Min | Max | StepSize
    | Hint | UrlParams | ParamKey | ParamValue | ExternalUrl | ActionText | RatingQuestionnaireId | ImageUrl
    | Clip | Top | Bottom | Left | Right

  /** The key as it appears in the JSON text. */
  function KeyName(k: Key): string
  {
    match k
    case Timestamp => "timestamp"
    case AppPackage => "appPackage"
    case Framework => "framework"
    case Skeleton => "skeleton"
    case Interaction => "interaction"
    case Signature => "signature"
    case Nodes => "nodes"
    case Id => "id"
    case ParentId => "parentId"
    case Type => "type"
    case Depth => "depth"
    case Region => "region"
    case SizeClass => "sizeClass"
    case RelativeX => "relativeX"
    case RelativeY => "relativeY"
    case RelativeWidth => "relativeWidth"
    case RelativeHeight => "relativeHeight"
    case Clickable => "clickable"
    case Scrollable => "scrollable"
    case Editable => "editable"
    case Focusable => "focusable"
    case HasText => "hasText"
    case TextCategory => "textCategory"
    case HasImage => "hasImage"
    case Role => "role"
    case TargetNodeId => "targetNodeId"
    case TapX => "tapX"
    case TapY => "tapY"
    case Count => "count"
    case Snapshots => "snapshots"
    case QuestionnaireId => "questionnaireId"
    case Name => "name"
    case Step => "step"
    case Position => "position"
    case Configuration => "configuration"
    case TextContent => "text"
    case Options => "options"
    case Alignment => "alignment"
    case Min => "min"
    case Max => "max"
    case StepSize => "stepSize"
    case Hint => "hint"
    case UrlParams => "urlParams"
    case ParamKey => "key"
    case ParamValue => "value"
    case ExternalUrl => "externalUrl"
    case ActionText => "actionText"
    case RatingQuestionnaireId => "ratingQuestionnaireId"
    case ImageUrl => "imageUrl"
    case Clip => "clip"
    case Top => "top"
    case Bottom => "bottom"
    case Left => "left"
    case Right => "right"
  }

  datatype Json =
    | JNull
    | JBool(b: bool)
    | JNum(n: int)
    | JReal(r: real)
    | JString(s: string)
    | JArray(items: seq<Json>)
    | JObject(fields: map<Key, Json>)

  /** `has(key)` */
  predicate Has(o: Json, key: Key)
  {
    o.JObject? && key in o.fields
  }

  /**
   * `JSON.toString(value)`, which `getString` applies: a string as it is, any other value as
   * `String.valueOf` writes it. A floating-point number, an array and an object have texts too,
   * which are not modelled (None).
   */
  function AsText(v: Json): (r: Option<string>)
    ensures r.Some? <==> !(v.JReal? || v.JArray? || v.JObject?)
    ensures v.JString? ==> r == Some(v.s)
  {
    match v
    case JString(s) => Some(s)
    case JNull => Some("null")
    case JBool(b) => Some(if b then "true" else "false")
    case JNum(n) => Some(Text.IntToString(n))
    case _ => None
  }

  /** Java's `String.trim()`: the characters up to U+0020 are cut from both ends. */
  function JavaTrim(s: string): (r: string)
    ensures |r| <= |s|
    ensures |r| > 0 ==> r[0] > ' ' && r[|r| - 1] > ' '
  {
    if |s| > 0 && s[0] <= ' ' then JavaTrim(s[1..])
    else if |s| > 0 && s[|s| - 1] <= ' ' then JavaTrim(s[..|s| - 1])
    else s
  }

  /**
   * `Double.parseDouble(s)` on the texts of whole numbers: after `trim()`, an optional sign
   * and decimal digits. Fractions, exponents, `NaN`, `Infinity`, hexadecimal and type suffixes
   * are not modelled (None).
   */
  function ParseWholeNumber(s: string): Option<int>
  {
    Text.ParseDecimal(JavaTrim(s))
  }

  /** A whole number `x` clamped into `lo..hi`, as a cast from `double` saturates. */
  function Saturate(x: int, lo: int, hi: int): (r: int)
    requires lo <= hi
    ensures lo <= r <= hi
    ensures lo <= x <= hi ==> r == x
    ensures x < lo ==> r == lo
    ensures x > hi ==> r == hi
  {
    if x < lo then lo else if x > hi then hi else x
  }

  /** The whole part of a real, rounded toward zero, as the cast `(int) d` or `(long) d` takes it. */
  function TruncateTowardZero(x: real): (r: int)
    ensures x >= 0.0 ==> 0.0 <= r as real <= x < r as real + 1.0
    ensures x < 0.0 ==> r as real - 1.0 < x <= r as real <= 0.0
  {
    if x >= 0.0 then x.Floor else -((-x).Floor)
  }

  const LongMin: int := -0x8000_0000_0000_0000
  const LongMax: int := 0x7FFF_FFFF_FFFF_FFFF
  /** The largest whole number below which every whole number is exactly a `double`. */
  const TwoTo53: int := 0x20_0000_0000_0000

  /**
   * `JSON.toInteger(value)`, which `getInt` applies: an `Integer` as it is, a `Long` narrowed to
   * its low 32 bits, a `Double` cut toward zero and clamped, and a string read as a `double`.
   */
  function AsInt(v: Json): (r: Option<int>)
    ensures r.Some? ==> Text.IntMin <= r.value <= Text.IntMax
    ensures v.JNum? ==> r.Some? && (r.value - v.n) % Text.TwoTo32 == 0
    ensures v.JNum? && Text.IntMin <= v.n <= Text.IntMax ==> r == Some(v.n)
    ensures v.JReal? ==> r == Some(Saturate(TruncateTowardZero(v.r), Text.IntMin, Text.IntMax))
    ensures r.Some? ==> v.JNum? || v.JReal? || (v.JString? && ParseWholeNumber(v.s).Some?)
  {
    match v
    case JNum(n) =>
      if Text.IntMin <= n <= Text.IntMax then Text.Wrap32InRange(n); Some(n) else Some(Text.Wrap32(n))
    case JReal(x) => Some(Saturate(TruncateTowardZero(x), Text.IntMin, Text.IntMax))
    case JString(s) =>
      // a whole number is rounded to the nearest double first, which never moves it across an Int bound
      var n := ParseWholeNumber(s);
      if n.Some? then Some(Saturate(n.value, Text.IntMin, Text.IntMax)) else None
    case _ => None
  }

  /**
   * `JSON.toLong(value)`, which `getLong` applies: an integer as it is, a `Double` cut toward
   * zero and clamped, and a string read as a `double`; a whole number beyond 2^53, which
   * `double` rounds, is not modelled (None).
   */
  function AsLong(v: Json): (r: Option<int>)
    ensures v.JNum? ==> r == Some(v.n)
    ensures v.JReal? ==> r == Some(Saturate(TruncateTowardZero(v.r), LongMin, LongMax))
    ensures r.Some? ==> v.JNum? || v.JReal? || (v.JString? && ParseWholeNumber(v.s) == r)
  {
    match v
    case JNum(n) => Some(n)
    case JReal(x) => Some(Saturate(TruncateTowardZero(x), LongMin, LongMax))
    case JString(s) =>
      var n := ParseWholeNumber(s);
      if n.Some? && -TwoTo53 <= n.value <= TwoTo53 then n else None
    case _ => None
  }

  /** `JSON.toDouble(value)`, which `getDouble` applies: a number as it is, a string read as a `double`. */
  function AsDouble(v: Json): (r: Option<real>)
    ensures v.JReal? ==> r == Some(v.r)
    ensures v.JNum? ==> r == Some(v.n as real)
    ensures r.Some? ==> v.JNum? || v.JReal? || (v.JString? && ParseWholeNumber(v.s).Some?)
  {
    match v
    case JReal(x) => Some(x)
    case JNum(n) => Some(n as real)
    case JString(s) =>
      var n := ParseWholeNumber(s);
      if n.Some? then Some(n.value as real) else None
    case _ => None
  }

  /**
   * `c1` and `c2` compare equal in `String.equalsIgnoreCase`, for `c2` a lower-case ASCII letter:
   * `c2`, its upper case, or, for `s`, the long s (U+017F), whose upper case is `S`.
   */
  predicate SameLetterIgnoringCase(c1: char, c2: char)
    requires 'a' <= c2 <= 'z'
  {
    c1 == c2 || c1 as int == c2 as int - 32 || (c2 == 's' && c1 == '\U{17F}')
  }

  /** `word.equalsIgnoreCase(s)` for a lower-case ASCII `word`. */
  predicate EqualsIgnoreCase(s: string, word: string)
    requires forall i :: 0 <= i < |word| ==> 'a' <= word[i] <= 'z'
  {
    |s| == |word| && forall i :: 0 <= i < |s| ==> SameLetterIgnoringCase(s[i], word[i])
  }

  /** `JSON.toBoolean(value)`, which `getBoolean` applies: a boolean, or "true" or "false" in any case. */
  function AsBoolean(v: Json): (r: Option<bool>)
    ensures v.JBool? ==> r == Some(v.b)
    ensures r.Some? ==> v.JBool? || v.JString?
    ensures v.JString? ==> (r == Some(true) <==> EqualsIgnoreCase(v.s, "true"))
    ensures v.JString? ==> (r == Some(false) <==> EqualsIgnoreCase(v.s, "false"))
  {
    match v
    case JBool(b) => Some(b)
    case JString(s) =>
      if EqualsIgnoreCase(s, "true") then Some(true)
      else if EqualsIgnoreCase(s, "false") then Some(false)
      else None
    case _ => None
  }

  /** `get(key)` followed by a conversion: missing keys throw, as do values the conversion refuses. */
  function Get<T>(o: Json, key: Key, convert: Json -> Option<T>): (r: Option<T>)
    ensures r.Some? <==> Has(o, key) && convert(o.fields[key]).Some?
    ensures r.Some? ==> r == convert(o.fields[key])
  {
    if Has(o, key) then convert(o.fields[key]) else None
  }

  /** `getLong(key)` */
  function GetLong(o: Json, key: Key): Option<int>
  {
    Get(o, key, AsLong)
  }

  /** `getInt(key)` */
  function GetInt(o: Json, key: Key): Option<int>
  {
    Get(o, key, AsInt)
  }

  /** `getDouble(key)` */
  function GetDouble(o: Json, key: Key): Option<real>
  {
    Get(o, key, AsDouble)
  }

  /** `getString(key)` */
  function GetString(o: Json, key: Key): Option<string>
  {
    Get(o, key, AsText)
  }

  /** `getBoolean(key)` */
  function GetBoolean(o: Json, key: Key): Option<bool>
  {
    Get(o, key, AsBoolean)
  }

  /**
   * A number, a boolean or null read as a string gives a text that reads back as the same
   * value: `getInt` after `getString` on an Int, `getLong` on a small Long, `getBoolean` on a boolean.
   */
  lemma TextsReadBack(v: Json)
    ensures v.JNum? && Text.IntMin <= v.n <= Text.IntMax ==> AsInt(JString(AsText(v).value)) == Some(v.n)
    ensures v.JNum? && -TwoTo53 <= v.n <= TwoTo53 ==> AsLong(JString(AsText(v).value)) == Some(v.n)
    ensures v.JBool? ==> AsBoolean(JString(AsText(v).value)) == Some(v.b)
    ensures v.JNull? ==> AsText(v) == Some("null")
  {
    if v.JNum? {
      var t := Text.IntToString(v.n);
      Text.DecimalRoundTrip(v.n);
      JavaTrimKeepsDecimal(t);
    }
  }

  /** A decimal text has nothing to trim. */
  lemma JavaTrimKeepsDecimal(s: string)
    requires |s| > 0 && (s[0] == '-' || Text.IsDigit(s[0])) && Text.IsDigit(s[|s| - 1])
    ensures JavaTrim(s) == s
  {
  }

  /** `getJSONObject(key)` */
  function GetObject(o: Json, key: Key): (r: Option<Json>)
    ensures r.Some? <==> Has(o, key) && o.fields[key].JObject?
    ensures r.Some? ==> r.value == o.fields[key] && r.value.JObject?
  {
    if Has(o, key) && o.fields[key].JObject? then Some(o.fields[key]) else None
  }

  /** `getJSONArray(key)` */
  function GetArray(o: Json, key: Key): (r: Option<seq<Json>>)
    ensures r.Some? <==> Has(o, key) && o.fields[key].JArray?
    ensures r.Some? ==> o.fields[key] == JArray(r.value)
  {
    if Has(o, key) && o.fields[key].JArray? then Some(o.fields[key].items) else None
  }

  /** A `JSONArray` of `encode`d elements, in order. */
  function ArrayOf<T>(xs: seq<T>, encode: T -> Json): (r: seq<Json>)
    ensures |r| == |xs|
  {
    if |xs| == 0 then [] else ArrayOf(xs[..|xs| - 1], encode) + [encode(xs[|xs| - 1])]
  }

  /** The `i`-th element of the array is the encoding of the `i`-th element. */
  lemma {:induction false} ArrayOfElements<T>(xs: seq<T>, encode: T -> Json)
    ensures forall i :: 0 <= i < |xs| ==> ArrayOf(xs, encode)[i] == encode(xs[i])
  {
    if |xs| > 0 {
      ArrayOfElements(xs[..|xs| - 1], encode);
    }
  }

  /** A loop that reads every element of an array with `decode`; it throws (`None`) at the first element that does not decode. */
  function ReadArray<T>(items: seq<Json>, decode: Json -> Option<T>): (r: Option<seq<T>>)
    ensures r.Some? ==> |r.value| == |items|
  {
    if |items| == 0 then Some([])
    else
      var init := ReadArray(items[..|items| - 1], decode);
      var last := decode(items[|items| - 1]);
      if init.None? || last.None? then None else Some(init.value + [last.value])
  }

  /** Reading back an array of encoded elements gives the elements, in order, when each element reads back. */
  lemma {:induction false} ReadArrayOf<T>(xs: seq<T>, encode: T -> Json, decode: Json -> Option<T>)
    requires forall i :: 0 <= i < |xs| ==> decode(encode(xs[i])) == Some(xs[i])
    ensures ReadArray(ArrayOf(xs, encode), decode) == Some(xs)
  {
    if |xs| > 0 {
      var init := xs[..|xs| - 1];
      ArrayOfElements(xs, encode);
      ArrayOfElements(init, encode);
      assert ArrayOf(xs, encode)[..|xs| - 1] == ArrayOf(init, encode);
      ReadArrayOf(init, encode, decode);
      assert xs == init + [xs[|xs| - 1]];
    }
  }
}
