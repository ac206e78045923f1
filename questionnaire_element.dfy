/**
 * The elements of a questionnaire as the app receives and stores them: the element kinds and
 * their API names, the alignment of option groups, the JSON an element is written as, and the
 * reading of an element from that JSON, which throws on a missing or mistyped field or an
 * unknown kind and gives nothing for a malformed element.
 *
 * The raw configuration object each element also keeps is not modelled; `urlParams` is a
 * Kotlin map in insertion order, a sequence of pairs with distinct keys.
 */
module QuestionnaireElements {
  import opened Wrappers
  import J = Json
  import Text
  import Seqs

  /** `QuestionnaireElementType`, in declaration order. */
  datatype ElementType =
    | Malformed | TextView | RadioGroup | CheckboxGroup | Slider | TextEntry | ExternalQuestionnaireLink
    | SocialNetworkEntry | SocialNetworkRating | Circumplex | LikertScaleLabel

  /** `QuestionnaireElementType.entries` */
  const Entries: seq<ElementType> := [
    Malformed, TextView, RadioGroup, CheckboxGroup, Slider, TextEntry, ExternalQuestionnaireLink,
    SocialNetworkEntry, SocialNetworkRating, Circumplex, LikertScaleLabel]

  function ApiName(t: ElementType): string
  {
    match t
    case Malformed => "malformed"
    case TextView => "text_view"
    case RadioGroup => "radio_group"
    case CheckboxGroup => "checkbox_group"
    case Slider => "slider"
    case TextEntry => "text_entry"
    case ExternalQuestionnaireLink => "external_questionnaire_link"
    case SocialNetworkEntry => "social_network_entry"
    case SocialNetworkRating => "social_network_rating"
    case Circumplex => "circumplex"
    case LikertScaleLabel => "likert_scale_label"
  }

  function HasApiName(apiName: string): ElementType -> bool
  {
    t => ApiName(t) == apiName
  }

  /** `fromApiName`: the kind with that API name; an unknown name throws with a message naming it. */
  function FromApiName(apiName: string): Result<ElementType, string>
  {
    var found := Seqs.Find(Entries, HasApiName(apiName));
    if found.Some? then Success(found.value) else Failure("Unknown QuestionnaireElementType: " + apiName)
  }

  /** The kinds' API names are distinct. */
  lemma ApiNameInjective(a: ElementType, b: ElementType)
    requires ApiName(a) == ApiName(b)
    ensures a == b
  {
    var na, nb := ApiName(a), ApiName(b);
    assert |na| == |nb| && na[0] == nb[0] && na[|na| - 1] == nb[|nb| - 1];
  }

  /** Every kind's API name reads back as that kind. */
  lemma FromApiNameOf(t: ElementType)
    ensures FromApiName(ApiName(t)) == Success(t)
  {
    var found := Seqs.Find(Entries, HasApiName(ApiName(t)));
    assert t in Entries;
    var i :| 0 <= i < |Entries| && Entries[i] == found.value && HasApiName(ApiName(t))(Entries[i]);
    ApiNameInjective(Entries[i], t);
  }

  /** A name that is no kind's API name throws. */
  lemma FromApiNameUnknown(apiName: string)
    requires forall t :: ApiName(t) != apiName
    ensures FromApiName(apiName) == Failure("Unknown QuestionnaireElementType: " + apiName)
  {
    assert forall i :: 0 <= i < |Entries| ==> !HasApiName(apiName)(Entries[i]);
  }

  /** `fromApiName` succeeds exactly on the API names, with the kind that has the name. */
  lemma FromApiNameSpec(apiName: string)
    ensures FromApiName(apiName).Success? <==> exists t :: ApiName(t) == apiName
    ensures FromApiName(apiName).Success? ==> ApiName(FromApiName(apiName).value) == apiName
  {
    if exists t :: ApiName(t) == apiName {
      var t :| ApiName(t) == apiName;
      FromApiNameOf(t);
    } else {
      FromApiNameUnknown(apiName);
    }
  }

  /** `GroupAlignment` */
  datatype GroupAlignment = Horizontal | Vertical

  /** `getAlignmentValue`: "horizontal" or "vertical"; anything else is logged and read as vertical. */
  function GetAlignmentValue(alignmentString: string): (r: GroupAlignment)
    ensures r == Horizontal <==> alignmentString == "horizontal"
  {
    if alignmentString == "horizontal" then Horizontal
    else Vertical
  }

  /** `alignment.toString().lowercase()` */
  function AlignmentText(a: GroupAlignment): string
  {
    match a
    case Horizontal => "horizontal"
    case Vertical => "vertical"
  }

  /** An alignment written as its lower-case name reads back as itself. */
  lemma AlignmentRoundTrip(a: GroupAlignment)
    ensures GetAlignmentValue(AlignmentText(a)) == a
    ensures Text.Lower(AlignmentText(a)) == AlignmentText(a)
  {
  }

  /** The configuration of each kind of element. */
  datatype Config =
    | TextViewConfig(textContent: string)
    | RadioGroupConfig(radioOptions: seq<string>, radioAlignment: GroupAlignment)
    | CheckboxGroupConfig(checkboxOptions: seq<string>, checkboxAlignment: GroupAlignment)
    | SliderConfig(min: int, max: int, stepSize: real)
    | TextEntryConfig(hint: string)
    | ExternalQuestionnaireLinkConfig(externalUrl: string, actionText: string, urlParams: seq<(string, string)>)
    | SocialNetworkEntryConfig
    | SocialNetworkRatingConfig(ratingQuestionnaireId: int)
    | CircumplexConfig(imageUrl: string, clipTop: int, clipBottom: int, clipLeft: int, clipRight: int)
    | LikertScaleLabelConfig(likertOptions: seq<string>)

  /** A `QuestionnaireElement` of one of the subclasses. */
  datatype Element = Element(id: int, questionnaireId: int, name: string, step: int, position: int, config: Config)

  /** The kind of each subclass. */
  function TypeOf(c: Config): (t: ElementType)
    ensures t != Malformed
  {
    match c
    case TextViewConfig(_) => TextView
    case RadioGroupConfig(_, _) => RadioGroup
    case CheckboxGroupConfig(_, _) => CheckboxGroup
    case SliderConfig(_, _, _) => Slider
    case TextEntryConfig(_) => TextEntry
    case ExternalQuestionnaireLinkConfig(_, _, _) => ExternalQuestionnaireLink
    case SocialNetworkEntryConfig => SocialNetworkEntry
    case SocialNetworkRatingConfig(_) => SocialNetworkRating
    case CircumplexConfig(_, _, _, _, _) => Circumplex
    case LikertScaleLabelConfig(_) => LikertScaleLabel
  }

  // ---------------------------------------------------------------------------------------------
  // Writing
  // ---------------------------------------------------------------------------------------------

  function StringJson(s: string): J.Json
  {
    J.JString(s)
  }

  /** `JSONArray(options)` */
  function StringArray(xs: seq<string>): seq<J.Json>
  {
    J.ArrayOf(xs, StringJson)
  }

  /** One `{"key": …, "value": …}` object of `urlParams`. */
  function ParamJson(p: (string, string)): J.Json
  {
    J.JObject(map[J.ParamKey := J.JString(p.0), J.ParamValue := J.JString(p.1)])
  }

  /** The fields each subclass's `toJson` puts into the configuration object. */
  function ConfigFields(c: Config): map<J.Key, J.Json>
  {
    match c
    case TextViewConfig(text) => map[J.TextContent := J.JString(text)]
    case RadioGroupConfig(options, alignment) =>
      map[J.Options := J.JArray(StringArray(options)), J.Alignment := J.JString(AlignmentText(alignment))]
    case CheckboxGroupConfig(options, alignment) =>
      map[J.Options := J.JArray(StringArray(options)), J.Alignment := J.JString(AlignmentText(alignment))]
    case SliderConfig(min, max, stepSize) =>
      map[J.Min := J.JNum(min), J.Max := J.JNum(max), J.StepSize := J.JReal(stepSize)]
    case TextEntryConfig(hint) => map[J.Hint := J.JString(hint)]
    case ExternalQuestionnaireLinkConfig(externalUrl, actionText, urlParams) =>
      map[J.ExternalUrl := J.JString(externalUrl), J.ActionText := J.JString(actionText),
          J.UrlParams := J.JArray(J.ArrayOf(urlParams, ParamJson))]
    case SocialNetworkEntryConfig => map[]
    case SocialNetworkRatingConfig(ratingQuestionnaireId) => map[J.RatingQuestionnaireId := J.JNum(ratingQuestionnaireId)]
    case CircumplexConfig(imageUrl, top, bottom, left, right) =>
      map[J.ImageUrl := J.JString(imageUrl),
          J.Clip := J.JObject(map[J.Top := J.JNum(top), J.Bottom := J.JNum(bottom), J.Left := J.JNum(left), J.Right := J.JNum(right)])]
    case LikertScaleLabelConfig(options) => map[J.Options := J.JArray(StringArray(options))]
  }

  /** `toJson`: the common fields, the kind's API name, and the kind's configuration object. */
  function ToJson(e: Element): J.Json
  {
    J.JObject(map[
      J.Id := J.JNum(e.id),
      J.QuestionnaireId := J.JNum(e.questionnaireId),
      J.Name := J.JString(e.name),
      J.Type := J.JString(ApiName(TypeOf(e.config))),
      J.Step := J.JNum(e.step),
      J.Position := J.JNum(e.position),
      J.Configuration := J.JObject(ConfigFields(e.config))])
  }

  // ---------------------------------------------------------------------------------------------
  // Reading
  // ---------------------------------------------------------------------------------------------

  /** Why `makeElementFromJson` throws. */
  datatype ElementError = MissingOrMistypedField | UnknownType(message: string)

  /** The loop that reads `options` with `getString(i)`: every element is read as its text. */
  function ReadStrings(items: seq<J.Json>): Option<seq<string>>
  {
    J.ReadArray(items, J.AsText)
  }

  /** `urlParams[key] = value`: replaced in place when the key is present, appended otherwise. */
  function PutParam(m: seq<(string, string)>, key: string, value: string): (r: seq<(string, string)>)
  {
    if |m| == 0 then [(key, value)]
    else if m[0].0 == key then [(key, value)] + m[1..]
    else [m[0]] + PutParam(m[1..], key, value)
  }

  predicate DistinctKeys(m: seq<(string, string)>)
  {
    forall i, j :: 0 <= i < j < |m| ==> m[i].0 != m[j].0
  }

  /** One parameter object read with `getJSONObject(i)`, `getString("key")` and `getString("value")`. */
  function ReadParam(j: J.Json): Option<(string, string)>
  {
    var key := J.GetString(j, J.ParamKey);
    var value := J.GetString(j, J.ParamValue);
    if j.JObject? && key.Some? && value.Some? then Some((key.value, value.value)) else None
  }

  /** The loop that reads `urlParams` into a map, element by element. */
  function ReadParams(items: seq<J.Json>): Option<seq<(string, string)>>
  {
    if |items| == 0 then Some([])
    else
      var init := ReadParams(items[..|items| - 1]);
      var last := ReadParam(items[|items| - 1]);
      if init.None? || last.None? then None else Some(PutParam(init.value, last.value.0, last.value.1))
  }

  /** `config.getJSONArray(key)` read with the loop of strings. */
  function ReadOptions(config: J.Json, key: J.Key): Option<seq<string>>
  {
    var arr := J.GetArray(config, key);
    if arr.None? then None else ReadStrings(arr.value)
  }

  /** The circumplex's clip: four numbers when `clip` is present, all zero otherwise. */
  function ReadClip(config: J.Json): Option<(int, int, int, int)>
  {
    if J.Has(config, J.Clip) then
      var clip := J.GetObject(config, J.Clip);
      if clip.None? then None
      else
        var top := J.GetInt(clip.value, J.Top);
        var bottom := J.GetInt(clip.value, J.Bottom);
        var left := J.GetInt(clip.value, J.Left);
        var right := J.GetInt(clip.value, J.Right);
        if top.None? || bottom.None? || left.None? || right.None? then None
        else Some((top.value, bottom.value, left.value, right.value))
    else Some((0, 0, 0, 0))
  }

  /** The configuration of an element of kind `t`; a malformed element has none. */
  function ReadConfig(t: ElementType, config: J.Json): Result<Option<Config>, ElementError>
  {
    match t
    case TextView =>
      var text := J.GetString(config, J.TextContent);
      if text.None? then Failure(MissingOrMistypedField) else Success(Some(TextViewConfig(text.value)))
    case RadioGroup =>
      var alignment := J.GetString(config, J.Alignment);
      var options := ReadOptions(config, J.Options);
      if options.None? || alignment.None? then Failure(MissingOrMistypedField)
      else Success(Some(RadioGroupConfig(options.value, GetAlignmentValue(alignment.value))))
    case CheckboxGroup =>
      var alignment := J.GetString(config, J.Alignment);
      var options := ReadOptions(config, J.Options);
      if options.None? || alignment.None? then Failure(MissingOrMistypedField)
      else Success(Some(CheckboxGroupConfig(options.value, GetAlignmentValue(alignment.value))))
    case Slider =>
      var min := J.GetInt(config, J.Min);
      var max := J.GetInt(config, J.Max);
      var stepSize := J.GetDouble(config, J.StepSize);
      if min.None? || max.None? || stepSize.None? then Failure(MissingOrMistypedField)
      else Success(Some(SliderConfig(min.value, max.value, stepSize.value)))
    case TextEntry =>
      var hint := J.GetString(config, J.Hint);
      if hint.None? then Failure(MissingOrMistypedField) else Success(Some(TextEntryConfig(hint.value)))
    case ExternalQuestionnaireLink =>
      var arr := J.GetArray(config, J.UrlParams);
      var urlParams := if arr.Some? then ReadParams(arr.value) else None;
      var externalUrl := J.GetString(config, J.ExternalUrl);
      var actionText := J.GetString(config, J.ActionText);
      if urlParams.None? || externalUrl.None? || actionText.None? then Failure(MissingOrMistypedField)
      else Success(Some(ExternalQuestionnaireLinkConfig(externalUrl.value, actionText.value, urlParams.value)))
    case SocialNetworkEntry => Success(Some(SocialNetworkEntryConfig))
    case SocialNetworkRating =>
      var ratingId := J.GetInt(config, J.RatingQuestionnaireId);
      if ratingId.None? then Failure(MissingOrMistypedField) else Success(Some(SocialNetworkRatingConfig(ratingId.value)))
    case Circumplex =>
      var clip := ReadClip(config);
      var imageUrl := J.GetString(config, J.ImageUrl);
      if clip.None? || imageUrl.None? then Failure(MissingOrMistypedField)
      else Success(Some(CircumplexConfig(imageUrl.value, clip.value.0, clip.value.1, clip.value.2, clip.value.3)))
    case LikertScaleLabel =>
      var options := ReadOptions(config, J.Options);
      if options.None? then Failure(MissingOrMistypedField) else Success(Some(LikertScaleLabelConfig(options.value)))
    case Malformed => Success(None)
  }

  /**
   * `makeElementFromJson`: the configuration object, id, questionnaire id and type name are read
   * first; an unknown type name throws before the step, position and name are read.
   */
  function ElementFromJson(json: J.Json): Result<Option<Element>, ElementError>
  {
    var config := J.GetObject(json, J.Configuration);
    var id := J.GetInt(json, J.Id);
    var questionnaireId := J.GetInt(json, J.QuestionnaireId);
    var typeName := J.GetString(json, J.Type);
    if config.None? || id.None? || questionnaireId.None? || typeName.None? then Failure(MissingOrMistypedField)
    else
      var t := FromApiName(typeName.value);
      if t.Failure? then Failure(UnknownType(t.error))
      else ElementOfKind(json, config.value, id.value, questionnaireId.value, t.value)
  }

  /** The rest of `makeElementFromJson` once the kind is known: the step, position and name, then the kind's configuration. */
  function ElementOfKind(json: J.Json, config: J.Json, id: int, questionnaireId: int, t: ElementType)
    : Result<Option<Element>, ElementError>
  {
    var step := J.GetInt(json, J.Step);
    var position := J.GetInt(json, J.Position);
    var name := J.GetString(json, J.Name);
    if step.None? || position.None? || name.None? then Failure(MissingOrMistypedField)
    else
      var c := ReadConfig(t, config);
      if c.Failure? then Failure(c.error)
      else if c.value.None? then Success(None)
      else Success(Some(Element(id, questionnaireId, name.value, step.value, position.value, c.value.value)))
  }

  // ---------------------------------------------------------------------------------------------
  // Properties
  // ---------------------------------------------------------------------------------------------

  /** A Kotlin `Int`. */
  predicate IsInt(n: int)
  {
    Text.IntMin <= n <= Text.IntMax
  }

  /** An element whose numbers are Kotlin `Int`s and whose parameter keys are distinct, as a Kotlin element's are. */
  predicate WellFormed(e: Element)
  {
    && IsInt(e.id) && IsInt(e.questionnaireId) && IsInt(e.step) && IsInt(e.position)
    && (e.config.SliderConfig? ==> IsInt(e.config.min) && IsInt(e.config.max))
    && (e.config.SocialNetworkRatingConfig? ==> IsInt(e.config.ratingQuestionnaireId))
    && (e.config.CircumplexConfig? ==>
          IsInt(e.config.clipTop) && IsInt(e.config.clipBottom) && IsInt(e.config.clipLeft) && IsInt(e.config.clipRight))
    && (e.config.ExternalQuestionnaireLinkConfig? ==> DistinctKeys(e.config.urlParams))
  }

  /** Strings written as a `JSONArray` read back in order. */
  lemma StringsRoundTrip(xs: seq<string>)
    ensures ReadStrings(StringArray(xs)) == Some(xs)
  {
    J.ReadArrayOf(xs, StringJson, J.AsText);
  }

  /** A key not yet in the map is appended. */
  lemma {:induction false} PutNewParam(m: seq<(string, string)>, key: string, value: string)
    requires forall i :: 0 <= i < |m| ==> m[i].0 != key
    ensures PutParam(m, key, value) == m + [(key, value)]
  {
    if |m| > 0 {
      PutNewParam(m[1..], key, value);
      assert m == [m[0]] + m[1..];
    }
  }

  /** Parameters with distinct keys written as their array read back as the same map, in the same order. */
  lemma {:induction false} ParamsRoundTrip(params: seq<(string, string)>)
    requires DistinctKeys(params)
    ensures ReadParams(J.ArrayOf(params, ParamJson)) == Some(params)
  {
    if |params| > 0 {
      var n := |params| - 1;
      var front := params[..n];
      var items := J.ArrayOf(params, ParamJson);
      ParamsRoundTrip(front);
      ParamReadBack(params[n]);
      ReadParamsStep(items, front, params[n]);
      PutNewParam(front, params[n].0, params[n].1);
      assert params == front + [params[n]];
    }
  }

  /** Reading one more parameter object puts its pair into the map read so far. */
  lemma ReadParamsStep(items: seq<J.Json>, front: seq<(string, string)>, p: (string, string))
    requires |items| > 0
    requires ReadParams(items[..|items| - 1]) == Some(front)
    requires ReadParam(items[|items| - 1]) == Some(p)
    ensures ReadParams(items) == Some(PutParam(front, p.0, p.1))
  {
  }

  /** One parameter object reads back as its pair. */
  lemma ParamReadBack(p: (string, string))
    ensures ReadParam(ParamJson(p)) == Some(p)
  {
  }

  /** A radio group's configuration object reads back as written. */
  lemma RadioGroupRoundTrip(options: seq<string>, alignment: GroupAlignment)
    ensures var c := RadioGroupConfig(options, alignment);
            ReadConfig(RadioGroup, J.JObject(ConfigFields(c))) == Success(Some(c))
  {
    StringsRoundTrip(options);
    AlignmentRoundTrip(alignment);
  }

  /** A checkbox group's configuration object reads back as written. */
  lemma CheckboxGroupRoundTrip(options: seq<string>, alignment: GroupAlignment)
    ensures var c := CheckboxGroupConfig(options, alignment);
            ReadConfig(CheckboxGroup, J.JObject(ConfigFields(c))) == Success(Some(c))
  {
    StringsRoundTrip(options);
    AlignmentRoundTrip(alignment);
  }

  /** A Likert label's configuration object reads back as written. */
  lemma LikertRoundTrip(options: seq<string>)
    ensures var c := LikertScaleLabelConfig(options);
            ReadConfig(LikertScaleLabel, J.JObject(ConfigFields(c))) == Success(Some(c))
  {
    StringsRoundTrip(options);
  }

  /** An external link's configuration object reads back as written. */
  lemma ExternalLinkRoundTrip(externalUrl: string, actionText: string, urlParams: seq<(string, string)>)
    requires DistinctKeys(urlParams)
    ensures var c := ExternalQuestionnaireLinkConfig(externalUrl, actionText, urlParams);
            ReadConfig(ExternalQuestionnaireLink, J.JObject(ConfigFields(c))) == Success(Some(c))
  {
    ParamsRoundTrip(urlParams);
  }

  /** A circumplex's configuration object reads back as written, its clip included. */
  lemma CircumplexRoundTrip(imageUrl: string, top: int, bottom: int, left: int, right: int)
    requires IsInt(top) && IsInt(bottom) && IsInt(left) && IsInt(right)
    ensures var c := CircumplexConfig(imageUrl, top, bottom, left, right);
            ReadConfig(Circumplex, J.JObject(ConfigFields(c))) == Success(Some(c))
  {
    var c := CircumplexConfig(imageUrl, top, bottom, left, right);
    assert ReadClip(J.JObject(ConfigFields(c))) == Some((top, bottom, left, right));
  }

  /** A slider's configuration object reads back as written. */
  lemma SliderRoundTrip(min: int, max: int, stepSize: real)
    requires IsInt(min) && IsInt(max)
    ensures var c := SliderConfig(min, max, stepSize);
            ReadConfig(Slider, J.JObject(ConfigFields(c))) == Success(Some(c))
  {
  }

  /** Each kind's configuration object reads back as the configuration it was written from. */
  lemma ConfigRoundTrip(e: Element)
    requires WellFormed(e)
    ensures ReadConfig(TypeOf(e.config), J.JObject(ConfigFields(e.config))) == Success(Some(e.config))
  {
    match e.config
    case RadioGroupConfig(options, alignment) => RadioGroupRoundTrip(options, alignment);
    case CheckboxGroupConfig(options, alignment) => CheckboxGroupRoundTrip(options, alignment);
    case LikertScaleLabelConfig(options) => LikertRoundTrip(options);
    case ExternalQuestionnaireLinkConfig(url, text, urlParams) => ExternalLinkRoundTrip(url, text, urlParams);
    case CircumplexConfig(imageUrl, top, bottom, left, right) => CircumplexRoundTrip(imageUrl, top, bottom, left, right);
    case SliderConfig(min, max, stepSize) => SliderRoundTrip(min, max, stepSize);
    case SocialNetworkRatingConfig(_) =>
    case TextViewConfig(_) =>
    case TextEntryConfig(_) =>
    case SocialNetworkEntryConfig =>
  }

  /** The common fields of an element's JSON read back as written. */
  lemma HeaderRoundTrip(e: Element)
    requires WellFormed(e)
    ensures var json := ToJson(e);
            && J.GetObject(json, J.Configuration) == Some(J.JObject(ConfigFields(e.config)))
            && J.GetInt(json, J.Id) == Some(e.id) && J.GetInt(json, J.QuestionnaireId) == Some(e.questionnaireId)
            && J.GetString(json, J.Type) == Some(ApiName(TypeOf(e.config)))
            && J.GetInt(json, J.Step) == Some(e.step) && J.GetInt(json, J.Position) == Some(e.position)
            && J.GetString(json, J.Name) == Some(e.name)
  {
  }

  /** Common fields that read, and a configuration that reads, give the element they describe. */
  lemma ElementFromParts(json: J.Json, e: Element)
    requires J.GetObject(json, J.Configuration) == Some(J.JObject(ConfigFields(e.config)))
    requires J.GetInt(json, J.Id) == Some(e.id) && J.GetInt(json, J.QuestionnaireId) == Some(e.questionnaireId)
    requires J.GetString(json, J.Type) == Some(ApiName(TypeOf(e.config)))
    requires J.GetInt(json, J.Step) == Some(e.step) && J.GetInt(json, J.Position) == Some(e.position)
    requires J.GetString(json, J.Name) == Some(e.name)
    requires FromApiName(ApiName(TypeOf(e.config))) == Success(TypeOf(e.config))
    requires ReadConfig(TypeOf(e.config), J.JObject(ConfigFields(e.config))) == Success(Some(e.config))
    ensures ElementFromJson(json) == Success(Some(e))
  {
  }

  /** Every element written with `toJson` reads back with `makeElementFromJson` as the same element. */
  lemma ElementRoundTrip(e: Element)
    requires WellFormed(e)
    ensures ElementFromJson(ToJson(e)) == Success(Some(e))
  {
    HeaderRoundTrip(e);
    FromApiNameOf(TypeOf(e.config));
    ConfigRoundTrip(e);
    ElementFromParts(ToJson(e), e);
  }

  /** A malformed element with its common fields reads as nothing, whatever its configuration holds. */
  lemma MalformedReadsAsNothing(json: J.Json)
    requires J.GetObject(json, J.Configuration).Some? && J.GetString(json, J.Type) == Some("malformed")
    requires J.GetInt(json, J.Id).Some? && J.GetInt(json, J.QuestionnaireId).Some?
    requires J.GetInt(json, J.Step).Some? && J.GetInt(json, J.Position).Some? && J.GetString(json, J.Name).Some?
    ensures ElementFromJson(json) == Success(None)
  {
    FromApiNameOf(Malformed);
  }

  /** A type name that names no kind throws, naming it, once the fields before it are present. */
  lemma UnknownTypeThrows(json: J.Json, typeName: string)
    requires J.GetObject(json, J.Configuration).Some? && J.GetString(json, J.Type) == Some(typeName)
    requires J.GetInt(json, J.Id).Some? && J.GetInt(json, J.QuestionnaireId).Some?
    requires forall t :: ApiName(t) != typeName
    ensures ElementFromJson(json) == Failure(UnknownType("Unknown QuestionnaireElementType: " + typeName))
  {
    FromApiNameUnknown(typeName);
    RefusedTypeThrows(json, typeName, "Unknown QuestionnaireElementType: " + typeName);
  }

  /** A type name `fromApiName` refuses throws its message, once the fields before it are present. */
  lemma RefusedTypeThrows(json: J.Json, typeName: string, message: string)
    requires J.GetObject(json, J.Configuration).Some? && J.GetString(json, J.Type) == Some(typeName)
    requires J.GetInt(json, J.Id).Some? && J.GetInt(json, J.QuestionnaireId).Some?
    requires FromApiName(typeName) == Failure(message)
    ensures ElementFromJson(json) == Failure(UnknownType(message))
  {
  }

  /** A circumplex configuration without `clip` reads with all four clip values zero. */
  lemma MissingClipIsZero(config: J.Json)
    requires !J.Has(config, J.Clip)
    requires J.GetString(config, J.ImageUrl).Some?
    ensures ReadConfig(Circumplex, config) == Success(Some(CircumplexConfig(J.GetString(config, J.ImageUrl).value, 0, 0, 0, 0)))
  {
  }

  // ---------------------------------------------------------------------------------------------
  // The parsing loops
  // ---------------------------------------------------------------------------------------------

  /** The loop over `optionsJson`: `getString(i)` of each element, in order; an element without a text throws. */
  method ReadOptionsLoop(optionsJson: seq<J.Json>) returns (options: Option<seq<string>>)
    ensures options == ReadStrings(optionsJson)
  {
    var acc: seq<string> := [];
    for i := 0 to |optionsJson|
      invariant ReadStrings(optionsJson[..i]) == Some(acc)
    {
      assert optionsJson[..i + 1][..i] == optionsJson[..i];
      var s := J.AsText(optionsJson[i]);
      if s.None? {
        PrefixFailureStops(optionsJson, i);
        return None;
      }
      acc := acc + [s.value];
    }
    assert optionsJson[..|optionsJson|] == optionsJson;
    return Some(acc);
  }

  /** Once an element does not read as text, the whole array does not. */
  lemma {:induction false} PrefixFailureStops(items: seq<J.Json>, i: int)
    requires 0 <= i < |items| && J.AsText(items[i]).None?
    ensures ReadStrings(items) == None
    decreases |items|
  {
    if i < |items| - 1 {
      PrefixFailureStops(items[..|items| - 1], i);
    }
  }

  /** An array whose every element has a text reads as those texts, in order: numbers, booleans and null included. */
  lemma {:induction false} OptionsReadAsTexts(items: seq<J.Json>)
    requires forall i :: 0 <= i < |items| ==> J.AsText(items[i]).Some?
    ensures ReadStrings(items).Some?
    ensures forall i :: 0 <= i < |items| ==> ReadStrings(items).value[i] == J.AsText(items[i]).value
  {
    if |items| > 0 {
      var init := items[..|items| - 1];
      OptionsReadAsTexts(init);
      assert forall i :: 0 <= i < |init| ==> ReadStrings(items).value[i] == ReadStrings(init).value[i];
    }
  }

  /** Options `[5, "b"]` read as the texts "5" and "b". */
  lemma NumberOptionReadsAsText()
    ensures ReadStrings([J.JNum(5), J.JString("b")]) == Some(["5", "b"])
  {
    var items := [J.JNum(5), J.JString("b")];
    assert Text.IntToString(5) == "5";
    assert items[..1][..0] == [];
    assert J.ReadArray(items[..1][..0], J.AsText) == Some([]);
    assert items[..1][0] == J.JNum(5) && J.AsText(J.JNum(5)) == Some("5");
    assert [] + ["5"] == ["5"];
    assert J.ReadArray(items[..1], J.AsText) == Some(["5"]);
    assert items[..|items| - 1] == items[..1] && items[|items| - 1] == J.JString("b");
    assert J.ReadArray(items, J.AsText) == Some(["5"] + ["b"]);
    assert ["5"] + ["b"] == ["5", "b"];
  }

  /** The loop over `urlParamsJson`: each object's key and value are put into the map, in order. */
  method ReadUrlParamsLoop(urlParamsJson: seq<J.Json>) returns (urlParams: Option<seq<(string, string)>>)
    ensures urlParams == ReadParams(urlParamsJson)
  {
    var acc: seq<(string, string)> := [];
    for i := 0 to |urlParamsJson|
      invariant ReadParams(urlParamsJson[..i]) == Some(acc)
    {
      assert urlParamsJson[..i + 1][..i] == urlParamsJson[..i];
      var param := ReadParam(urlParamsJson[i]);
      if param.None? {
        ParamFailureStops(urlParamsJson, i);
        return None;
      }
      acc := PutParam(acc, param.value.0, param.value.1);
    }
    assert urlParamsJson[..|urlParamsJson|] == urlParamsJson;
    return Some(acc);
  }

  /** A parameter whose value is a number reads with the number's text, as `getString` writes it. */
  lemma NumberParamReadsAsText()
    ensures ReadParam(J.JObject(map[J.ParamKey := J.JString("k"), J.ParamValue := J.JNum(1)])) == Some(("k", "1"))
  {
    assert Text.IntToString(1) == "1";
  }

  /** Once a parameter does not read, the whole array does not. */
  lemma {:induction false} ParamFailureStops(items: seq<J.Json>, i: int)
    requires 0 <= i < |items| && ReadParam(items[i]).None?
    ensures ReadParams(items) == None
    decreases |items|
  {
    if i < |items| - 1 {
      ParamFailureStops(items[..|items| - 1], i);
    }
  }
}
