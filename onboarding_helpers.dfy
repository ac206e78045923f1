/**
 * Reading the onboarding link of a study's QR code: `https://whale-app.de/onboarding/start` or
 * `whale-app://onboarding/start`, with the query parameters `studyKey` (required, not blank) and
 * `source` (optional, "" when missing). Any other link gives nothing.
 *
 * The parsed link is a record of its scheme, host, path and query parameters (already decoded,
 * in order); `hierarchical` is false for a link without a hierarchical part, whose query cannot be read.
 */
module OnboardingUrls {
  import opened Wrappers
  import Text

  datatype Uri = Uri(scheme: Option<string>, host: Option<string>, path: Option<string>,
                     query: seq<(string, string)>, hierarchical: bool)

  const WebHost: string := "whale-app.de"
  const WebPathPrefix: string := "/onboarding/start"
  const AppHost: string := "onboarding"
  const AppPathPrefix: string := "/start"

  /** `uri.path?.startsWith(prefix) == true` */
  predicate PathStartsWith(uri: Uri, prefix: string)
  {
    uri.path.Some? && Text.StartsWith(uri.path.value, prefix)
  }

  /** The host and path test of `parseOnboardingUrl`. */
  predicate IsValidPath(uri: Uri)
  {
    (uri.host == Some(WebHost) && PathStartsWith(uri, WebPathPrefix))
    || (uri.host == Some(AppHost) && PathStartsWith(uri, AppPathPrefix))
  }

  /** `getQueryParameter`: the first value given for the name; it throws on a link that is not hierarchical. */
  function GetQueryParameter(uri: Uri, name: string): (r: Result<Option<string>, string>)
    ensures r.Failure? <==> !uri.hierarchical
    ensures r.Success? && r.value.Some? ==>
      exists i :: 0 <= i < |uri.query| && uri.query[i] == (name, r.value.value)
                  && forall j :: 0 <= j < i ==> uri.query[j].0 != name
    ensures r.Success? && r.value.None? ==> forall i :: 0 <= i < |uri.query| ==> uri.query[i].0 != name
  {
    if !uri.hierarchical then Failure("UnsupportedOperationException")
    else Success(FirstValue(uri.query, name))
  }

  function FirstValue(query: seq<(string, string)>, name: string): (r: Option<string>)
    ensures r.Some? ==> exists i :: 0 <= i < |query| && query[i] == (name, r.value)
                                    && forall j :: 0 <= j < i ==> query[j].0 != name
    ensures r.None? ==> forall i :: 0 <= i < |query| ==> query[i].0 != name
  {
    if |query| == 0 then None
    else if query[0].0 == name then Some(query[0].1)
    else
      var r := FirstValue(query[1..], name);
      assert forall i :: 1 <= i < |query| ==> query[i] == query[1..][i - 1];
      if r.Some? then
        assert exists i :: 0 <= i < |query| && query[i] == (name, r.value) && forall j :: 0 <= j < i ==> query[j].0 != name by {
          var k :| 0 <= k < |query[1..]| && query[1..][k] == (name, r.value) && forall j :: 0 <= j < k ==> query[1..][j].0 != name;
          assert query[k + 1] == (name, r.value);
          forall j | 0 <= j < k + 1 ensures query[j].0 != name {
            if j > 0 {
              assert query[j] == query[1..][j - 1];
            }
          }
        }
        r
      else r
  }

  /** `parseOnboardingUrl`: the study key and the source, or None; a thrown exception gives None. */
  function ParseOnboardingUrl(uri: Uri): Option<(string, string)>
  {
    if !IsValidPath(uri) then None
    else match GetQueryParameter(uri, "studyKey")
      case Failure(_) => None
      case Success(studyKey) =>
        if studyKey.None? || Text.IsBlank(studyKey.value) then None
        else match GetQueryParameter(uri, "source")
          case Failure(_) => None
          case Success(source) => Some((studyKey.value, source.GetOrElse("")))
  }

  /**
   * A link is accepted exactly when its host and path match, its query can be read and its first
   * `studyKey` is present and not blank; the result is that key and the first `source`, or "".
   */
  lemma ParseSpec(uri: Uri)
    ensures ParseOnboardingUrl(uri).Some? <==>
      IsValidPath(uri) && uri.hierarchical && FirstValue(uri.query, "studyKey").Some? && !Text.IsBlank(FirstValue(uri.query, "studyKey").value)
    ensures ParseOnboardingUrl(uri).Some? ==>
      ParseOnboardingUrl(uri).value == (FirstValue(uri.query, "studyKey").value, FirstValue(uri.query, "source").GetOrElse(""))
  {
  }

  /** Both documented forms are accepted, with the given key and source, or "" for a missing source. */
  lemma DocumentedFormsAccepted(studyKey: string, source: string)
    requires !Text.IsBlank(studyKey)
    ensures var web := Uri(Some("https"), Some(WebHost), Some(WebPathPrefix), [("studyKey", studyKey), ("source", source)], true);
      ParseOnboardingUrl(web) == Some((studyKey, source))
    ensures var app := Uri(Some("whale-app"), Some(AppHost), Some(AppPathPrefix), [("studyKey", studyKey)], true);
      ParseOnboardingUrl(app) == Some((studyKey, ""))
  {
    var web := Uri(Some("https"), Some(WebHost), Some(WebPathPrefix), [("studyKey", studyKey), ("source", source)], true);
    assert FirstValue(web.query, "source") == Some(source) by {
      assert web.query[0].0 != "source";
      assert FirstValue(web.query[1..], "source") == Some(source);
    }
  }

  /** A blank or missing study key, another host or a path outside the onboarding path is refused. */
  lemma RefusedLinks(uri: Uri)
    ensures uri.host != Some(WebHost) && uri.host != Some(AppHost) ==> ParseOnboardingUrl(uri).None?
    ensures FirstValue(uri.query, "studyKey").None? ==> ParseOnboardingUrl(uri).None?
    ensures FirstValue(uri.query, "studyKey").Some? && Text.IsBlank(FirstValue(uri.query, "studyKey").value) ==> ParseOnboardingUrl(uri).None?
    ensures uri.path.None? ==> ParseOnboardingUrl(uri).None?
  {
  }

  /**
   * Blankness is Kotlin's: an ideographic space (U+3000) alone is a blank key and refused, while
   * next line (U+0085), which Kotlin does not count as whitespace, is a key like any other.
   */
  lemma WhitespaceKeys()
    ensures var web := Uri(Some("https"), Some(WebHost), Some(WebPathPrefix), [("studyKey", "\U{3000}")], true);
      ParseOnboardingUrl(web).None?
    ensures var web := Uri(Some("https"), Some(WebHost), Some(WebPathPrefix), [("studyKey", "\U{85}")], true);
      ParseOnboardingUrl(web) == Some(("\U{85}", ""))
  {
    assert Text.IsBlank("\U{3000}");
    assert !Text.IsWhitespace("\U{85}"[0]);
  }

  /**
   * The scheme is not looked at, and the path is matched by its start only: any scheme, and any
   * path continuing the onboarding path (such as `/onboarding/started`), is accepted the same way.
   */
  lemma SchemeAndPathSuffixIgnored(uri: Uri, scheme: Option<string>, suffix: string)
    requires uri.path.Some?
    requires uri.path.value == WebPathPrefix || uri.path.value == AppPathPrefix
    ensures ParseOnboardingUrl(uri.(scheme := scheme, path := Some(uri.path.value + suffix))) == ParseOnboardingUrl(uri)
  {
    var p := uri.path.value;
    var q := p + suffix;
    assert q[..|p|] == p;
    assert q[1] == p[1];
    if p == WebPathPrefix {
      assert Text.StartsWith(q, WebPathPrefix);
      assert p[1] == 'o' && AppPathPrefix[1] == 's';
    } else {
      assert Text.StartsWith(q, AppPathPrefix);
      assert p[1] == 's' && WebPathPrefix[1] == 'o';
    }
  }
}
