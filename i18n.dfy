/**
 * core/i18n/src/lib.rs: user messages.  The dictionary of the requested
 * locale is used, falling back to en-US and then ja-JP; a key the dictionary
 * lacks is shown as itself; then every "{name}" placeholder is replaced by
 * its parameter, a string parameter as its text and any other value as its
 * JSON rendering.
 */
module I18n {
  import opened Wrappers
  import opened Json

  type Dict = map<string, string>

  /** The bundled dictionaries by locale name (ja-JP and en-US in the source). */
  type Dicts = map<string, Dict>

  const FALLBACK_LOCALE := "en-US"
  const LAST_LOCALE := "ja-JP"

  /** The dictionary used for `locale`. */
  function SelectDict(dicts: Dicts, locale: string): (r: Option<Dict>)
    ensures locale in dicts ==> r == Some(dicts[locale])
    ensures locale !in dicts && FALLBACK_LOCALE in dicts ==> r == Some(dicts[FALLBACK_LOCALE])
    ensures locale !in dicts && FALLBACK_LOCALE !in dicts && LAST_LOCALE in dicts ==> r == Some(dicts[LAST_LOCALE])
    ensures r.None? <==> locale !in dicts && FALLBACK_LOCALE !in dicts && LAST_LOCALE !in dicts
  {
    if locale in dicts then Some(dicts[locale])
    else if FALLBACK_LOCALE in dicts then Some(dicts[FALLBACK_LOCALE])
    else if LAST_LOCALE in dicts then Some(dicts[LAST_LOCALE])
    else None
  }

  /** The template for `key`: the dictionary's entry, or the key itself. */
  function Template(dict: Option<Dict>, key: string): (r: string)
    ensures dict.Some? && key in dict.value ==> r == dict.value[key]
    ensures dict.None? || key !in dict.value ==> r == key
  {
    if dict.Some? && key in dict.value then dict.value[key] else key
  }

  function Placeholder(name: string): (r: string)
    ensures |r| == |name| + 2 && r[0] == '{' && r[|r| - 1] == '}'
  {
    "{" + name + "}"
  }

  /** A parameter's text: a JSON string as its contents, any other value as `render` writes it. */
  function ParamText(v: Json, render: Json -> string): string
  {
    if v.JStr? then v.s else render(v)
  }

  predicate OccursAt(s: string, pat: string, i: nat)
  {
    i + |pat| <= |s| && s[i..i + |pat|] == pat
  }

  /** `str::replace` for a non-empty pattern: occurrences replaced left to right, never overlapping. */
  function ReplaceAll(s: string, pat: string, rep: string): string
    requires pat != []
    decreases |s|
  {
    if |s| < |pat| then s
    else if s[..|pat|] == pat then rep + ReplaceAll(s[|pat|..], pat, rep)
    else [s[0]] + ReplaceAll(s[1..], pat, rep)
  }

  /** Text without the pattern is left unchanged. */
  lemma {:induction false} ReplaceAbsent(s: string, pat: string, rep: string)
    requires pat != []
    requires forall i :: 0 <= i <= |s| ==> !OccursAt(s, pat, i)
    ensures ReplaceAll(s, pat, rep) == s
    decreases |s|
  {
    if |s| >= |pat| {
      assert !OccursAt(s, pat, 0);
      forall i | 0 <= i <= |s[1..]|
        ensures !OccursAt(s[1..], pat, i)
      {
        assert !OccursAt(s, pat, i + 1);
        if i + |pat| <= |s[1..]| {
          assert s[1..][i..i + |pat|] == s[i + 1..i + 1 + |pat|];
        }
      }
      ReplaceAbsent(s[1..], pat, rep);
    }
  }

  /**
   * Text before the first '{' of a placeholder is copied: the placeholder
   * found after it is the one replaced.
   */
  lemma {:induction false} ReplaceAfterPlainText(pre: string, name: string, post: string, rep: string)
    requires forall k :: 0 <= k < |pre| ==> pre[k] != '{'
    ensures ReplaceAll(pre + Placeholder(name) + post, Placeholder(name), rep)
         == pre + rep + ReplaceAll(post, Placeholder(name), rep)
    decreases |pre|
  {
    var pat := Placeholder(name);
    var s := pre + pat + post;
    if pre == [] {
      assert s == pat + post;
      assert s[..|pat|] == pat;
      assert s[|pat|..] == post;
    } else {
      assert s[0] == pre[0];
      assert s[..|pat|] != pat by {
        assert s[..|pat|][0] == pre[0];
      }
      assert s[1..] == pre[1..] + pat + post;
      ReplaceAfterPlainText(pre[1..], name, post, rep);
      assert pre == [pre[0]] + pre[1..];
    }
  }

  /** Each parameter in turn replaces its placeholder in the message. */
  function Substitute(msg: string, params: seq<(string, Json)>, render: Json -> string): string
    decreases |params|
  {
    if params == [] then msg
    else Substitute(ReplaceAll(msg, Placeholder(params[0].0), ParamText(params[0].1, render)), params[1..], render)
  }

  /**
   * resolve_user_message.  `params` are the parameters in their map's
   * iteration order; `render` is serde_json's rendering of a non-string value.
   */
  function Resolve(dicts: Dicts, key: string, params: seq<(string, Json)>, locale: string, render: Json -> string): string
  {
    Substitute(Template(SelectDict(dicts, locale), key), params, render)
  }

  /** Without parameters, an unknown key is shown as the key itself, whatever the locale. */
  lemma MissingKeyShowsKey(dicts: Dicts, key: string, locale: string, render: Json -> string)
    requires SelectDict(dicts, locale).None? || key !in SelectDict(dicts, locale).value
    ensures Resolve(dicts, key, [], locale, render) == key
  {
  }

  /**
   * The source's own example: a template whose "{id}" follows plain text,
   * given id = "abc", contains "abc" right after that text.
   */
  lemma ParamAppearsInMessage(dicts: Dicts, key: string, locale: string, pre: string, post: string, render: Json -> string)
    requires SelectDict(dicts, locale).Some? && key in SelectDict(dicts, locale).value
    requires SelectDict(dicts, locale).value[key] == pre + "{id}" + post
    requires forall k :: 0 <= k < |pre| ==> pre[k] != '{'
    ensures var msg := Resolve(dicts, key, [("id", JStr("abc"))], locale, render);
      |pre| + 3 <= |msg| && msg[|pre|..|pre| + 3] == "abc"
  {
    assert Placeholder("id") == "{id}";
    ReplaceAfterPlainText(pre, "id", post, "abc");
    var msg := Resolve(dicts, key, [("id", JStr("abc"))], locale, render);
    assert msg == pre + "abc" + ReplaceAll(post, "{id}", "abc");
  }

  /** resolve_user_message as its loop runs, rebinding the message once per parameter. */
  method ResolveUserMessage(dicts: Dicts, key: string, params: seq<(string, Json)>, locale: string, render: Json -> string)
    returns (msg: string)
    ensures msg == Resolve(dicts, key, params, locale, render)
  {
    var dict := SelectDict(dicts, locale);
    msg := Template(dict, key);
    for i := 0 to |params|
      invariant Substitute(msg, params[i..], render) == Resolve(dicts, key, params, locale, render)
    {
      assert params[i..][1..] == params[i + 1..];
      var (k, v) := params[i];
      var text := if v.JStr? then v.s else render(v);
      msg := ReplaceAll(msg, "{" + k + "}", text);
    }
  }
}
