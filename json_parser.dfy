/*
 * Best-effort extraction of a JSON object from a model's raw output.
 * `json.loads` is a parameter: a partial function from text to a JSON value
 * (None where it would raise). The error log is not modelled.
 */
module JsonParser {
  import opened Common
  import opened PyJson

  /** `s.find(c)`: the first index of `c`, or -1. */
  function Find(s: string, c: char): (i: int)
    ensures -1 <= i < |s|
    ensures i == -1 <==> c !in s
    ensures i >= 0 ==> s[i] == c && c !in s[..i]
  {
    if s == [] then -1
    else if s[0] == c then 0
    else
      var k := Find(s[1..], c);
      if k == -1 then -1
      else
        assert s[..k + 1] == [s[0]] + s[1..][..k];
        k + 1
  }

  /** `s.rfind(c)`: the last index of `c`, or -1. */
  function RFind(s: string, c: char): (i: int)
    ensures -1 <= i < |s|
    ensures i == -1 <==> c !in s
    ensures i >= 0 ==> s[i] == c && c !in s[i + 1..]
  {
    if s == [] then -1
    else if s[|s| - 1] == c then |s| - 1
    else
      var k := RFind(s[..|s| - 1], c);
      assert s == s[..|s| - 1] + [s[|s| - 1]];
      if k >= 0 then assert s[k + 1..] == s[..|s| - 1][k + 1..] + [s[|s| - 1]]; k
      else k
  }

  /** The braces slice `text[start : end + 1]`, when `}` comes after `{`. */
  function BraceSlice(text: string): (r: Option<string>)
    ensures r.Some? <==> Find(text, '{') != -1 && RFind(text, '}') > Find(text, '{')
    ensures r.Some? ==> |r.value| >= 2 && r.value[0] == '{' && r.value[|r.value| - 1] == '}'
  {
    var start := Find(text, '{');
    var end := RFind(text, '}');
    if start != -1 && end != -1 && end > start then Some(text[start..end + 1]) else None
  }

  /**
   * `extract_json_object(raw_output)`: a dict is returned unchanged; a value
   * that is neither dict nor str gives {}; a string is stripped and parsed
   * whole (the parsed value is returned whatever its kind), else its braces
   * slice is parsed, else {}.
   */
  function ExtractJsonObject(raw: Json, loads: string -> Option<Json>): (r: Json)
    ensures raw.JObj? ==> r == raw
    ensures !raw.JObj? && !raw.JStr? ==> r == JObj([])
    ensures raw.JStr? && loads(Strip(raw.s)).Some? ==> r == loads(Strip(raw.s)).value
    ensures raw.JStr? && loads(Strip(raw.s)).None? ==>
      var slice := BraceSlice(Strip(raw.s));
      r == (if slice.Some? && loads(slice.value).Some? then loads(slice.value).value else JObj([]))
  {
    if raw.JObj? then raw
    else if !raw.JStr? then JObj([])
    else
      var text := Strip(raw.s);
      var direct := loads(text);
      if direct.Some? then direct.value
      else
        var slice := BraceSlice(text);
        if slice.Some? && loads(slice.value).Some? then loads(slice.value).value
        else JObj([])
  }

  /**
   * The result is always something `loads` produced or a dict: the function
   * never fails, and a non-dict result can only come from a successful parse.
   */
  lemma ExtractNeverFails(raw: Json, loads: string -> Option<Json>)
    ensures var r := ExtractJsonObject(raw, loads);
      r.JObj? || (raw.JStr? && exists t :: loads(t) == Some(r))
  {
    var r := ExtractJsonObject(raw, loads);
    if !r.JObj? && raw.JStr? {
      var text := Strip(raw.s);
      if loads(text).Some? {
        assert loads(text) == Some(r);
      } else {
        var slice := BraceSlice(text);
        assert loads(slice.value) == Some(r);
      }
    }
  }

  /** A string without a `{` before a later `}` that does not parse whole gives {}. */
  lemma NoBracesGivesEmpty(s: string, loads: string -> Option<Json>)
    requires loads(Strip(s)).None?
    requires '{' !in Strip(s)
    ensures ExtractJsonObject(JStr(s), loads) == JObj([])
  {
  }

  /**
   * As written, a string that parses whole to something other than an
   * object (here the list `[1]`) comes back as that value, not as a dict.
   */
  lemma ListOutputIsReturned(loads: string -> Option<Json>)
    requires loads("[1]") == Some(JList([JInt(1)]))
    ensures ExtractJsonObject(JStr("[1]"), loads) == JList([JInt(1)])
  {
    StripUnchanged("[1]");
  }

  /**
   * The extraction the function's contract describes: whatever the output,
   * the result is a dict; a parsed value that is not one counts as a failed
   * attempt and gives {}.
   */
  function ExtractObject(raw: Json, loads: string -> Option<Json>): (r: Json)
    ensures r.JObj?
    ensures ExtractJsonObject(raw, loads).JObj? ==> r == ExtractJsonObject(raw, loads)
    ensures !ExtractJsonObject(raw, loads).JObj? ==> r == JObj([])
  {
    var v := ExtractJsonObject(raw, loads);
    if v.JObj? then v else JObj([])
  }
}
