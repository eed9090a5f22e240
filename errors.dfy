/** The error taxonomy and its `Display` (src/lib.rs:104-125). */
module Errors {
  import opened Outcome

  datatype PluginError =
    | FailedToLoad(detail: string)
    | InvalidPlugin(detail: string)
    | RuntimeError(detail: string)

  const FAILED_TO_LOAD_PREFIX: string := "Failed to load plugin: "
  const INVALID_PLUGIN_PREFIX: string := "Invalid plugin: "
  const RUNTIME_ERROR_PREFIX: string := "Error occured while using plugin: "

  predicate StartsWith(s: string, prefix: string) {
    |prefix| <= |s| && s[..|prefix|] == prefix
  }

  /** `writeln!` of the variant's fixed text followed by the detail (src/lib.rs:111-125).
      The variant and the detail can be read back from the text. */
  function Display(e: PluginError): (s: string)
    ensures |s| > 0 && s[|s| - 1] == '\n'
    ensures Parse(s) == Some(e)
  {
    match e
    case FailedToLoad(d) =>
      var s := FAILED_TO_LOAD_PREFIX + d + "\n";
      assert s[..|s| - 1][..|FAILED_TO_LOAD_PREFIX|] == FAILED_TO_LOAD_PREFIX;
      assert s[..|s| - 1][|FAILED_TO_LOAD_PREFIX|..] == d;
      s
    case InvalidPlugin(d) =>
      var s := INVALID_PLUGIN_PREFIX + d + "\n";
      assert s[..|s| - 1][..|INVALID_PLUGIN_PREFIX|] == INVALID_PLUGIN_PREFIX;
      assert s[..|s| - 1][|INVALID_PLUGIN_PREFIX|..] == d;
      assert s[0] != FAILED_TO_LOAD_PREFIX[0];
      s
    case RuntimeError(d) =>
      var s := RUNTIME_ERROR_PREFIX + d + "\n";
      assert s[..|s| - 1][..|RUNTIME_ERROR_PREFIX|] == RUNTIME_ERROR_PREFIX;
      assert s[..|s| - 1][|RUNTIME_ERROR_PREFIX|..] == d;
      assert s[0] != FAILED_TO_LOAD_PREFIX[0] && s[0] != INVALID_PLUGIN_PREFIX[0];
      s
  }

  /** Reads a rendered error back: the inverse of `Display`. */
  function Parse(s: string): (r: Option<PluginError>)
  {
    if |s| == 0 || s[|s| - 1] != '\n' then None
    else
      var body := s[..|s| - 1];
      if StartsWith(body, FAILED_TO_LOAD_PREFIX) then Some(FailedToLoad(body[|FAILED_TO_LOAD_PREFIX|..]))
      else if StartsWith(body, INVALID_PLUGIN_PREFIX) then Some(InvalidPlugin(body[|INVALID_PLUGIN_PREFIX|..]))
      else if StartsWith(body, RUNTIME_ERROR_PREFIX) then Some(RuntimeError(body[|RUNTIME_ERROR_PREFIX|..]))
      else None
  }

  /** Every text `Parse` accepts is exactly the display of what it yields. */
  lemma ParseOnlyDisplays(s: string, e: PluginError)
    requires Parse(s) == Some(e)
    ensures Display(e) == s
  {
    var body := s[..|s| - 1];
    assert s == body + "\n";
    match e
    case FailedToLoad(d) =>
      assert body == FAILED_TO_LOAD_PREFIX + d;
    case InvalidPlugin(d) =>
      assert body == INVALID_PLUGIN_PREFIX + d;
    case RuntimeError(d) =>
      assert body == RUNTIME_ERROR_PREFIX + d;
  }

  /** Different errors never render to the same text. */
  lemma DisplayInjective(a: PluginError, b: PluginError)
    requires Display(a) == Display(b)
    ensures a == b
  {
    assert Some(a) == Parse(Display(a)) == Parse(Display(b)) == Some(b);
  }
}
