/**
 * The analysis action of app/actions/analyze.ts: post a script to the
 * upstream workflow, turn its `data.outputs` into a style configuration, and
 * save one row to the `styles` table.
 *
 * Everything outside the process is a parameter: the workflow's reply, the
 * date (`today`, an ISO timestamp), `JSON.parse` (`parse`) and the error the
 * database insert reports, if any.
 */
module AnalyzeAction {
  import opened Options
  import opened Seqs
  import opened Text
  import opened Json
  import opened Http

  datatype AnalyzeEnv = AnalyzeEnv(apiUrl: Option<string>, apiKey: Option<string>)

  /** The JSON posted to the workflow: `{inputs: {original_script}, response_mode, user}`. */
  datatype WorkflowBody = WorkflowBody(originalScript: string, responseMode: string, user: string)

  datatype WorkflowRequest = WorkflowRequest(url: string, headers: seq<(string, string)>, body: WorkflowBody)

  /** What `res.json()` gave: a value, or the message of the error it threw. */
  datatype JsonBody = Parsed(value: Json) | NotJson(message: string)

  /** What `fetch` gave: a rejection with its message, or a status with the body as text and as JSON. */
  datatype WorkflowReply =
    | Rejected(message: string)
    | Answered(status: nat, text: string, body: JsonBody)

  datatype StyleRow = StyleRow(name: string, description: string, configJson: Json)

  datatype AnalyzeResult = Success | Failure(error: string)

  /** The request made (if any), the row inserted (if any), and what the caller receives. */
  datatype AnalysisRun = AnalysisRun(request: Option<WorkflowRequest>, inserted: Option<StyleRow>, result: AnalyzeResult)

  const CONFIG_ERROR := "DIFY_API_URL and DIFY_API_KEY must be set in .env.local"
  const NO_OUTPUTS := "Dify response had no data.outputs. Check your workflow output nodes."
  const NO_CONFIG :=
    "Dify output did not contain a parseable object or JSON string (expected style_name and tone)."
  const UPSTREAM_ERROR_LIMIT := 300
  const USER_NAME := "vibe-creator-user"
  const RLS_HINT := " If the error is related to permissions, check Supabase RLS policies for the styles table."
  const THINK_OPEN := "<think>"
  const THINK_CLOSE := "</think>"

  /** The message of the `TypeError` thrown by reading property `key` of `null`. */
  function NullRead(key: string): string {
    "Cannot read properties of null (reading '" + key + "')"
  }

  // ---------------------------------------------------------------------------
  // Removing reasoning blocks: `raw.replace(/<think>[\s\S]*?<\/think>/gi, '')`
  // ---------------------------------------------------------------------------

  /** `pat` occurs at the start of `s`, ignoring the case of ASCII letters. */
  predicate StartsWithCI(s: string, pat: string) {
    |pat| <= |s| && Lower(s[..|pat|]) == pat
  }

  /** The first position of `pat` in `s`, ignoring case. */
  function FindCI(s: string, pat: string): (r: Option<nat>)
    ensures r.Some? ==> r.value + |pat| <= |s| && StartsWithCI(s[r.value..], pat)
    ensures r.Some? ==> forall k :: 0 <= k < r.value ==> !StartsWithCI(s[k..], pat)
    ensures r.None? ==> forall k :: 0 <= k <= |s| ==> !StartsWithCI(s[k..], pat)
    decreases |s|
  {
    if StartsWithCI(s, pat) then Some(0)
    else if s == [] then None
    else
      match FindCI(s[1..], pat)
      case None =>
        assert forall k :: 1 <= k <= |s| ==> s[k..] == s[1..][k - 1..];
        None
      case Some(k) =>
        assert forall j :: 1 <= j <= |s| ==> s[j..] == s[1..][j - 1..];
        Some(k + 1)
  }

  /**
   * The global, case-insensitive, lazy replacement: at each position, an
   * opening tag with a closing tag somewhere after it is removed up to and
   * including the first such closing tag; otherwise one character is kept and
   * the scan moves on.
   */
  function StripThink(s: string): (r: string)
    ensures |r| <= |s|
    decreases |s|
  {
    if s == [] then []
    else if StartsWithCI(s, THINK_OPEN) && FindCI(s[|THINK_OPEN|..], THINK_CLOSE).Some? then
      var k := FindCI(s[|THINK_OPEN|..], THINK_CLOSE).value;
      StripThink(s[|THINK_OPEN| + k + |THINK_CLOSE|..])
    else [s[0]] + StripThink(s[1..])
  }

  /** Text without an opening tag passes through unchanged. */
  lemma {:induction false} StripThinkNoTag(s: string)
    requires FindCI(s, THINK_OPEN).None?
    ensures StripThink(s) == s
    decreases |s|
  {
    if s != [] {
      assert !StartsWithCI(s[0..], THINK_OPEN);
      assert s[0..] == s;
      assert forall k :: 0 <= k <= |s| - 1 ==> s[1..][k..] == s[k + 1..];
      StripThinkNoTag(s[1..]);
    }
  }

  /** A leading reasoning block is removed with everything up to its first closing tag. */
  lemma StripThinkBlock(thought: string, rest: string)
    requires FindCI(thought, THINK_CLOSE).None?
    ensures StripThink(THINK_OPEN + thought + THINK_CLOSE + rest) == StripThink(rest)
  {
    assert Lower(THINK_OPEN) == THINK_OPEN;
    assert Lower(THINK_CLOSE) == THINK_CLOSE;
    LeadingBlock(THINK_OPEN, thought, THINK_CLOSE, rest);
  }

  /** The same, with the tags written in any letter case. */
  lemma LeadingBlock(open: string, thought: string, close: string, rest: string)
    requires Lower(open) == THINK_OPEN && Lower(close) == THINK_CLOSE
    requires FindCI(thought, THINK_CLOSE).None?
    ensures StripThink(open + thought + close + rest) == StripThink(rest)
  {
    var s := open + thought + close + rest;
    assert s[..|THINK_OPEN|] == open;
    assert s[|THINK_OPEN|..] == thought + close + rest;
    FirstCloseAfter(thought, close, rest);
    assert s[|THINK_OPEN| + |thought| + |THINK_CLOSE|..] == rest;
  }

  /**
   * A block anywhere, its tags written in any letter case, is removed with
   * everything up to its first closing tag; the text before it, which opens
   * no block, is kept as it is.
   */
  lemma StripThinkAfter(pre: string, open: string, thought: string, close: string, rest: string)
    requires FindCI(pre, THINK_OPEN).None?
    requires Lower(open) == THINK_OPEN && Lower(close) == THINK_CLOSE
    requires FindCI(thought, THINK_CLOSE).None?
    ensures StripThink(pre + open + thought + close + rest) == pre + StripThink(rest)
  {
    var x := open + thought + close + rest;
    assert x[0] == open[0] && LowerChar(open[0]) == Lower(open)[0];
    KeepPrefix(pre, x);
    LeadingBlock(open, thought, close, rest);
    RegroupFive(pre, open, thought, close, rest);
  }

  /** Text that opens no block is kept as it is when a `<` follows it. */
  lemma {:induction false} KeepPrefix(pre: string, x: string)
    requires FindCI(pre, THINK_OPEN).None?
    requires x != [] && LowerChar(x[0]) == '<'
    ensures StripThink(pre + x) == pre + StripThink(x)
    decreases |pre|
  {
    if pre == [] {
      assert pre + x == x;
    } else {
      var s := pre + x;
      NoOpenBefore(pre, x);
      KeepFirst(s);
      assert s[0] == pre[0] && s[1..] == pre[1..] + x;
      FindCISuffix(pre, THINK_OPEN, 1);
      KeepPrefix(pre[1..], x);
      ConsAppend(pre, StripThink(x));
    }
  }

  /** Where no opening tag starts, the first character is kept. */
  lemma KeepFirst(s: string)
    requires s != [] && !StartsWithCI(s, THINK_OPEN)
    ensures StripThink(s) == [s[0]] + StripThink(s[1..])
  {
  }

  /** Text that opens no block, followed by a `<`, does not start with an opening tag. */
  lemma NoOpenBefore(pre: string, x: string)
    requires pre != [] && FindCI(pre, THINK_OPEN).None?
    requires x != [] && LowerChar(x[0]) == '<'
    ensures !StartsWithCI(pre + x, THINK_OPEN)
  {
    var s := pre + x;
    if |pre| >= |THINK_OPEN| {
      assert !StartsWithCI(pre[0..], THINK_OPEN);
      assert s[..|THINK_OPEN|] == pre[0..][..|THINK_OPEN|];
    } else {
      assert s[|pre|] == x[0];
      TagStraddle(s, |pre|, THINK_OPEN);
    }
  }

  /** Text without a closing tag passes through unchanged, even when it holds an opening tag. */
  lemma {:induction false} StripThinkNoClose(s: string)
    requires FindCI(s, THINK_CLOSE).None?
    ensures StripThink(s) == s
    decreases |s|
  {
    if s != [] {
      if StartsWithCI(s, THINK_OPEN) {
        FindCISuffix(s, THINK_CLOSE, |THINK_OPEN|);
      }
      FindCISuffix(s, THINK_CLOSE, 1);
      StripThinkNoClose(s[1..]);
      assert s == [s[0]] + s[1..];
    }
  }

  /** A pattern absent from a text is absent from each of its suffixes. */
  lemma FindCISuffix(s: string, pat: string, k: nat)
    requires FindCI(s, pat).None? && k <= |s|
    ensures FindCI(s[k..], pat).None?
  {
  }

  /** In `thought + close + rest`, the first closing tag is `close`, the one after the thought. */
  lemma FirstCloseAfter(thought: string, close: string, rest: string)
    requires FindCI(thought, THINK_CLOSE).None?
    requires Lower(close) == THINK_CLOSE
    ensures FindCI(thought + close + rest, THINK_CLOSE) == Some(|thought|)
  {
    var after := thought + close + rest;
    var k := |thought|;
    assert after[k..][..|THINK_CLOSE|] == close;
    forall j | 0 <= j < k ensures !StartsWithCI(after[j..], THINK_CLOSE) {
      if j + |THINK_CLOSE| <= k {
        assert after[j..][..|THINK_CLOSE|] == thought[j..][..|THINK_CLOSE|];
        assert !StartsWithCI(thought[j..], THINK_CLOSE);
      } else {
        var u := after[j..];
        assert u[k - j] == close[0];
        assert LowerChar(close[0]) == Lower(close)[0] == '<';
        TagStraddle(u, k - j, THINK_CLOSE);
      }
    }
    assert StartsWithCI(after[k..], THINK_CLOSE);
    var r := FindCI(after, THINK_CLOSE);
    assert r.Some?;
    assert !(r.value < k);
    assert !(r.value > k);
  }

  /** A tag cannot start where a `<` would have to match one of its later characters. */
  lemma TagStraddle(u: string, m: nat, tag: string)
    requires 0 < m < |tag| && m < |u| && LowerChar(u[m]) == '<' && tag[m] != '<'
    ensures !StartsWithCI(u, tag)
  {
    if |tag| <= |u| {
      assert Lower(u[..|tag|])[m] == '<';
    }
  }

  // ---------------------------------------------------------------------------
  // Choosing the configuration from `data.outputs`
  // ---------------------------------------------------------------------------

  /** Where the configuration comes from: the outputs themselves, a string to parse, or nowhere. */
  datatype Selection = Verbatim(config: Json) | FromText(raw: string) | NoConfig

  /** `typeof outputs === 'object' && outputs !== null`. */
  predicate IsObjectLike(v: Json) {
    v.JObj? || v.JArr?
  }

  /** `Object.values(v)` for an object or array. */
  function ValuesOf(v: Json): (r: seq<Json>)
    ensures v.JArr? ==> r == v.items
    ensures v.JObj? ==> |r| == |v.fields| && forall i :: 0 <= i < |r| ==> r[i] == v.fields[i].1
  {
    match v
    case JArr(items) => items
    case JObj(fields) => seq(|fields|, i requires 0 <= i < |fields| => fields[i].1)
    case _ => []
  }

  /** `values.find(v => typeof v === 'string')`: the first string among the values. */
  function FirstString(values: seq<Json>): (r: Option<string>)
    ensures r.Some? ==> JStr(r.value) in values
    ensures r.None? <==> forall i :: 0 <= i < |values| ==> !values[i].JStr?
    ensures r.Some? && values[0].JStr? ==> r.value == values[0].s
    ensures r.Some? ==>
      exists i :: 0 <= i < |values| && values[i] == JStr(r.value) && forall j :: 0 <= j < i ==> !values[j].JStr?
  {
    if values == [] then None
    else if values[0].JStr? then Some(values[0].s)
    else
      var r := FirstString(values[1..]);
      assert forall i :: 1 <= i < |values| ==> values[i] == values[1..][i - 1];
      assert r.Some? ==>
        exists i :: 0 <= i < |values| && values[i] == JStr(r.value) && forall j :: 0 <= j < i ==> !values[j].JStr?
      by {
        if r.Some? {
          var k :|
            0 <= k < |values[1..]| && values[1..][k] == JStr(r.value) && forall j :: 0 <= j < k ==> !values[1..][j].JStr?;
          assert values[k + 1] == JStr(r.value);
          assert forall j :: 0 <= j < k + 1 ==> !values[j].JStr?;
        }
      }
      r
  }

  /** `outputsObj.style_name != null || outputsObj.tone != null`. */
  predicate NamesStyle(outputs: Json) {
    !IsNullish(Get(outputs, "style_name")) || !IsNullish(Get(outputs, "tone"))
  }

  /** The string the fallbacks would parse: `analysis_result` if it is a string, else the first string value. */
  function FallbackText(outputs: Json): Option<string> {
    match Get(outputs, "analysis_result")
    case Some(JStr(s)) => Some(s)
    case _ => FirstString(ValuesOf(outputs))
  }

  /**
   * The selection as written at lines 58-76: an object or array with any key
   * at all is taken verbatim, so the `analysis_result` and first-string
   * fallbacks only ever see an empty object and never produce a string.
   */
  function SelectAsWritten(outputs: Json): (r: Selection)
    ensures r.FromText? ==> outputs.JStr?
    ensures outputs.JStr? ==> r == FromText(outputs.s)
    ensures IsObjectLike(outputs) && HasKeys(outputs) ==> r == Verbatim(outputs)
    ensures r.NoConfig? <==> !(outputs.JStr? || (IsObjectLike(outputs) && HasKeys(outputs)))
  {
    if IsObjectLike(outputs) && (NamesStyle(outputs) || HasKeys(outputs)) then Verbatim(outputs)
    else if outputs.JStr? then FromText(outputs.s)
    else if IsObjectLike(outputs) then
      assert ValuesOf(outputs) == [];
      match FallbackText(outputs)
      case Some(raw) => FromText(raw)
      case None => NoConfig
    else NoConfig
  }

  /**
   * The selection as the comment at line 56 describes it: an object naming a
   * style or tone is used directly; otherwise a string is parsed, whether it
   * is the outputs themselves, `analysis_result`, or the first string value;
   * any other non-empty object or array is used directly.
   */
  function SelectConfig(outputs: Json): (r: Selection)
    ensures r.Verbatim? ==> r.config == outputs && IsObjectLike(outputs)
    ensures IsObjectLike(outputs) && NamesStyle(outputs) ==> r == Verbatim(outputs)
    ensures outputs.JStr? ==> r == FromText(outputs.s)
    ensures IsObjectLike(outputs) && !NamesStyle(outputs) && FallbackText(outputs).Some? ==>
      r == FromText(FallbackText(outputs).value)
    ensures IsObjectLike(outputs) && HasKeys(outputs) && !NamesStyle(outputs) && FallbackText(outputs).None? ==>
      r == Verbatim(outputs)
    ensures r.NoConfig? <==> !(outputs.JStr? || (IsObjectLike(outputs) && HasKeys(outputs)))
  {
    if IsObjectLike(outputs) && NamesStyle(outputs) then
      NamesStyleHasKeys(outputs);
      Verbatim(outputs)
    else if outputs.JStr? then FromText(outputs.s)
    else if IsObjectLike(outputs) && FallbackText(outputs).Some? then
      FallbackHasKeys(outputs);
      FromText(FallbackText(outputs).value)
    else if IsObjectLike(outputs) && HasKeys(outputs) then Verbatim(outputs)
    else NoConfig
  }

  lemma NamesStyleHasKeys(outputs: Json)
    requires NamesStyle(outputs)
    ensures HasKeys(outputs)
  {
    if Get(outputs, "style_name").Some? {
      assert outputs.JObj?;
    }
  }

  lemma FallbackHasKeys(outputs: Json)
    requires IsObjectLike(outputs) && FallbackText(outputs).Some?
    ensures HasKeys(outputs)
  {
    if outputs.JObj? && Get(outputs, "analysis_result").Some? {
      assert |outputs.fields| > 0;
    }
  }

  /** The two selections differ only for objects without a style name or tone that hold a string value. */
  lemma SelectionsAgree(outputs: Json)
    requires !IsObjectLike(outputs) || NamesStyle(outputs) || FallbackText(outputs).None?
    ensures SelectConfig(outputs) == SelectAsWritten(outputs)
  {
    if IsObjectLike(outputs) && NamesStyle(outputs) {
      NamesStyleHasKeys(outputs);
    }
  }

  /** The discrepancy: a JSON string in `analysis_result` is stored as the object around it instead of being parsed. */
  lemma AnalysisResultIgnored(raw: string)
    ensures var outputs := JObj([("analysis_result", JStr(raw))]);
      SelectAsWritten(outputs) == Verbatim(outputs) && SelectConfig(outputs) == FromText(raw)
  {
    var outputs := JObj([("analysis_result", JStr(raw))]);
    assert Get(outputs, "analysis_result") == Some(JStr(raw));
  }

  // ---------------------------------------------------------------------------
  // The row and the whole run
  // ---------------------------------------------------------------------------

  /** `raw.replace(...).trim()`, then `JSON.parse`, falling back to `{raw: stripped}` when it does not parse. */
  function ParseStripped(raw: string, parse: string -> Option<Json>): (r: Json)
    ensures parse(Trim(StripThink(raw))).None? ==> r == JObj([("raw", JStr(Trim(StripThink(raw))))])
    ensures parse(Trim(StripThink(raw))).Some? ==> r == parse(Trim(StripThink(raw))).value
  {
    var stripped := Trim(StripThink(raw));
    match parse(stripped)
    case Some(v) => v
    case None => JObj([("raw", JStr(stripped))])
  }

  /** The configuration the selection yields. */
  function ConfigOf(sel: Selection, parse: string -> Option<Json>): Json
    requires !sel.NoConfig?
  {
    match sel
    case Verbatim(c) => c
    case FromText(raw) => ParseStripped(raw, parse)
  }

  /** `Bilibili Style [YYYY-MM-DD]`, the date being the first ten characters of the ISO timestamp. */
  function FallbackName(today: string): (r: string)
    ensures !Blank(r)
  {
    var r := "Bilibili Style [" + Take(today, 10) + "]";
    assert !IsSpace(r[0]);
    assert !AllSpace(r);
    r
  }

  /** `v != null ? String(v).trim() : ''`. */
  function TrimmedText(v: Option<Json>): (r: string)
    ensures IsNullish(v) ==> r == ""
    ensures r != [] ==> !IsSpace(r[0]) && !IsSpace(r[|r| - 1])
  {
    if IsNullish(v) then "" else
      var t := Trim(ToText(v.value));
      assert t != [] ==> !IsSpace(t[0]) && !IsSpace(t[|t| - 1]);
      t
  }

  /** The row saved for a configuration: its trimmed style name (or the dated fallback), its trimmed tone, and the configuration. */
  function RowFor(config: Json, today: string): (row: StyleRow)
    ensures row.configJson == config
    ensures !Blank(row.name)
    ensures TrimmedText(Get(config, "style_name")) != "" ==> row.name == TrimmedText(Get(config, "style_name"))
    ensures TrimmedText(Get(config, "style_name")) == "" ==> row.name == FallbackName(today)
    ensures row.description == TrimmedText(Get(config, "tone"))
  {
    var name := TrimmedText(Get(config, "style_name"));
    if name != "" then
      assert !AllSpace(name) by {
        assert !IsSpace(name[0]);
      }
      StyleRow(name, TrimmedText(Get(config, "tone")), config)
    else StyleRow(FallbackName(today), TrimmedText(Get(config, "tone")), config)
  }

  predicate Configured(env: AnalyzeEnv) {
    env.apiUrl.Some? && !Blank(env.apiUrl.value) && env.apiKey.Some? && !Blank(env.apiKey.value)
  }

  /** The `data.outputs` of a reply body, `None` when it is missing or null. */
  function OutputsOf(json: Json): (r: Option<Json>)
    requires json != JNull
    ensures r.Some? ==> r.value != JNull
  {
    var data := Get(json, "data");
    var outputs := if IsNullish(data) then None else Get(data.value, "outputs");
    if IsNullish(outputs) then None else outputs
  }

  /** The workflow was called and answered with a 2xx status. */
  predicate Delivered(env: AnalyzeEnv, reply: WorkflowReply) {
    Configured(env) && reply.Answered? && IsOk(reply.status)
  }

  /**
   * `runScriptAnalysis(script)`. The workflow is called only when both the URL
   * and the key are set; a row is inserted only when the workflow answered
   * with outputs from which a non-null configuration was obtained; the action
   * reports success exactly when that insert succeeded.
   */
  function RunScriptAnalysis(env: AnalyzeEnv, script: string, reply: WorkflowReply, parse: string -> Option<Json>,
                             today: string, insertError: Option<string>): (run: AnalysisRun)
    ensures run.request.Some? <==> Configured(env)
    ensures !Configured(env) ==> run.result == Failure(CONFIG_ERROR)
    ensures run.request.Some? ==>
      && run.request.value.url == StripTrailingSlash(env.apiUrl.value) + "/workflows/run"
      && run.request.value.headers ==
         [("Content-Type", "application/json"), ("Authorization", "Bearer " + env.apiKey.value)]
      && run.request.value.body == WorkflowBody(script, "blocking", USER_NAME)
    ensures run.inserted.Some? ==>
      && Delivered(env, reply) && reply.body.Parsed? && reply.body.value != JNull && OutputsOf(reply.body.value).Some?
      && !SelectAsWritten(OutputsOf(reply.body.value).value).NoConfig?
      && run.inserted == Some(RowFor(ConfigOf(SelectAsWritten(OutputsOf(reply.body.value).value), parse), today))
      && !Blank(run.inserted.value.name)
    ensures Configured(env) && reply.Rejected? ==> run.result == Failure(reply.message)
    ensures Delivered(env, reply) && reply.body.NotJson? ==> run.result == Failure(reply.body.message)
    ensures Delivered(env, reply) && reply.body == Parsed(JNull) ==> run.result == Failure(NullRead("data"))
    ensures Delivered(env, reply) && reply.body.Parsed? && reply.body.value != JNull ==>
      && (OutputsOf(reply.body.value).None? ==> run.result == Failure(NO_OUTPUTS))
      && (OutputsOf(reply.body.value).Some? && SelectAsWritten(OutputsOf(reply.body.value).value).NoConfig? ==>
            run.result == Failure(NO_CONFIG))
    ensures Delivered(env, reply) && reply.body.Parsed? && reply.body.value != JNull && OutputsOf(reply.body.value).Some? &&
            !SelectAsWritten(OutputsOf(reply.body.value).value).NoConfig? ==>
      var config := ConfigOf(SelectAsWritten(OutputsOf(reply.body.value).value), parse);
      && (config == JNull ==> run.inserted.None? && run.result == Failure(NullRead("style_name")))
      && (config != JNull ==> run.inserted == Some(RowFor(config, today)))
    ensures run.result.Success? <==> run.inserted.Some? && insertError.None?
    ensures reply.Answered? && !IsOk(reply.status) && Configured(env) ==>
      run.inserted.None? && run.result == Failure(UpstreamError(reply.status, reply.text, UPSTREAM_ERROR_LIMIT))
    ensures run.inserted.Some? && insertError.Some? ==>
      run.result == Failure("Failed to save to database: " + insertError.value + RLS_HINT)
    ensures Configured(env) && reply.Answered? && IsOk(reply.status) && reply.body.Parsed? && reply.body.value != JNull &&
            OutputsOf(reply.body.value).Some? && IsObjectLike(OutputsOf(reply.body.value).value) &&
            HasKeys(OutputsOf(reply.body.value).value) ==>
      run.inserted == Some(RowFor(OutputsOf(reply.body.value).value, today))
  {
    if !Configured(env) then AnalysisRun(None, None, Failure(CONFIG_ERROR))
    else
      var request := WorkflowRequest(
        StripTrailingSlash(env.apiUrl.value) + "/workflows/run",
        [("Content-Type", "application/json"), ("Authorization", "Bearer " + env.apiKey.value)],
        WorkflowBody(script, "blocking", USER_NAME));
      match reply
      case Rejected(message) => AnalysisRun(Some(request), None, Failure(message))
      case Answered(status, text, body) =>
        if !IsOk(status) then
          AnalysisRun(Some(request), None, Failure(UpstreamError(status, text, UPSTREAM_ERROR_LIMIT)))
        else
          match body
          case NotJson(message) => AnalysisRun(Some(request), None, Failure(message))
          case Parsed(json) =>
            if json == JNull then AnalysisRun(Some(request), None, Failure(NullRead("data")))
            else
              match OutputsOf(json)
              case None => AnalysisRun(Some(request), None, Failure(NO_OUTPUTS))
              case Some(outputs) =>
                var sel := SelectAsWritten(outputs);
                if sel.NoConfig? then AnalysisRun(Some(request), None, Failure(NO_CONFIG))
                else
                  var config := ConfigOf(sel, parse);
                  if config == JNull then AnalysisRun(Some(request), None, Failure(NullRead("style_name")))
                  else
                    var row := RowFor(config, today);
                    var result :=
                      if insertError.Some? then Failure("Failed to save to database: " + insertError.value + RLS_HINT)
                      else Success;
                    AnalysisRun(Some(request), Some(row), result)
  }

  /**
   * A string output is the text the workflow produced: its reasoning blocks are
   * removed, it is trimmed and parsed (or wrapped as `{raw: ...}`), and the
   * row is built from that configuration.
   */
  lemma TextOutputSaved(env: AnalyzeEnv, script: string, status: nat, text: string, json: Json, raw: string,
                        parse: string -> Option<Json>, today: string, insertError: Option<string>)
    requires Configured(env) && IsOk(status) && json != JNull
    requires OutputsOf(json) == Some(JStr(raw))
    requires ParseStripped(raw, parse) != JNull
    ensures var run := RunScriptAnalysis(env, script, Answered(status, text, Parsed(json)), parse, today, insertError);
      run.inserted == Some(RowFor(ParseStripped(raw, parse), today))
  {
    assert Delivered(env, Answered(status, text, Parsed(json)));
    assert ConfigOf(SelectAsWritten(JStr(raw)), parse) == ParseStripped(raw, parse);
  }

  /** A reasoning block in front of a string output does not reach the saved row. */
  lemma ThoughtNotSaved(thought: string, rest: string, parse: string -> Option<Json>)
    requires FindCI(thought, THINK_CLOSE).None?
    ensures ParseStripped(THINK_OPEN + thought + THINK_CLOSE + rest, parse) == ParseStripped(rest, parse)
  {
    StripThinkBlock(thought, rest);
  }

  /** An object reply that names its style is saved verbatim, under that (trimmed) name. */
  lemma NamedOutputsSavedVerbatim(env: AnalyzeEnv, script: string, status: nat, text: string, json: Json,
                                  parse: string -> Option<Json>, today: string, insertError: Option<string>)
    requires Configured(env) && IsOk(status) && json != JNull
    requires OutputsOf(json).Some? && IsObjectLike(OutputsOf(json).value)
    requires TrimmedText(Get(OutputsOf(json).value, "style_name")) != ""
    ensures var run := RunScriptAnalysis(env, script, Answered(status, text, Parsed(json)), parse, today, insertError);
      run.inserted == Some(StyleRow(TrimmedText(Get(OutputsOf(json).value, "style_name")),
                                    TrimmedText(Get(OutputsOf(json).value, "tone")), OutputsOf(json).value))
  {
    var outputs := OutputsOf(json).value;
    assert NamesStyle(outputs);
    NamesStyleHasKeys(outputs);
  }
}
