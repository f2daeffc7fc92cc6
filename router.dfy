/**
  The router file the server writes before it starts PHP
  (`applyRouter`, src/model/BuiltInServer.ts:224-269): the `globals` code built
  from the configured environment variables and constants, and the template
  with its seven variables filled in, in the source's order.
*/
module Router {
  import opened Wrappers
  import opened Strings
  import opened Template

  /** A configured `name -> value` entry, in `Object.entries` order; the value already rendered as text. */
  type Entry = (string, string)

  /** Where the router is written, relative to the project folder. */
  const ROUTER_PATH := ".vscode/phpbis-router.php"

  /** The glue between two statements of the `globals` code. */
  const GLOBALS_SEPARATOR := "\n    "

  function PutenvStatement(e: Entry): string {
    "putenv(\"" + e.0 + "=" + e.1 + "\");"
  }

  function DefineStatement(e: Entry): string {
    "define(\"" + e.0 + "\", " + e.1 + ");"
  }

  /** One `putenv` statement per environment variable, in order. */
  function EnvStatements(envVars: seq<Entry>): (r: seq<string>)
    ensures |r| == |envVars|
    ensures forall k :: 0 <= k < |envVars| ==> r[k] == PutenvStatement(envVars[k])
  {
    if envVars == [] then [] else [PutenvStatement(envVars[0])] + EnvStatements(envVars[1..])
  }

  /** One `define` statement per constant, in order. */
  function ConstStatements(consts: seq<Entry>): (r: seq<string>)
    ensures |r| == |consts|
    ensures forall k :: 0 <= k < |consts| ==> r[k] == DefineStatement(consts[k])
  {
    if consts == [] then [] else [DefineStatement(consts[0])] + ConstStatements(consts[1..])
  }

  /** The two loops of `applyRouter`: environment statements first, then constants. */
  method CollectGlobalStatements(envVars: seq<Entry>, consts: seq<Entry>) returns (statements: seq<string>)
    ensures statements == EnvStatements(envVars) + ConstStatements(consts)
  {
    var env: seq<string> := [];
    for i := 0 to |envVars|
      invariant |env| == i
      invariant forall k :: 0 <= k < i ==> env[k] == PutenvStatement(envVars[k])
    {
      env := env + [PutenvStatement(envVars[i])];
    }
    var defs: seq<string> := [];
    for i := 0 to |consts|
      invariant |defs| == i
      invariant forall k :: 0 <= k < i ==> defs[k] == DefineStatement(consts[k])
    {
      defs := defs + [DefineStatement(consts[i])];
    }
    statements := env + defs;
  }

  /** The text that replaces `{{globals}}`. */
  function GlobalsCode(envVars: seq<Entry>, consts: seq<Entry>): string {
    Join(EnvStatements(envVars) + ConstStatements(consts), GLOBALS_SEPARATOR)
  }

  /** The environment block and the constants block, one separator between them. */
  lemma GlobalsCodeBlocks(envVars: seq<Entry>, consts: seq<Entry>)
    ensures envVars == [] ==> GlobalsCode(envVars, consts) == Join(ConstStatements(consts), GLOBALS_SEPARATOR)
    ensures consts == [] ==> GlobalsCode(envVars, consts) == Join(EnvStatements(envVars), GLOBALS_SEPARATOR)
    ensures envVars != [] && consts != [] ==>
              GlobalsCode(envVars, consts)
              == Join(EnvStatements(envVars), GLOBALS_SEPARATOR) + GLOBALS_SEPARATOR
                 + Join(ConstStatements(consts), GLOBALS_SEPARATOR)
  {
    var env, defs := EnvStatements(envVars), ConstStatements(consts);
    if envVars == [] {
      assert env + defs == defs;
    } else if consts == [] {
      assert env + defs == env;
    } else {
      JoinAppend(env, defs, GLOBALS_SEPARATOR);
    }
  }

  /** The extension's package data the template shows. */
  datatype ExtensionInfo = ExtensionInfo(id: string, displayName: string, author: string, version: string, homepage: string)

  /** The template variables and their values, in the order they are replaced. */
  function RouterVariables(info: ExtensionInfo, socketPort: int, token: string, globals: string): (vars: seq<Entry>)
    ensures |vars| == 7
    ensures forall k :: 0 <= k < |vars| ==> IsVariableName(vars[k].0)
  {
    var vars := [("name", info.displayName), ("author", info.author), ("version", info.version),
                 ("port", IntToString(socketPort)), ("token", token), ("homepage", info.homepage),
                 ("globals", globals)];
    assert IsVariableName("name") && IsVariableName("author") && IsVariableName("version");
    assert IsVariableName("port") && IsVariableName("token") && IsVariableName("homepage");
    assert IsVariableName("globals");
    vars
  }

  /** The chain of `replaceTemplateVariable` calls, one variable after the other. */
  function ReplaceAll(template: string, vars: seq<Entry>): string
    decreases |vars|
  {
    if vars == [] then template else ReplaceAll(Replace(template, vars[0].0, vars[0].1), vars[1..])
  }

  /** The value the first variable named like `id` (in any letter case) gives it. */
  function Lookup(vars: seq<Entry>, id: string): Option<string>
    decreases |vars|
  {
    if vars == [] then None
    else if SameIgnoringCase(id, vars[0].0) then Some(vars[0].1)
    else Lookup(vars[1..], id)
  }

  /** The template with each placeholder replaced by its variable's value; unknown ones kept. */
  function Filled(segs: seq<Segment>, vars: seq<Entry>): string
    decreases |segs|
  {
    if segs == [] then ""
    else
      var seg := segs[0];
      var text := if seg.Slot? && Lookup(vars, seg.id).Some? then Lookup(vars, seg.id).value
                  else SegmentText(seg);
      text + Filled(segs[1..], vars)
  }

  /** Substituting one variable into segments keeps them well formed when the value is plain text. */
  lemma SubstituteWellFormed(segs: seq<Segment>, name: string, value: string)
    requires forall k :: 0 <= k < |segs| ==> WellFormed(segs[k])
    requires PlainText(value)
    ensures forall k :: 0 <= k < |Substitute(segs, name, value)| ==> WellFormed(Substitute(segs, name, value)[k])
  {
  }

  /** With no variables nothing is replaced. */
  lemma {:induction false} FilledWithNothing(segs: seq<Segment>)
    ensures Filled(segs, []) == Render(segs)
    decreases |segs|
  {
    if segs != [] {
      FilledWithNothing(segs[1..]);
    }
  }

  /** Filling after substituting the first variable is filling with all of them. */
  lemma {:induction false} FilledAfterSubstitute(segs: seq<Segment>, vars: seq<Entry>)
    requires vars != []
    ensures Filled(Substitute(segs, vars[0].0, vars[0].1), vars[1..]) == Filled(segs, vars)
    decreases |segs|
  {
    if segs != [] {
      var sub := Substitute(segs, vars[0].0, vars[0].1);
      assert sub[1..] == Substitute(segs[1..], vars[0].0, vars[0].1);
      FilledAfterSubstitute(segs[1..], vars);
    }
  }

  /**
    Replacing the variables one after the other, in a template made of plain
    text and placeholders, puts each variable's value in every placeholder named
    like it (in any letter case, with any whitespace inside the braces) and keeps
    everything else. The values of all but the last variable must be plain text,
    so that no earlier value is taken for a later placeholder.
  */
  lemma {:induction false} ReplaceAllFillsTemplate(segs: seq<Segment>, vars: seq<Entry>)
    requires forall k :: 0 <= k < |segs| ==> WellFormed(segs[k])
    requires forall k :: 0 <= k < |vars| ==> IsVariableName(vars[k].0)
    requires forall k :: 0 <= k < |vars| - 1 ==> PlainText(vars[k].1)
    requires forall k :: 0 <= k < |vars| ==> NoReplacementPattern(vars[k].1)
    ensures ReplaceAll(Render(segs), vars) == Filled(segs, vars)
    decreases |vars|
  {
    if vars == [] {
      FilledWithNothing(segs);
    } else {
      var sub := Substitute(segs, vars[0].0, vars[0].1);
      ReplaceRendered(segs, vars[0].0, vars[0].1);
      if |vars| == 1 {
        FilledWithNothing(sub);
      } else {
        SubstituteWellFormed(segs, vars[0].0, vars[0].1);
        ReplaceAllFillsTemplate(sub, vars[1..]);
      }
      FilledAfterSubstitute(segs, vars);
    }
  }

  /** The router text written to `ROUTER_PATH`. */
  function RouterText(template: string, info: ExtensionInfo, socketPort: int, token: string,
                      envVars: seq<Entry>, consts: seq<Entry>): string
  {
    ReplaceAll(template, RouterVariables(info, socketPort, token, GlobalsCode(envVars, consts)))
  }

  /** The decimal text of a port holds no brace and no `$`. */
  lemma IntPlain(n: int)
    ensures PlainText(IntToString(n)) && NoReplacementPattern(IntToString(n))
  {
    var r := IntToString(n);
    forall i | 0 <= i < |r| ensures r[i] != '{' && r[i] != '$' {
      if n < 0 && i > 0 {
        assert r[i] == r[1..][i - 1];
      }
    }
  }

  /** Conditions on the seven router values, one by one, give them for the whole list. */
  lemma RouterValuesClean(vars: seq<Entry>)
    requires |vars| == 7
    requires PlainText(vars[0].1) && PlainText(vars[1].1) && PlainText(vars[2].1)
    requires PlainText(vars[3].1) && PlainText(vars[4].1) && PlainText(vars[5].1)
    requires NoReplacementPattern(vars[0].1) && NoReplacementPattern(vars[1].1) && NoReplacementPattern(vars[2].1)
    requires NoReplacementPattern(vars[3].1) && NoReplacementPattern(vars[4].1) && NoReplacementPattern(vars[5].1)
    requires NoReplacementPattern(vars[6].1)
    ensures forall k :: 0 <= k < |vars| - 1 ==> PlainText(vars[k].1)
    ensures forall k :: 0 <= k < |vars| ==> NoReplacementPattern(vars[k].1)
  {
  }

  /**
    The router text of a well-formed template is the template with each of the
    seven router variables in its placeholders, when the values before `globals`
    hold no placeholder start and no value holds a `$` pattern.
  */
  lemma RouterTextFills(segs: seq<Segment>, info: ExtensionInfo, socketPort: int, token: string,
                        envVars: seq<Entry>, consts: seq<Entry>)
    requires forall k :: 0 <= k < |segs| ==> WellFormed(segs[k])
    requires PlainText(info.displayName) && PlainText(info.author) && PlainText(info.version)
    requires PlainText(token) && PlainText(info.homepage)
    requires NoReplacementPattern(info.displayName) && NoReplacementPattern(info.author)
    requires NoReplacementPattern(info.version) && NoReplacementPattern(token)
    requires NoReplacementPattern(info.homepage) && NoReplacementPattern(GlobalsCode(envVars, consts))
    ensures RouterText(Render(segs), info, socketPort, token, envVars, consts)
            == Filled(segs, RouterVariables(info, socketPort, token, GlobalsCode(envVars, consts)))
  {
    var vars := RouterVariables(info, socketPort, token, GlobalsCode(envVars, consts));
    IntPlain(socketPort);
    RouterValuesClean(vars);
    ReplaceAllFillsTemplate(segs, vars);
  }
}
