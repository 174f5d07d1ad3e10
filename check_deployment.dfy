/**
 * The deployment configuration checker: it walks the required and the
 * optional environment variables in their declared order, prints one status
 * line per variable, collects the missing ones, prints a summary and exits
 * with 1 exactly when a required variable is missing.
 *
 * The process environment is a parameter (a variable that is not set is a
 * name absent from the map); the console output is returned as the list of
 * logged lines.
 */
module CheckDeployment {
  import opened Common

  type Env = map<string, string>

  const RequiredEnvVars: seq<string> := [
    "NEXT_PUBLIC_SANITY_PROJECT_ID",
    "NEXT_PUBLIC_SANITY_DATASET",
    "NEXT_PUBLIC_SANITY_API_VERSION",
    "SANITY_TOKEN",
    "NEXT_PUBLIC_SITE_URL",
    "NEXT_PUBLIC_SITE_NAME"
  ]

  const OptionalEnvVars: seq<string> := [
    "VERCEL_TOKEN",
    "DOCKER_USERNAME",
    "DOCKER_PASSWORD",
    "LHCI_GITHUB_APP_TOKEN"
  ]

  /** `process.env[name]`. */
  function Lookup(env: Env, name: string): (v: Option<string>)
    ensures v.Some? <==> name in env
    ensures v.Some? ==> v.value == env[name]
  {
    if name in env then Some(env[name]) else None
  }

  /** A variable is missing when it is unset or set to the empty string. */
  predicate IsMissing(env: Env, name: string) {
    !Truthy(Lookup(env, name))
  }

  function MissingIn(env: Env): string -> bool {
    name => IsMissing(env, name)
  }

  /** The missing variables of `vars`, in declaration order. */
  function Missing(env: Env, vars: seq<string>): (r: seq<string>)
    ensures forall i :: 0 <= i < |r| ==> r[i] in vars && IsMissing(env, r[i])
    ensures forall i :: 0 <= i < |vars| && IsMissing(env, vars[i]) ==> vars[i] in r
  {
    Filter(vars, MissingIn(env))
  }

  /** `value.substring(0, 10)`: the first ten characters, or the whole value when shorter. */
  function Preview(value: string): (p: string)
    ensures |p| == Min(10, |value|)
    ensures p == value[..|p|]
  {
    if |value| <= 10 then value else value[..10]
  }

  const SetMark: string := "\U{2705} "
  const RequiredUnsetMark: string := "\U{274C} "
  const OptionalUnsetMark: string := "\U{26A0}\U{FE0F}  "

  /** The status line of one variable: a preview of a set value, or "NOT SET" after `unsetMark`. */
  function StatusLine(env: Env, name: string, unsetMark: string): (line: string)
    ensures !IsMissing(env, name) ==> line == SetMark + name + ": " + Preview(env[name]) + "..."
    ensures IsMissing(env, name) ==> line == unsetMark + name + ": NOT SET"
  {
    if IsMissing(env, name) then unsetMark + name + ": NOT SET"
    else SetMark + name + ": " + Preview(env[name]) + "..."
  }

  /** The status lines of `vars`, one per variable in declaration order. */
  function StatusLines(env: Env, vars: seq<string>, unsetMark: string): (lines: seq<string>)
    ensures |lines| == |vars|
    ensures forall k :: 0 <= k < |vars| ==> lines[k] == StatusLine(env, vars[k], unsetMark)
  {
    seq(|vars|, k requires 0 <= k < |vars| => StatusLine(env, vars[k], unsetMark))
  }

  /** Looking at one more variable appends it to the missing list exactly when it is missing. */
  lemma MissingStep(env: Env, vars: seq<string>, i: nat)
    requires i < |vars|
    ensures Missing(env, vars[..i + 1]) == Missing(env, vars[..i]) + (if IsMissing(env, vars[i]) then [vars[i]] else [])
  {
    FilterAppend(vars[..i], [vars[i]], MissingIn(env));
    assert vars[..i + 1] == vars[..i] + [vars[i]];
  }

  /**
   * One `forEach` over a list of variables: logs a status line for each and
   * pushes the missing ones.
   */
  method CheckGroup(env: Env, vars: seq<string>, unsetMark: string) returns (missing: seq<string>, lines: seq<string>)
    ensures missing == Missing(env, vars)
    ensures lines == StatusLines(env, vars, unsetMark)
  {
    missing := [];
    lines := [];
    var i := 0;
    while i < |vars|
      invariant 0 <= i <= |vars|
      invariant missing == Missing(env, vars[..i])
      invariant |lines| == i
      invariant forall k :: 0 <= k < i ==> lines[k] == StatusLine(env, vars[k], unsetMark)
    {
      var name := vars[i];
      MissingStep(env, vars, i);
      var value := Lookup(env, name);
      var line;
      if Truthy(value) {
        line := SetMark + name + ": " + Preview(value.value) + "...";
      } else {
        line := unsetMark + name + ": NOT SET";
        missing := missing + [name];
      }
      assert line == StatusLine(env, name, unsetMark);
      lines := lines + [line];
      i := i + 1;
    }
    assert vars[..i] == vars;
    assert lines == StatusLines(env, vars, unsetMark);
  }

  /** The "   - name" list of a summary. */
  function Bullets(names: seq<string>): (r: seq<string>)
    ensures |r| == |names|
    ensures forall i :: 0 <= i < |names| ==> r[i] == "   - " + names[i]
  {
    seq(|names|, i requires 0 <= i < |names| => "   - " + names[i])
  }

  const Banner: string := "\U{1F50D} Checking deployment configuration...\n"
  const RequiredHeading: string := "\U{1F4CB} Required Environment Variables:"
  const OptionalHeading: string := "\n\U{1F4CB} Optional Environment Variables:"
  const SummaryHeading: string := "\n\U{1F4CA} Summary:"
  const AllConfigured: seq<string> := [
    "\U{2705} All required environment variables are configured!",
    "\U{1F680} Your deployment should work correctly."
  ]
  const FixSteps: seq<string> := [
    "\n\U{1F527} To fix this:",
    "1. Check your .env.local file for local development",
    "2. Add missing secrets to GitHub repository settings",
    "3. Refer to DEPLOYMENT_TROUBLESHOOTING.md for detailed instructions"
  ]
  const OptionalNote: string := "These are only needed for specific deployment features."
  const HelpLines: seq<string> := [
    "\n\U{1F4DA} For more help, see:",
    "- .env.example (template for environment variables)",
    "- DEPLOYMENT_TROUBLESHOOTING.md (detailed troubleshooting guide)",
    "- https://github.com/settings/tokens (for GitHub tokens)",
    "- https://sanity.io/manage (for Sanity configuration)"
  ]

  /** The verdict on the required variables: all configured, or the count, the list and the fix steps. */
  function RequiredSummary(missingRequired: seq<string>): (r: seq<string>)
    ensures missingRequired == [] ==> r == AllConfigured
    ensures missingRequired != [] ==>
      && |r| == 1 + |missingRequired| + |FixSteps|
      && r[0] == "\U{274C} Missing " + NatToString(|missingRequired|) + " required environment variable(s):"
      && r[1..1 + |missingRequired|] == Bullets(missingRequired)
  {
    if missingRequired == [] then AllConfigured
    else
      var r := ["\U{274C} Missing " + NatToString(|missingRequired|) + " required environment variable(s):"]
        + Bullets(missingRequired) + FixSteps;
      assert r[1..1 + |missingRequired|] == Bullets(missingRequired);
      r
  }

  /** The reminder about unset optional variables, printed only when there is one. */
  function OptionalSummary(missingOptional: seq<string>): (r: seq<string>)
    ensures missingOptional == [] <==> r == []
    ensures missingOptional != [] ==>
      && |r| == 2 + |missingOptional|
      && r[1..1 + |missingOptional|] == Bullets(missingOptional)
  {
    if |missingOptional| > 0 then
      var r := ["\n\U{26A0}\U{FE0F}  Optional variables not set (" + NatToString(|missingOptional|) + "):"]
        + Bullets(missingOptional) + [OptionalNote];
      assert r[1..1 + |missingOptional|] == Bullets(missingOptional);
      r
    else []
  }

  /** The summary block, then the help lines. */
  function Summary(missingRequired: seq<string>, missingOptional: seq<string>): (r: seq<string>)
    ensures |r| == 1 + |RequiredSummary(missingRequired)| + |OptionalSummary(missingOptional)| + |HelpLines|
    ensures r[0] == SummaryHeading
    ensures r[1..1 + |RequiredSummary(missingRequired)|] == RequiredSummary(missingRequired)
    ensures r[1 + |RequiredSummary(missingRequired)|..|r| - |HelpLines|] == OptionalSummary(missingOptional)
    ensures r[|r| - |HelpLines|..] == HelpLines
  {
    var required := RequiredSummary(missingRequired);
    var optional := OptionalSummary(missingOptional);
    var r := [SummaryHeading] + required + optional + HelpLines;
    assert r[1..1 + |required|] == required;
    assert r[1 + |required|..|r| - |HelpLines|] == optional;
    assert r[|r| - |HelpLines|..] == HelpLines;
    r
  }

  /** `process.exit(missingRequired.length > 0 ? 1 : 0)`. */
  function ExitCode(env: Env): (code: int)
    ensures code == 1 <==> Missing(env, RequiredEnvVars) != []
    ensures code == 0 <==> Missing(env, RequiredEnvVars) == []
  {
    if |Missing(env, RequiredEnvVars)| > 0 then 1 else 0
  }

  /** The whole run: the logged lines, the two missing lists and the exit code. */
  method Run(env: Env) returns (output: seq<string>, missingRequired: seq<string>, missingOptional: seq<string>, exitCode: int)
    ensures missingRequired == Missing(env, RequiredEnvVars)
    ensures missingOptional == Missing(env, OptionalEnvVars)
    ensures exitCode == ExitCode(env)
    ensures output == [Banner, RequiredHeading] + StatusLines(env, RequiredEnvVars, RequiredUnsetMark)
      + [OptionalHeading] + StatusLines(env, OptionalEnvVars, OptionalUnsetMark)
      + Summary(missingRequired, missingOptional)
  {
    var requiredLines, optionalLines;
    missingRequired, requiredLines := CheckGroup(env, RequiredEnvVars, RequiredUnsetMark);
    missingOptional, optionalLines := CheckGroup(env, OptionalEnvVars, OptionalUnsetMark);
    output := [Banner, RequiredHeading] + requiredLines + [OptionalHeading] + optionalLines
      + Summary(missingRequired, missingOptional);
    exitCode := if |missingRequired| > 0 then 1 else 0;
  }

  // ---------------------------------------------------------------------
  // Properties
  // ---------------------------------------------------------------------

  /** The exit code is 1 exactly when some required variable is unset or empty, and 0 otherwise. */
  lemma ExitCodeIff(env: Env)
    ensures ExitCode(env) == 0 || ExitCode(env) == 1
    ensures ExitCode(env) == 1 <==> exists i :: 0 <= i < |RequiredEnvVars| && IsMissing(env, RequiredEnvVars[i])
  {
    SomeMissingIff(env, RequiredEnvVars);
  }

  /** The missing list is non-empty exactly when some variable of the group is missing. */
  lemma SomeMissingIff(env: Env, vars: seq<string>)
    ensures |Missing(env, vars)| > 0 <==> exists i :: 0 <= i < |vars| && IsMissing(env, vars[i])
  {
    var r := Missing(env, vars);
    if |r| > 0 {
      assert r[0] in vars;
      var i :| 0 <= i < |vars| && vars[i] == r[0];
      assert IsMissing(env, vars[i]);
    }
  }

  /** Two environments that agree on the required variables exit alike, whatever the optional ones hold. */
  lemma OptionalNeverMatters(env: Env, other: Env)
    requires forall i :: 0 <= i < |RequiredEnvVars| ==>
      Lookup(env, RequiredEnvVars[i]) == Lookup(other, RequiredEnvVars[i])
    ensures ExitCode(env) == ExitCode(other)
  {
    FilterSameElements(RequiredEnvVars, MissingIn(env), MissingIn(other));
  }

  lemma RequiredAndOptionalDisjoint()
    ensures forall i, j :: 0 <= i < |RequiredEnvVars| && 0 <= j < |OptionalEnvVars| ==>
      RequiredEnvVars[i] != OptionalEnvVars[j]
  {
    var r, o := RequiredEnvVars, OptionalEnvVars;
    assert |r[0]| == 29 && |r[1]| == 26 && |r[2]| == 30 && |r[3]| == 12 && |r[4]| == 20 && |r[5]| == 21;
    assert |o[0]| == 12 && |o[1]| == 15 && |o[2]| == 15 && |o[3]| == 21;
    assert r[3][0] != o[0][0] && r[5][0] != o[3][0];
  }

  /** Setting or clearing an optional variable never changes the exit code. */
  lemma OptionalVariableIgnored(env: Env, j: nat, value: string)
    requires j < |OptionalEnvVars|
    ensures ExitCode(env[OptionalEnvVars[j] := value]) == ExitCode(env)
  {
    RequiredAndOptionalDisjoint();
    OptionalNeverMatters(env[OptionalEnvVars[j] := value], env);
  }

  /**
   * A set value's status line shows at most its first ten characters: two
   * values that share those ten characters print the same line.
   */
  lemma OnlyTenCharactersShown(env: Env, name: string, v: string, w: string, unsetMark: string)
    requires |v| >= 10 && |w| >= 10 && v[..10] == w[..10]
    ensures StatusLine(env[name := v], name, unsetMark) == StatusLine(env[name := w], name, unsetMark)
    ensures |Preview(v)| <= 10
  {
  }

  /** A variable set to the empty string counts as missing, like one that is unset. */
  lemma EmptyIsMissing(env: Env, name: string)
    ensures IsMissing(env[name := ""], name)
    ensures IsMissing(env - {name}, name)
    ensures name in env && env[name] != "" ==> !IsMissing(env, name)
  {
  }

  /** The missing variables keep the declaration order: the list distributes over concatenation. */
  lemma MissingKeepsOrder(env: Env, a: seq<string>, b: seq<string>)
    ensures Missing(env, a + b) == Missing(env, a) + Missing(env, b)
  {
    FilterAppend(a, b, MissingIn(env));
  }
}
