/**
 * The GitHub Actions workflow generator of the CI/CD dialog
 * (`generateGitHubActionsYAML`) and the dialog's edits of its trigger and
 * branch lists.
 *
 * The workflow is one template literal. It is modelled line by line: the
 * document is `Unlines(WorkflowLines(c))`, which is the same string as the
 * template for every configuration (`Unlines` only puts "\n" between the
 * lines). The two interpolations that themselves hold line breaks, the
 * trigger list and the deploy-target steps, are written as lines too.
 * `TriggersRendering` proves the trigger lines equal to the template's own
 * `map(...).join("\n  ")`. `DeployTargetLines` transcribes the three
 * back-to-back conditionals line by line; what a reader finds in them is
 * stated through their step names (`TargetSteps`, `DeployTargetExclusive`).
 *
 * What a reader of the workflow finds in it is stated by reading the lines
 * back: the job keys (`JobKeys`), the steps of a job (`StepNames`), the lines
 * after a marker line (`After`) and how often a line occurs (`CountLine`).
 */
module Pipeline {
  import opened Text

  /** The dialog's `config` state. */
  datatype PipelineConfig = PipelineConfig(
    workflowName: string,
    triggers: seq<string>,
    branches: seq<string>,
    nodeVersion: string,
    testCommand: string,
    buildCommand: string,
    deployTarget: string,
    runLinting: bool,
    runTests: bool,
    enableCaching: bool,
    enableSecurity: bool)

  /** The state the dialog opens with. */
  function DefaultConfig(): PipelineConfig
  {
    PipelineConfig(
      "ci-cd-pipeline", ["push", "pull_request"], ["main", "develop"], "18",
      "npm test", "npm run build", "vercel", true, true, true, true)
  }

  /** The four triggers the dialog offers as checkboxes. */
  const TriggerChoices: seq<string> := ["push", "pull_request", "schedule", "workflow_dispatch"]

  /** Every trigger is one of the dialog's checkboxes, the only way a trigger is added. */
  predicate CheckboxTriggers(c: PipelineConfig)
  {
    forall t :: t in c.triggers ==> t in TriggerChoices
  }

  /** The text inputs hold one line each; so do the trigger and branch names. */
  predicate SingleLineFields(c: PipelineConfig)
  {
    && '\n' !in c.workflowName && '\n' !in c.nodeVersion
    && '\n' !in c.testCommand && '\n' !in c.buildCommand
    && SingleLines(c.triggers) && SingleLines(c.branches)
  }

  // ---------------------------------------------------------------------------
  // Triggers

  /** `push` and `pull_request` carry a branch filter; other triggers are bare keys. */
  predicate HasBranchFilter(trigger: string)
  {
    trigger == "push" || trigger == "pull_request"
  }

  /** `branches.map(b => `"${b}"`)`. */
  function Quoted(branches: seq<string>): seq<string>
  {
    seq(|branches|, i requires 0 <= i < |branches| => "\"" + branches[i] + "\"")
  }

  /** The branch filter line under a trigger. */
  function BranchesLine(branches: seq<string>): string
  {
    "    branches: [ " + JoinWith(Quoted(branches), ", ") + " ]"
  }

  /** The lines one trigger renders to, with the two-space indent it is given. */
  function TriggerEntry(trigger: string, branches: seq<string>): seq<string>
  {
    if HasBranchFilter(trigger) then ["  " + trigger + ":", BranchesLine(branches)]
    else ["  " + trigger]
  }

  /** The entries of all triggers, in input order. */
  function TriggerEntries(triggers: seq<string>, branches: seq<string>): seq<string>
    decreases |triggers|
  {
    if |triggers| == 0 then []
    else TriggerEntry(triggers[0], branches) + TriggerEntries(triggers[1..], branches)
  }

  /** The lines under `on:`; with no trigger the indent stands alone on its line. */
  function TriggerLines(triggers: seq<string>, branches: seq<string>): seq<string>
  {
    if |triggers| == 0 then ["  "] else TriggerEntries(triggers, branches)
  }

  /** The `map` callback of the template: one trigger as text. */
  function TriggerText(trigger: string, branches: seq<string>): string
  {
    if HasBranchFilter(trigger) then trigger + ":" + "\n" + BranchesLine(branches)
    else trigger
  }

  /** `triggers.map(TriggerText)`. */
  function TriggerTexts(triggers: seq<string>, branches: seq<string>): seq<string>
  {
    seq(|triggers|, i requires 0 <= i < |triggers| => TriggerText(triggers[i], branches))
  }

  /** One trigger's lines are its text with the indent in front. */
  lemma TriggerEntryRendering(trigger: string, branches: seq<string>)
    ensures Unlines(TriggerEntry(trigger, branches)) == "  " + TriggerText(trigger, branches)
  {
    if HasBranchFilter(trigger) {
      var e := TriggerEntry(trigger, branches);
      var h, b := "  " + trigger + ":", BranchesLine(branches);
      assert e[1..] == [b];
      assert JoinWith(e[1..], "\n") == b;
      assert Unlines(e) == h + "\n" + b;
      assert h + "\n" + b == "  " + (trigger + ":" + "\n" + b);
    }
  }

  /**
   * The trigger lines are the template's `"  " + triggers.map(...).join("\n  ")`:
   * every trigger in input order, `push` and `pull_request` followed by the
   * quoted branch list, any other trigger as its bare name.
   */
  lemma {:induction false} TriggersRendering(triggers: seq<string>, branches: seq<string>)
    ensures Unlines(TriggerLines(triggers, branches))
            == "  " + JoinWith(TriggerTexts(triggers, branches), "\n  ")
    decreases |triggers|
  {
    if |triggers| > 0 {
      EntriesRendering(triggers, branches);
    }
  }

  lemma {:induction false} EntriesRendering(triggers: seq<string>, branches: seq<string>)
    requires |triggers| >= 1
    ensures Unlines(TriggerEntries(triggers, branches))
            == "  " + JoinWith(TriggerTexts(triggers, branches), "\n  ")
    decreases |triggers|
  {
    var head := TriggerEntry(triggers[0], branches);
    var texts := TriggerTexts(triggers, branches);
    TriggerEntryRendering(triggers[0], branches);
    if |triggers| == 1 {
      assert TriggerEntries(triggers, branches) == head + [];
      assert head + [] == head;
    } else {
      var rest := triggers[1..];
      EntriesRendering(rest, branches);
      UnlinesAppend(head, TriggerEntries(rest, branches));
      assert texts[1..] == TriggerTexts(rest, branches);
      assert JoinWith(texts, "\n  ") == texts[0] + "\n  " + JoinWith(texts[1..], "\n  ");
      GlueIndent(texts[0], JoinWith(texts[1..], "\n  "));
    }
  }

  lemma GlueIndent(x: string, y: string)
    ensures "  " + x + "\n" + ("  " + y) == "  " + (x + "\n  " + y)
  {
    assert "\n" + "  " == "\n  ";
  }

  /** Every trigger line starts with the two-space indent. */
  lemma {:induction false} TriggerLinesIndented(triggers: seq<string>, branches: seq<string>)
    ensures forall i :: 0 <= i < |TriggerLines(triggers, branches)| ==>
              |TriggerLines(triggers, branches)[i]| >= 2 && TriggerLines(triggers, branches)[i][0] == ' '
    decreases |triggers|
  {
    if |triggers| > 0 {
      EntriesIndented(triggers, branches);
    }
  }

  lemma {:induction false} EntriesIndented(triggers: seq<string>, branches: seq<string>)
    ensures forall i :: 0 <= i < |TriggerEntries(triggers, branches)| ==>
              |TriggerEntries(triggers, branches)[i]| >= 2 && TriggerEntries(triggers, branches)[i][0] == ' '
    decreases |triggers|
  {
    if |triggers| > 0 {
      EntriesIndented(triggers[1..], branches);
      var head := TriggerEntry(triggers[0], branches);
      var rest := TriggerEntries(triggers[1..], branches);
      assert TriggerEntries(triggers, branches) == head + rest;
      forall i | 0 <= i < |head + rest|
        ensures |(head + rest)[i]| >= 2 && (head + rest)[i][0] == ' '
      {
        if i >= |head| { assert (head + rest)[i] == rest[i - |head|]; }
      }
    }
  }

  /** Single-line trigger and branch names give single trigger lines. */
  lemma {:induction false} EntriesSingleLines(triggers: seq<string>, branches: seq<string>)
    requires SingleLines(triggers) && SingleLines(branches)
    ensures SingleLines(TriggerEntries(triggers, branches))
    decreases |triggers|
  {
    if |triggers| > 0 {
      EntriesSingleLines(triggers[1..], branches);
      var q := Quoted(branches);
      forall i | 0 <= i < |q| ensures '\n' !in q[i] {
        assert q[i] == "\"" + branches[i] + "\"";
      }
      SingleJoin(q, ", ");
      assert SingleLines(TriggerEntry(triggers[0], branches));
      SingleLinesAppend(TriggerEntry(triggers[0], branches), TriggerEntries(triggers[1..], branches));
    }
  }

  /** Joining single lines with a separator free of line breaks gives one line. */
  lemma {:induction false} SingleJoin(xs: seq<string>, sep: string)
    requires SingleLines(xs) && '\n' !in sep
    ensures '\n' !in JoinWith(xs, sep)
    decreases |xs|
  {
    if |xs| > 1 {
      SingleJoin(xs[1..], sep);
    }
  }

  // ---------------------------------------------------------------------------
  // The `needs` list of the build job

  /**
   * `[runLinting && 'lint', runTests && 'test', enableSecurity && 'security'].filter(Boolean)`:
   * exactly the enabled jobs among lint, test and security.
   */
  function BuildNeeds(c: PipelineConfig): (r: seq<string>)
    ensures forall job :: job in r <==>
              || (job == "lint" && c.runLinting)
              || (job == "test" && c.runTests)
              || (job == "security" && c.enableSecurity)
  {
    (if c.runLinting then ["lint"] else [])
    + (if c.runTests then ["test"] else [])
    + (if c.enableSecurity then ["security"] else [])
  }

  /** Position of a job in the fixed order lint, test, security. */
  function Rank(job: string): nat
  {
    if job == "lint" then 0 else if job == "test" then 1 else 2
  }

  /** The enabled jobs come in the fixed order lint, test, security, so none twice. */
  lemma BuildNeedsOrder(c: PipelineConfig)
    ensures forall i, j :: 0 <= i < j < |BuildNeeds(c)| ==> Rank(BuildNeeds(c)[i]) < Rank(BuildNeeds(c)[j])
  {
  }

  /**
   * The list text is empty exactly when no job is enabled, and otherwise has
   * one comma fewer than jobs, so never a stray comma.
   */
  lemma BuildNeedsCommas(c: PipelineConfig)
    ensures JoinWith(BuildNeeds(c), ", ") == "" <==> !c.runLinting && !c.runTests && !c.enableSecurity
    ensures |BuildNeeds(c)| >= 1 ==> CountChar(JoinWith(BuildNeeds(c), ", "), ',') == |BuildNeeds(c)| - 1
  {
    var r := BuildNeeds(c);
    if |r| >= 1 {
      NeedsCommas(r);
      JoinWithFirst(r, ", ");
    }
  }

  /** Read back as a comma list, the `needs` text gives the enabled jobs again. */
  lemma BuildNeedsRoundTrip(c: PipelineConfig)
    ensures ParseCommaList(JoinWith(BuildNeeds(c), ", ")) == BuildNeeds(c)
  {
    var r := BuildNeeds(c);
    assert IsTrimmed("lint") && IsTrimmed("test") && IsTrimmed("security");
    assert IsListWords(r);
    ParseShownList(r);
  }

  /** A join is at least as long as its first element. */
  lemma JoinWithFirst(xs: seq<string>, sep: string)
    requires |xs| >= 1
    ensures |JoinWith(xs, sep)| >= |xs[0]|
  {
  }

  /** One comma between neighbours of comma-free words. */
  lemma {:induction false} NeedsCommas(xs: seq<string>)
    requires |xs| >= 1 && forall i :: 0 <= i < |xs| ==> ',' !in xs[i]
    ensures CountChar(JoinWith(xs, ", "), ',') == |xs| - 1
    decreases |xs|
  {
    CountCharOut(xs[0], ',');
    if |xs| > 1 {
      NeedsCommas(xs[1..]);
      CountCharAppend(xs[0], ", " + JoinWith(xs[1..], ", "), ',');
      CountCharAppend(", ", JoinWith(xs[1..], ", "), ',');
      assert xs[0] + ", " + JoinWith(xs[1..], ", ") == xs[0] + (", " + JoinWith(xs[1..], ", "));
    }
  }

  // ---------------------------------------------------------------------------
  // Jobs and steps

  const CacheLine := "          cache: 'npm'"

  /** The line that opens job `key`: `  <key>:`. */
  function KeyLine(key: string): string
  {
    "  " + key + ":"
  }

  /** A job: its key line followed by its body. */
  function Job(key: string, body: seq<string>): seq<string>
  {
    [KeyLine(key)] + body
  }

  /** A step, `      - name: <name>`, followed by its other lines. */
  function Step(name: string, rest: seq<string>): seq<string>
  {
    ["      - name: " + name] + rest
  }

  /** A step's `uses:` line. */
  function Uses(action: string): string
  {
    "        uses: " + action
  }

  /** A step's `if:` line. */
  function If(condition: string): string
  {
    "        if: " + condition
  }

  /** A step's `run:` line. */
  function Run(command: string): string
  {
    "        run: " + command
  }

  /** An entry under a step's `with:` or `env:`. */
  function Param(key: string, value: string): string
  {
    "          " + key + ": " + value
  }

  /** `${{ secrets.<name> }}`, an expression the workflow leaves to the runner. */
  function Secret(name: string): string
  {
    "${{ secrets." + name + " }}"
  }

  function CheckoutStep(): seq<string>
  {
    Step("Checkout code", [Uses("actions/checkout@v4"), "        "])
  }

  /** The Node.js setup; the cache line is there only when caching is on. */
  function SetupNodeStep(c: PipelineConfig): seq<string>
  {
    Step("Setup Node.js", [
      Uses("actions/setup-node@v4"),
      "        with:",
      Param("node-version", "'" + c.nodeVersion + "'") ])
    + (if c.enableCaching then [CacheLine] else [])
    + ["          "]
  }

  function InstallStep(): seq<string>
  {
    Step("Install dependencies", [Run("npm ci"), "        "])
  }

  function LintStep(): seq<string>
  {
    Step("Run linting", [Run("npm run lint"), ""])
  }

  function LintJob(c: PipelineConfig): seq<string>
  {
    Job("lint", ["    runs-on: ubuntu-latest", "    steps:"]
      + CheckoutStep() + SetupNodeStep(c) + InstallStep() + LintStep())
  }

  /** The third line of the test job: `needs: lint` when linting runs, else the bare indent. */
  function TestNeedsSlot(c: PipelineConfig): string
  {
    "    " + (if c.runLinting then "needs: lint" else "")
  }

  function TestStep(c: PipelineConfig): seq<string>
  {
    Step("Run tests", [Run(c.testCommand), "        "])
  }

  function CoverageStep(): seq<string>
  {
    Step("Upload coverage reports", [Uses("codecov/codecov-action@v3"), "        if: success()", ""])
  }

  function TestJob(c: PipelineConfig): seq<string>
  {
    Job("test", ["    runs-on: ubuntu-latest", TestNeedsSlot(c), "    steps:"]
      + CheckoutStep() + SetupNodeStep(c) + InstallStep() + TestStep(c) + CoverageStep())
  }

  function AuditStep(): seq<string>
  {
    Step("Run security audit", [Run("npm audit --audit-level=moderate"), "        "])
  }

  function ReviewStep(): seq<string>
  {
    Step("Dependency review", [
      Uses("actions/dependency-review-action@v3"),
      If("github.event_name == 'pull_request'"),
      "" ])
  }

  function SecurityJob(): seq<string>
  {
    Job("security", ["    runs-on: ubuntu-latest", "    steps:"]
      + CheckoutStep() + AuditStep() + ReviewStep())
  }

  /** The build job's `needs` line. */
  function NeedsLine(c: PipelineConfig): string
  {
    "    needs: [" + JoinWith(BuildNeeds(c), ", ") + "]"
  }

  function BuildStep(c: PipelineConfig): seq<string>
  {
    Step("Build application", [Run(c.buildCommand), "        "])
  }

  function ArtifactStep(): seq<string>
  {
    Step("Upload build artifacts", [
      Uses("actions/upload-artifact@v3"),
      "        with:",
      Param("name", "build-files"),
      Param("path", "dist/"),
      "" ])
  }

  function BuildJob(c: PipelineConfig): seq<string>
  {
    Job("build", ["    runs-on: ubuntu-latest", NeedsLine(c), "    steps:"]
      + CheckoutStep() + SetupNodeStep(c) + InstallStep() + BuildStep(c) + ArtifactStep())
  }

  /** The deploy job's settings, the same for every configuration. */
  const DeployHead: seq<string> := [
    "    runs-on: ubuntu-latest",
    "    needs: build",
    "    if: github.ref == 'refs/heads/main'",
    "    environment: production",
    "    steps:" ]

  function DownloadStep(): seq<string>
  {
    Step("Download build artifacts", [
      Uses("actions/download-artifact@v3"),
      "        with:",
      Param("name", "build-files"),
      Param("path", "dist/"),
      "          " ])
  }

  function VercelSteps(): seq<string>
  {
    Step("Deploy to Vercel", [
      Uses("amondnet/vercel-action@v25"),
      "        with:",
      Param("vercel-token", Secret("VERCEL_TOKEN")),
      Param("vercel-org-id", Secret("ORG_ID")),
      Param("vercel-project-id", Secret("PROJECT_ID")),
      Param("vercel-args", "'--prod'") ])
  }

  function NetlifySteps(): seq<string>
  {
    Step("Deploy to Netlify", NetlifyWith + NetlifyMessage + NetlifyEnv)
  }

  const NetlifyWith: seq<string> := [
    Uses("nwtgck/actions-netlify@v2.0"),
    "        with:",
    Param("publish-dir", "'./dist'"),
    Param("production-branch", "main") ]

  const NetlifyMessage: seq<string> := [
    Param("github-token", Secret("GITHUB_TOKEN")),
    Param("deploy-message", "\"Deploy from GitHub Actions\""),
    "        env:" ]

  const NetlifyEnv: seq<string> := [
    Param("NETLIFY_AUTH_TOKEN", Secret("NETLIFY_AUTH_TOKEN")),
    Param("NETLIFY_SITE_ID", Secret("NETLIFY_SITE_ID")) ]

  function AwsCredentialsStep(): seq<string>
  {
    Step("Configure AWS credentials",
      [Uses("aws-actions/configure-aws-credentials@v4"), "        with:"] + AwsKeys + ["          "])
  }

  /** The credential parameters of the AWS step. */
  const AwsKeys: seq<string> := [
    Param("aws-access-key-id", Secret("AWS_ACCESS_KEY_ID")),
    Param("aws-secret-access-key", Secret("AWS_SECRET_ACCESS_KEY")),
    Param("aws-region", "us-east-1") ]

  function S3SyncStep(): seq<string>
  {
    Step("Deploy to S3", [Run("aws s3 sync dist/ s3://" + Secret("S3_BUCKET_NAME") + " --delete"), "        "])
  }

  function InvalidateStep(): seq<string>
  {
    Step("Invalidate CloudFront", [
      Run("aws cloudfront create-invalidation"
        + " --distribution-id " + Secret("CLOUDFRONT_DISTRIBUTION_ID") + " --paths \"/*\"") ])
  }

  function AwsSteps(): seq<string>
  {
    AwsCredentialsStep() + S3SyncStep() + InvalidateStep()
  }

  /**
   * The deploy-target steps as lines. The template glues the three
   * conditionals to a six-space indent, so with an unknown target the indent
   * stands alone on the last line.
   */
  function DeployTargetLines(target: string): seq<string>
  {
    if target == "vercel" then VercelSteps()
    else if target == "netlify" then NetlifySteps()
    else if target == "aws" then AwsSteps()
    else ["      "]
  }

  function DeployJob(c: PipelineConfig): seq<string>
  {
    Job("deploy", DeployHead + CheckoutStep() + DownloadStep() + DeployTargetLines(c.deployTarget))
  }

  /** The lines under `jobs:`. */
  function JobLines(c: PipelineConfig): seq<string>
  {
    (if c.runLinting then LintJob(c) else [])
    + (if c.runTests then TestJob(c) else [])
    + (if c.enableSecurity then SecurityJob() else [])
    + BuildJob(c)
    + DeployJob(c)
  }

  /** The lines above the jobs. */
  function HeadLines(c: PipelineConfig): seq<string>
  {
    ["name: " + c.workflowName, "", "on:"] + TriggerLines(c.triggers, c.branches) + ["", "jobs:"]
  }

  function WorkflowLines(c: PipelineConfig): seq<string>
  {
    HeadLines(c) + JobLines(c)
  }

  /** `generateGitHubActionsYAML`. */
  function GenerateWorkflow(c: PipelineConfig): string
  {
    Unlines(WorkflowLines(c))
  }

  // ---------------------------------------------------------------------------
  // Reading the workflow back

  /** A job key line: two spaces, a name, a colon. */
  predicate IsJobHeader(l: string)
  {
    |l| >= 4 && l[0] == ' ' && l[1] == ' ' && l[2] != ' ' && l[|l| - 1] == ':'
  }

  /** The job keys, in document order. */
  function JobKeys(ls: seq<string>): seq<string>
    decreases |ls|
  {
    if |ls| == 0 then []
    else (if IsJobHeader(ls[0]) then [ls[0][2..|ls[0]| - 1]] else []) + JobKeys(ls[1..])
  }

  /** A step line: `      - name: ` and the step's name. */
  predicate IsStepLine(l: string)
  {
    |l| >= 14 && l[6] == '-' && l[..14] == "      - name: "
  }

  /** The step names, in document order. */
  function StepNames(ls: seq<string>): seq<string>
    decreases |ls|
  {
    if |ls| == 0 then []
    else (if IsStepLine(ls[0]) then [ls[0][14..]] else []) + StepNames(ls[1..])
  }

  /**
   * A line inside a job: one line, indented by at least three spaces (or
   * shorter than three), so no job key.
   */
  predicate BodyLine(l: string)
  {
    '\n' !in l && (|l| < 3 || l[2] == ' ')
  }

  predicate Body(ls: seq<string>)
  {
    forall i :: 0 <= i < |ls| ==> BodyLine(ls[i])
  }

  /** A body line that is not the cache line: no `c` where `cache:` starts. */
  predicate PlainLine(l: string)
  {
    BodyLine(l) && (|l| < 11 || l[10] != 'c')
  }

  predicate Plain(ls: seq<string>)
  {
    forall i :: 0 <= i < |ls| ==> PlainLine(ls[i])
  }

  /** No line of `ls` is a step line. */
  predicate StepFree(ls: seq<string>)
  {
    forall i :: 0 <= i < |ls| ==> |ls[i]| < 7 || ls[i][6] != '-'
  }

  lemma PlainAppend(a: seq<string>, b: seq<string>)
    requires Plain(a) && Plain(b)
    ensures Plain(a + b)
  {
    forall i | 0 <= i < |a + b| ensures PlainLine((a + b)[i]) {
      if i >= |a| { assert (a + b)[i] == b[i - |a|]; }
    }
  }

  lemma {:induction false} JobKeysAppend(a: seq<string>, b: seq<string>)
    ensures JobKeys(a + b) == JobKeys(a) + JobKeys(b)
    decreases |a|
  {
    if |a| == 0 {
      assert a + b == b;
    } else {
      assert (a + b)[0] == a[0] && (a + b)[1..] == a[1..] + b;
      JobKeysAppend(a[1..], b);
    }
  }

  lemma {:induction false} PlainHasNoJobs(ls: seq<string>)
    requires Body(ls)
    ensures JobKeys(ls) == []
    decreases |ls|
  {
    if |ls| > 0 {
      PlainHasNoJobs(ls[1..]);
    }
  }

  lemma BodyAppend(a: seq<string>, b: seq<string>)
    requires Body(a) && Body(b)
    ensures Body(a + b)
  {
    forall i | 0 <= i < |a + b| ensures BodyLine((a + b)[i]) {
      if i >= |a| { assert (a + b)[i] == b[i - |a|]; }
    }
  }

  /** Plain lines hold no cache line. */
  lemma PlainHasNoCache(ls: seq<string>)
    requires Plain(ls)
    ensures CountLine(ls, CacheLine) == 0
  {
    assert DiffersAt(ls, CacheLine, 10);
    AbsentWhenDiffers(ls, CacheLine, 10);
    CountLineAbsent(ls, CacheLine);
  }

  /** Body lines hold no job key line. */
  lemma BodyHasNoKeyLine(ls: seq<string>, key: string)
    requires Body(ls) && key != "" && key[0] != ' '
    ensures KeyLine(key) !in ls
  {
    var h := KeyLine(key);
    assert h[2] == key[0];
    assert DiffersAt(ls, h, 2);
    AbsentWhenDiffers(ls, h, 2);
  }

  /** A job has exactly its own key. */
  lemma JobKeysOfJob(key: string, body: seq<string>)
    requires key != "" && key[0] != ' ' && Body(body)
    ensures JobKeys(Job(key, body)) == [key]
  {
    var h := KeyLine(key);
    assert h[2..|h| - 1] == key;
    JobKeysAppend([h], body);
    PlainHasNoJobs(body);
  }

  /** A job with a plain body: its own key, one line per line, no cache line. */
  lemma PlainJob(key: string, body: seq<string>)
    requires key != "" && key[0] != ' ' && '\n' !in key && Plain(body)
    ensures JobKeys(Job(key, body)) == [key]
    ensures SingleLines(Job(key, body))
    ensures CountLine(Job(key, body), CacheLine) == 0
  {
    PlainHasNoCache(body);
    JobFrame(key, body);
  }

  /** The key line of a job adds its key, no line break and no cache line to its body's. */
  lemma JobFrame(key: string, body: seq<string>)
    requires key != "" && key[0] != ' ' && '\n' !in key && Body(body)
    ensures JobKeys(Job(key, body)) == [key]
    ensures SingleLines(Job(key, body))
    ensures CountLine(Job(key, body), CacheLine) == CountLine(body, CacheLine)
  {
    var h := KeyLine(key);
    JobKeysOfJob(key, body);
    assert h[2] == key[0] && CacheLine[2] == ' ';
    assert h != CacheLine;
    assert SingleLines([h]) && SingleLines(body);
    SingleLinesAppend([h], body);
    CountLineAppend([h], body, CacheLine);
  }

  /** The Node.js setup step: one line per line, the cache line once when caching. */
  lemma SetupHeadPlain(c: PipelineConfig)
    requires '\n' !in c.nodeVersion
    ensures Plain(Step("Setup Node.js", [Uses("actions/setup-node@v4"), "        with:",
                                         Param("node-version", "'" + c.nodeVersion + "'")]))
  {
    var u, v := Uses("actions/setup-node@v4"), Param("node-version", "'" + c.nodeVersion + "'");
    UsesPlain("actions/setup-node@v4");
    assert PlainLine("        with:");
    assert '\n' !in "'" + c.nodeVersion + "'";
    ParamPlain("node-version", "'" + c.nodeVersion + "'");
    PlainTriple(u, "        with:", v);
    StepPlain("Setup Node.js", [u, "        with:", v]);
  }

  lemma SetupNodeFacts(c: PipelineConfig)
    requires '\n' !in c.nodeVersion
    ensures Body(SetupNodeStep(c))
    ensures CountLine(SetupNodeStep(c), CacheLine) == if c.enableCaching then 1 else 0
  {
    var head := Step("Setup Node.js", [
      Uses("actions/setup-node@v4"),
      "        with:",
      Param("node-version", "'" + c.nodeVersion + "'") ]);
    var cache := if c.enableCaching then [CacheLine] else [];
    var tail := ["          "];
    assert SetupNodeStep(c) == head + cache + tail;
    SetupHeadPlain(c);
    assert PlainLine("          ");
    assert Plain(tail);
    assert CacheLine[2] == ' ' && '\n' !in CacheLine;
    assert Body(cache);
    PlainHasNoCache(head);
    PlainHasNoCache(tail);
    CountLineAppend(head, cache, CacheLine);
    CountLineAppend(head + cache, tail, CacheLine);
    BodyAppend(head, cache);
    BodyAppend(head + cache, tail);
  }

  /** A job with one setup step between plain parts: its key, and the cache line once when caching. */
  lemma JobWithSetup(key: string, before: seq<string>, c: PipelineConfig, after: seq<string>)
    requires key != "" && key[0] != ' ' && '\n' !in key && '\n' !in c.nodeVersion
    requires Plain(before) && Plain(after)
    ensures JobKeys(Job(key, before + SetupNodeStep(c) + after)) == [key]
    ensures SingleLines(Job(key, before + SetupNodeStep(c) + after))
    ensures CountLine(Job(key, before + SetupNodeStep(c) + after), CacheLine)
            == if c.enableCaching then 1 else 0
  {
    var setup := SetupNodeStep(c);
    SetupNodeFacts(c);
    assert Body(before) && Body(after);
    BodyAppend(before, setup);
    BodyAppend(before + setup, after);
    PlainHasNoCache(before);
    PlainHasNoCache(after);
    CountLineAppend(before, setup, CacheLine);
    CountLineAppend(before + setup, after, CacheLine);
    JobFrame(key, before + setup + after);
  }

  lemma {:induction false} StepNamesAppend(a: seq<string>, b: seq<string>)
    ensures StepNames(a + b) == StepNames(a) + StepNames(b)
    decreases |a|
  {
    if |a| == 0 {
      assert a + b == b;
    } else {
      assert (a + b)[0] == a[0] && (a + b)[1..] == a[1..] + b;
      StepNamesAppend(a[1..], b);
    }
  }

  lemma {:induction false} StepFreeHasNoSteps(ls: seq<string>)
    requires StepFree(ls)
    ensures StepNames(ls) == []
    decreases |ls|
  {
    if |ls| > 0 {
      StepFreeHasNoSteps(ls[1..]);
    }
  }

  /** A step whose other lines are no steps is read back as its name. */
  lemma StepNamesOfStep(name: string, rest: seq<string>)
    requires StepFree(rest)
    ensures StepNames(Step(name, rest)) == [name]
  {
    var l := "      - name: " + name;
    assert l[..14] == "      - name: " && l[14..] == name;
    StepNamesAppend([l], rest);
    StepFreeHasNoSteps(rest);
  }

  /** A key line of `ls` is listed among its job keys. */
  lemma {:induction false} KeyLineListed(ls: seq<string>, key: string)
    requires key != "" && key[0] != ' '
    ensures KeyLine(key) in ls ==> key in JobKeys(ls)
    decreases |ls|
  {
    var h := KeyLine(key);
    if |ls| > 0 {
      KeyLineListed(ls[1..], key);
      if ls[0] == h {
        assert h[2..|h| - 1] == key;
      } else if h in ls {
        assert h in ls[1..];
      }
    }
  }

  // ---------------------------------------------------------------------------
  // The jobs, one by one

  lemma LintJobFacts(c: PipelineConfig)
    requires '\n' !in c.nodeVersion
    ensures JobKeys(LintJob(c)) == ["lint"] && SingleLines(LintJob(c))
    ensures CountLine(LintJob(c), CacheLine) == if c.enableCaching then 1 else 0
  {
    var before := ["    runs-on: ubuntu-latest", "    steps:"] + CheckoutStep();
    var after := InstallStep() + LintStep();
    RunsOnPlain();
    CheckoutPlain();
    PlainAppend(["    runs-on: ubuntu-latest", "    steps:"], CheckoutStep());
    InstallPlain();
    LintPlain();
    PlainAppend(InstallStep(), LintStep());
    assert LintJob(c) == Job("lint", before + SetupNodeStep(c) + after);
    JobWithSetup("lint", before, c, after);
  }

  lemma TestJobFacts(c: PipelineConfig)
    requires '\n' !in c.nodeVersion && '\n' !in c.testCommand
    ensures JobKeys(TestJob(c)) == ["test"] && SingleLines(TestJob(c))
    ensures CountLine(TestJob(c), CacheLine) == if c.enableCaching then 1 else 0
  {
    var before := ["    runs-on: ubuntu-latest", TestNeedsSlot(c), "    steps:"] + CheckoutStep();
    var after := InstallStep() + TestStep(c) + CoverageStep();
    TestHeadPlain(c);
    CheckoutPlain();
    PlainAppend(["    runs-on: ubuntu-latest", TestNeedsSlot(c), "    steps:"], CheckoutStep());
    InstallPlain();
    TestStepPlain(c);
    CoveragePlain();
    PlainAppend(InstallStep(), TestStep(c));
    PlainAppend(InstallStep() + TestStep(c), CoverageStep());
    assert TestJob(c) == Job("test", before + SetupNodeStep(c) + after);
    JobWithSetup("test", before, c, after);
  }

  lemma SecurityJobFacts()
    ensures JobKeys(SecurityJob()) == ["security"] && SingleLines(SecurityJob())
    ensures CountLine(SecurityJob(), CacheLine) == 0
  {
    var head := ["    runs-on: ubuntu-latest", "    steps:"];
    RunsOnPlain();
    CheckoutPlain();
    AuditPlain();
    ReviewPlain();
    PlainAppend(head, CheckoutStep());
    PlainAppend(head + CheckoutStep(), AuditStep());
    PlainAppend(head + CheckoutStep() + AuditStep(), ReviewStep());
    PlainJob("security", head + CheckoutStep() + AuditStep() + ReviewStep());
  }

  lemma BuildJobFacts(c: PipelineConfig)
    requires '\n' !in c.nodeVersion && '\n' !in c.buildCommand
    ensures JobKeys(BuildJob(c)) == ["build"] && SingleLines(BuildJob(c))
    ensures CountLine(BuildJob(c), CacheLine) == if c.enableCaching then 1 else 0
  {
    SingleJoin(BuildNeeds(c), ", ");
    var before := ["    runs-on: ubuntu-latest", NeedsLine(c), "    steps:"] + CheckoutStep();
    var after := InstallStep() + BuildStep(c) + ArtifactStep();
    BuildHeadPlain(c);
    CheckoutPlain();
    PlainAppend(["    runs-on: ubuntu-latest", NeedsLine(c), "    steps:"], CheckoutStep());
    InstallPlain();
    BuildStepPlain(c);
    ArtifactPlain();
    PlainAppend(InstallStep(), BuildStep(c));
    PlainAppend(InstallStep() + BuildStep(c), ArtifactStep());
    assert BuildJob(c) == Job("build", before + SetupNodeStep(c) + after);
    JobWithSetup("build", before, c, after);
  }

  /** A `with:` or `env:` entry whose key does not start with `c` is plain. */
  lemma ParamPlain(key: string, value: string)
    requires key != "" && key[0] != 'c' && '\n' !in key && '\n' !in value
    ensures PlainLine(Param(key, value))
  {
    var l := Param(key, value);
    assert l == "          " + (key + ": " + value);
    assert l[10] == key[0];
  }

  lemma SecretPlain(key: string, name: string)
    requires key != "" && key[0] != 'c' && '\n' !in key && '\n' !in name
    ensures PlainLine(Param(key, Secret(name)))
  {
    ParamPlain(key, Secret(name));
  }

  /** A step is plain when its other lines are. */
  lemma StepPlain(name: string, rest: seq<string>)
    requires '\n' !in name && Plain(rest)
    ensures Plain(Step(name, rest))
  {
    assert PlainLine("      - name: " + name);
    PlainAppend(["      - name: " + name], rest);
  }

  lemma NetlifyPlain()
    ensures Plain(NetlifySteps())
  {
    NetlifyWithPlain();
    NetlifyMessagePlain();
    NetlifyEnvPlain();
    PlainAppend(NetlifyWith, NetlifyMessage);
    PlainAppend(NetlifyWith + NetlifyMessage, NetlifyEnv);
    StepPlain("Deploy to Netlify", NetlifyWith + NetlifyMessage + NetlifyEnv);
  }

  lemma NetlifyWithPlain()
    ensures Plain(NetlifyWith)
  {
    UsesPlain("nwtgck/actions-netlify@v2.0");
    assert PlainLine("        with:");
    ParamPlain("publish-dir", "'./dist'");
    ParamPlain("production-branch", "main");
    PlainPair(Uses("nwtgck/actions-netlify@v2.0"), "        with:");
    PlainPair(Param("publish-dir", "'./dist'"), Param("production-branch", "main"));
    PlainAppend([Uses("nwtgck/actions-netlify@v2.0"), "        with:"],
                [Param("publish-dir", "'./dist'"), Param("production-branch", "main")]);
  }

  lemma NetlifyMessagePlain()
    ensures Plain(NetlifyMessage)
  {
    SecretPlain("github-token", "GITHUB_TOKEN");
    ParamPlain("deploy-message", "\"Deploy from GitHub Actions\"");
    assert PlainLine("        env:");
    PlainTriple(Param("github-token", Secret("GITHUB_TOKEN")),
                Param("deploy-message", "\"Deploy from GitHub Actions\""), "        env:");
  }

  lemma NetlifyEnvPlain()
    ensures Plain(NetlifyEnv)
  {
    SecretPlain("NETLIFY_AUTH_TOKEN", "NETLIFY_AUTH_TOKEN");
    SecretPlain("NETLIFY_SITE_ID", "NETLIFY_SITE_ID");
    PlainPair(Param("NETLIFY_AUTH_TOKEN", Secret("NETLIFY_AUTH_TOKEN")),
              Param("NETLIFY_SITE_ID", Secret("NETLIFY_SITE_ID")));
  }

  lemma AwsKeysPlain()
    ensures Plain(AwsKeys)
  {
    SecretPlain("aws-access-key-id", "AWS_ACCESS_KEY_ID");
    SecretPlain("aws-secret-access-key", "AWS_SECRET_ACCESS_KEY");
    ParamPlain("aws-region", "us-east-1");
    PlainTriple(Param("aws-access-key-id", Secret("AWS_ACCESS_KEY_ID")),
                Param("aws-secret-access-key", Secret("AWS_SECRET_ACCESS_KEY")),
                Param("aws-region", "us-east-1"));
  }

  lemma AwsCredentialsPlain()
    ensures Plain(AwsCredentialsStep())
  {
    var u := Uses("aws-actions/configure-aws-credentials@v4");
    UsesPlain("aws-actions/configure-aws-credentials@v4");
    assert PlainLine("        with:") && PlainLine("          ");
    PlainPair(u, "        with:");
    AwsKeysPlain();
    PlainAppend([u, "        with:"], AwsKeys);
    PlainAppend([u, "        with:"] + AwsKeys, ["          "]);
    StepPlain("Configure AWS credentials", [u, "        with:"] + AwsKeys + ["          "]);
  }

  lemma UsesPlain(action: string)
    requires '\n' !in action
    ensures PlainLine(Uses(action))
  {
  }

  lemma RunPlain(command: string)
    requires '\n' !in command
    ensures PlainLine(Run(command))
  {
  }

  lemma InvalidatePlain()
    ensures Plain(InvalidateStep())
  {
    InvalidateCommand();
    RunPlain("aws cloudfront create-invalidation"
      + " --distribution-id " + Secret("CLOUDFRONT_DISTRIBUTION_ID") + " --paths \"/*\"");
  }

  lemma InvalidateCommand()
    ensures '\n' !in "aws cloudfront create-invalidation"
      + " --distribution-id " + Secret("CLOUDFRONT_DISTRIBUTION_ID") + " --paths \"/*\""
  {
    var a, b, d := "aws cloudfront create-invalidation", " --distribution-id ", " --paths \"/*\"";
    InvalidationNoBreak();
    assert '\n' !in b;
    SecretNoBreak("CLOUDFRONT_DISTRIBUTION_ID");
    assert '\n' !in d;
    NoBreakFour(a, b, Secret("CLOUDFRONT_DISTRIBUTION_ID"), d);
  }

  lemma InvalidationNoBreak()
    ensures '\n' !in "aws cloudfront create-invalidation"
  {
  }

  lemma NoBreakFour(a: string, b: string, c: string, d: string)
    requires '\n' !in a && '\n' !in b && '\n' !in c && '\n' !in d
    ensures '\n' !in a + b + c + d
  {
  }

  lemma SecretNoBreak(name: string)
    requires '\n' !in name
    ensures '\n' !in Secret(name)
  {
    assert '\n' !in "${{ secrets." && '\n' !in " }}";
  }

  lemma S3SyncPlain()
    ensures Plain(S3SyncStep())
  {
    var cmd := "aws s3 sync dist/ s3://" + Secret("S3_BUCKET_NAME") + " --delete";
    assert '\n' !in "aws s3 sync dist/ s3://";
    SecretNoBreak("S3_BUCKET_NAME");
    assert '\n' !in " --delete";
    RunPlain(cmd);
    OneStepPlain("Deploy to S3", Run(cmd), "        ");
  }

  /** Two plain lines, and three, form plain chunks. */
  lemma PlainPair(a: string, b: string)
    requires PlainLine(a) && PlainLine(b)
    ensures Plain([a, b])
  {
  }

  lemma PlainTriple(a: string, b: string, d: string)
    requires PlainLine(a) && PlainLine(b) && PlainLine(d)
    ensures Plain([a, b, d])
  {
  }

  /** A step with one action line and a closing line. */
  lemma OneStepPlain(name: string, action: string, close: string)
    requires '\n' !in name && PlainLine(action) && PlainLine(close)
    ensures Plain(Step(name, [action, close]))
  {
    PlainPair(action, close);
    StepPlain(name, [action, close]);
  }

  lemma CheckoutPlain()
    ensures Plain(CheckoutStep())
  {
    UsesPlain("actions/checkout@v4");
    assert PlainLine("        ");
    OneStepPlain("Checkout code", Uses("actions/checkout@v4"), "        ");
  }

  lemma InstallPlain()
    ensures Plain(InstallStep())
  {
    RunPlain("npm ci");
    assert PlainLine("        ");
    OneStepPlain("Install dependencies", Run("npm ci"), "        ");
  }

  lemma LintPlain()
    ensures Plain(LintStep())
  {
    RunPlain("npm run lint");
    assert PlainLine("");
    OneStepPlain("Run linting", Run("npm run lint"), "");
  }

  lemma TestStepPlain(c: PipelineConfig)
    requires '\n' !in c.testCommand
    ensures Plain(TestStep(c))
  {
    RunPlain(c.testCommand);
    assert PlainLine("        ");
    OneStepPlain("Run tests", Run(c.testCommand), "        ");
  }

  lemma BuildStepPlain(c: PipelineConfig)
    requires '\n' !in c.buildCommand
    ensures Plain(BuildStep(c))
  {
    RunPlain(c.buildCommand);
    assert PlainLine("        ");
    OneStepPlain("Build application", Run(c.buildCommand), "        ");
  }

  lemma AuditPlain()
    ensures Plain(AuditStep())
  {
    RunPlain("npm audit --audit-level=moderate");
    assert PlainLine("        ");
    OneStepPlain("Run security audit", Run("npm audit --audit-level=moderate"), "        ");
  }

  lemma CoveragePlain()
    ensures Plain(CoverageStep())
  {
    var u := Uses("codecov/codecov-action@v3");
    UsesPlain("codecov/codecov-action@v3");
    assert PlainLine("        if: success()");
    assert PlainLine("");
    PlainTriple(u, "        if: success()", "");
    StepPlain("Upload coverage reports", [u, "        if: success()", ""]);
  }

  lemma ReviewPlain()
    ensures Plain(ReviewStep())
  {
    var u := Uses("actions/dependency-review-action@v3");
    var cond := If("github.event_name == 'pull_request'");
    UsesPlain("actions/dependency-review-action@v3");
    assert '\n' !in "        if: ";
    assert '\n' !in "github.event_name == 'pull_request'";
    assert cond[2] == ' ' && cond[10] == ':';
    assert PlainLine("");
    PlainTriple(u, cond, "");
    StepPlain("Dependency review", [u, cond, ""]);
  }

  /** `with:` naming the build artifact and its path. */
  lemma ArtifactWithPlain()
    ensures Plain(["        with:", Param("name", "build-files"), Param("path", "dist/")])
  {
    assert PlainLine("        with:");
    ParamPlain("name", "build-files");
    ParamPlain("path", "dist/");
    PlainTriple("        with:", Param("name", "build-files"), Param("path", "dist/"));
  }

  lemma ArtifactPlain()
    ensures Plain(ArtifactStep())
  {
    var w := ["        with:", Param("name", "build-files"), Param("path", "dist/")];
    var u := Uses("actions/upload-artifact@v3");
    UsesPlain("actions/upload-artifact@v3");
    ArtifactWithPlain();
    assert Plain([u]) && Plain([""]);
    PlainAppend([u], w);
    PlainAppend([u] + w, [""]);
    assert ArtifactStep() == Step("Upload build artifacts", [u] + w + [""]);
    StepPlain("Upload build artifacts", [u] + w + [""]);
  }

  lemma DownloadPlain()
    ensures Plain(DownloadStep())
  {
    var w := ["        with:", Param("name", "build-files"), Param("path", "dist/")];
    var u := Uses("actions/download-artifact@v3");
    UsesPlain("actions/download-artifact@v3");
    ArtifactWithPlain();
    assert Plain([u]) && Plain(["          "]);
    PlainAppend([u], w);
    PlainAppend([u] + w, ["          "]);
    assert DownloadStep() == Step("Download build artifacts", [u] + w + ["          "]);
    StepPlain("Download build artifacts", [u] + w + ["          "]);
  }

  lemma VercelPlain()
    ensures Plain(VercelSteps())
  {
    var a := [Uses("amondnet/vercel-action@v25"), "        with:", Param("vercel-token", Secret("VERCEL_TOKEN"))];
    var b := [Param("vercel-org-id", Secret("ORG_ID")), Param("vercel-project-id", Secret("PROJECT_ID")),
              Param("vercel-args", "'--prod'")];
    VercelWithPlain();
    VercelIdsPlain();
    PlainAppend(a, b);
    assert VercelSteps() == Step("Deploy to Vercel", a + b);
    StepPlain("Deploy to Vercel", a + b);
  }

  lemma VercelWithPlain()
    ensures Plain([Uses("amondnet/vercel-action@v25"), "        with:", Param("vercel-token", Secret("VERCEL_TOKEN"))])
  {
    UsesPlain("amondnet/vercel-action@v25");
    assert PlainLine("        with:");
    SecretPlain("vercel-token", "VERCEL_TOKEN");
    PlainTriple(Uses("amondnet/vercel-action@v25"), "        with:", Param("vercel-token", Secret("VERCEL_TOKEN")));
  }

  lemma VercelIdsPlain()
    ensures Plain([Param("vercel-org-id", Secret("ORG_ID")), Param("vercel-project-id", Secret("PROJECT_ID")),
                   Param("vercel-args", "'--prod'")])
  {
    SecretPlain("vercel-org-id", "ORG_ID");
    SecretPlain("vercel-project-id", "PROJECT_ID");
    ParamPlain("vercel-args", "'--prod'");
    PlainTriple(Param("vercel-org-id", Secret("ORG_ID")), Param("vercel-project-id", Secret("PROJECT_ID")),
                Param("vercel-args", "'--prod'"));
  }

  /** The job settings lines shared by lint and security. */
  lemma RunsOnPlain()
    ensures Plain(["    runs-on: ubuntu-latest", "    steps:"])
  {
    assert PlainLine("    runs-on: ubuntu-latest");
    assert PlainLine("    steps:");
    PlainPair("    runs-on: ubuntu-latest", "    steps:");
  }

  lemma TestHeadPlain(c: PipelineConfig)
    ensures Plain(["    runs-on: ubuntu-latest", TestNeedsSlot(c), "    steps:"])
  {
    assert PlainLine("    runs-on: ubuntu-latest");
    assert PlainLine("    steps:");
    assert PlainLine(TestNeedsSlot(c));
    PlainTriple("    runs-on: ubuntu-latest", TestNeedsSlot(c), "    steps:");
  }

  lemma BuildHeadPlain(c: PipelineConfig)
    ensures Plain(["    runs-on: ubuntu-latest", NeedsLine(c), "    steps:"])
  {
    assert PlainLine("    runs-on: ubuntu-latest");
    assert PlainLine("    steps:");
    SingleJoin(BuildNeeds(c), ", ");
    assert '\n' !in "    needs: [" && '\n' !in "]";
    assert NeedsLine(c)[2] == ' ' && NeedsLine(c)[10] == ' ';
    PlainTriple("    runs-on: ubuntu-latest", NeedsLine(c), "    steps:");
  }

  lemma DeployHeadPlain()
    ensures Plain(DeployHead)
  {
    assert PlainLine("    runs-on: ubuntu-latest");
    assert PlainLine("    needs: build");
    assert PlainLine("    if: github.ref == 'refs/heads/main'");
    assert PlainLine("    environment: production");
    assert PlainLine("    steps:");
  }

  lemma DeployTargetPlain(target: string)
    ensures Plain(DeployTargetLines(target))
  {
    if target == "vercel" {
      VercelPlain();
    } else if target == "netlify" {
      NetlifyPlain();
    } else if target == "aws" {
      AwsCredentialsPlain();
      S3SyncPlain();
      InvalidatePlain();
      PlainAppend(AwsCredentialsStep(), S3SyncStep());
      PlainAppend(AwsCredentialsStep() + S3SyncStep(), InvalidateStep());
    } else {
      assert PlainLine("      ");
    }
  }

  /** The body of the deploy job. */
  function DeployBody(c: PipelineConfig): seq<string>
  {
    DeployHead + CheckoutStep() + DownloadStep() + DeployTargetLines(c.deployTarget)
  }

  lemma DeployJobFacts(c: PipelineConfig)
    ensures JobKeys(DeployJob(c)) == ["deploy"] && SingleLines(DeployJob(c))
    ensures CountLine(DeployJob(c), CacheLine) == 0
  {
    var front := DeployHead + CheckoutStep() + DownloadStep();
    DeployHeadPlain();
    CheckoutPlain();
    DownloadPlain();
    PlainAppend(DeployHead, CheckoutStep());
    PlainAppend(DeployHead + CheckoutStep(), DownloadStep());
    DeployTargetPlain(c.deployTarget);
    PlainAppend(front, DeployTargetLines(c.deployTarget));
    PlainJob("deploy", DeployBody(c));
  }

  // ---------------------------------------------------------------------------
  // The jobs section

  /** The jobs before `build`: the enabled ones among lint, test and security. */
  function OptionalJobs(c: PipelineConfig): seq<string>
  {
    (if c.runLinting then LintJob(c) else [])
    + (if c.runTests then TestJob(c) else [])
    + (if c.enableSecurity then SecurityJob() else [])
  }

  /** Number of enabled jobs that set up Node.js before `build`. */
  function SetupJobsBeforeBuild(c: PipelineConfig): nat
  {
    (if c.runLinting then 1 else 0) + (if c.runTests then 1 else 0)
  }

  lemma OptionalJobsFacts(c: PipelineConfig)
    requires SingleLineFields(c)
    ensures JobKeys(OptionalJobs(c)) == BuildNeeds(c) && SingleLines(OptionalJobs(c))
    ensures CountLine(OptionalJobs(c), CacheLine)
            == if c.enableCaching then SetupJobsBeforeBuild(c) else 0
  {
    OptionalJobKeys(c);
    OptionalJobsSingle(c);
    OptionalJobsCache(c);
  }

  lemma OptionalJobKeys(c: PipelineConfig)
    requires SingleLineFields(c)
    ensures JobKeys(OptionalJobs(c)) == BuildNeeds(c)
  {
    var l := if c.runLinting then LintJob(c) else [];
    var t := if c.runTests then TestJob(c) else [];
    var s := if c.enableSecurity then SecurityJob() else [];
    LintChunk(c);
    TestChunk(c);
    SecurityChunk(c);
    ThreeChunks(l, t, s);
  }

  lemma OptionalJobsSingle(c: PipelineConfig)
    requires SingleLineFields(c)
    ensures SingleLines(OptionalJobs(c))
  {
    var l := if c.runLinting then LintJob(c) else [];
    var t := if c.runTests then TestJob(c) else [];
    var s := if c.enableSecurity then SecurityJob() else [];
    LintChunk(c);
    TestChunk(c);
    SecurityChunk(c);
    ThreeChunks(l, t, s);
  }

  lemma OptionalJobsCache(c: PipelineConfig)
    requires SingleLineFields(c)
    ensures CountLine(OptionalJobs(c), CacheLine)
            == if c.enableCaching then SetupJobsBeforeBuild(c) else 0
  {
    var l := if c.runLinting then LintJob(c) else [];
    var t := if c.runTests then TestJob(c) else [];
    var s := if c.enableSecurity then SecurityJob() else [];
    var nl := if c.runLinting && c.enableCaching then 1 else 0;
    var nt := if c.runTests && c.enableCaching then 1 else 0;
    LintCache(c);
    TestCache(c);
    SecurityCache(c);
    assert OptionalJobs(c) == l + t + s;
    CacheCountThree(l, t, s, nl, nt);
  }

  lemma LintCache(c: PipelineConfig)
    requires '\n' !in c.nodeVersion
    ensures CountLine(if c.runLinting then LintJob(c) else [], CacheLine)
            == if c.runLinting && c.enableCaching then 1 else 0
  {
    if c.runLinting { LintJobFacts(c); }
  }

  lemma TestCache(c: PipelineConfig)
    requires '\n' !in c.nodeVersion && '\n' !in c.testCommand
    ensures CountLine(if c.runTests then TestJob(c) else [], CacheLine)
            == if c.runTests && c.enableCaching then 1 else 0
  {
    if c.runTests { TestJobFacts(c); }
  }

  lemma SecurityCache(c: PipelineConfig)
    ensures CountLine(if c.enableSecurity then SecurityJob() else [], CacheLine) == 0
  {
    if c.enableSecurity { SecurityJobFacts(); }
  }

  lemma CacheCountThree(l: seq<string>, t: seq<string>, s: seq<string>, nl: nat, nt: nat)
    requires CountLine(l, CacheLine) == nl && CountLine(t, CacheLine) == nt
    requires CountLine(s, CacheLine) == 0
    ensures CountLine(l + t + s, CacheLine) == nl + nt
  {
    CountLineAppend(l, t, CacheLine);
    CountLineAppend(l + t, s, CacheLine);
  }

  lemma LintChunk(c: PipelineConfig)
    requires '\n' !in c.nodeVersion
    ensures var l := if c.runLinting then LintJob(c) else [];
      && JobKeys(l) == (if c.runLinting then ["lint"] else []) && SingleLines(l)
      && CountLine(l, CacheLine) == if c.runLinting && c.enableCaching then 1 else 0
  {
    if c.runLinting { LintJobFacts(c); }
  }

  lemma TestChunk(c: PipelineConfig)
    requires '\n' !in c.nodeVersion && '\n' !in c.testCommand
    ensures var t := if c.runTests then TestJob(c) else [];
      && JobKeys(t) == (if c.runTests then ["test"] else []) && SingleLines(t)
      && CountLine(t, CacheLine) == if c.runTests && c.enableCaching then 1 else 0
  {
    if c.runTests { TestJobFacts(c); }
  }

  lemma SecurityChunk(c: PipelineConfig)
    ensures var s := if c.enableSecurity then SecurityJob() else [];
      && JobKeys(s) == (if c.enableSecurity then ["security"] else []) && SingleLines(s)
      && CountLine(s, CacheLine) == 0
  {
    if c.enableSecurity { SecurityJobFacts(); }
  }

  /** Keys, line breaks and cache lines of three chunks add up. */
  lemma ThreeChunks(l: seq<string>, t: seq<string>, s: seq<string>)
    requires SingleLines(l) && SingleLines(t) && SingleLines(s)
    ensures JobKeys(l + t + s) == JobKeys(l) + JobKeys(t) + JobKeys(s)
    ensures SingleLines(l + t + s)
    ensures CountLine(l + t + s, CacheLine)
            == CountLine(l, CacheLine) + CountLine(t, CacheLine) + CountLine(s, CacheLine)
  {
    JobKeysAppend(l, t);
    JobKeysAppend(l + t, s);
    SingleLinesAppend(l, t);
    SingleLinesAppend(l + t, s);
    CountLineAppend(l, t, CacheLine);
    CountLineAppend(l + t, s, CacheLine);
  }

  lemma JobLinesFacts(c: PipelineConfig)
    requires SingleLineFields(c)
    ensures JobKeys(JobLines(c)) == BuildNeeds(c) + ["build", "deploy"]
    ensures SingleLines(JobLines(c))
    ensures CountLine(JobLines(c), CacheLine)
            == if c.enableCaching then SetupJobsBeforeBuild(c) + 1 else 0
  {
    var o, b, d := OptionalJobs(c), BuildJob(c), DeployJob(c);
    OptionalJobsFacts(c);
    BuildJobFacts(c);
    DeployJobFacts(c);
    assert JobLines(c) == o + b + d;
    JobKeysAppend(o, b);
    JobKeysAppend(o + b, d);
    SingleLinesAppend(o, b);
    SingleLinesAppend(o + b, d);
    CountLineAppend(o, b, CacheLine);
    CountLineAppend(o + b, d, CacheLine);
  }

  /** The lines above `jobs:`. */
  function Preamble(c: PipelineConfig): seq<string>
  {
    ["name: " + c.workflowName, "", "on:"] + TriggerLines(c.triggers, c.branches) + [""]
  }

  lemma PreambleFacts(c: PipelineConfig)
    requires SingleLineFields(c)
    ensures HeadLines(c) == Preamble(c) + ["jobs:"]
    ensures SingleLines(HeadLines(c))
    ensures "jobs:" !in Preamble(c)
  {
    var t := TriggerLines(c.triggers, c.branches);
    if |c.triggers| > 0 {
      EntriesSingleLines(c.triggers, c.branches);
    }
    TriggerLinesIndented(c.triggers, c.branches);
    var first := ["name: " + c.workflowName, "", "on:"];
    assert SingleLines(first) && SingleLines(["", "jobs:"]);
    SingleLinesAppend(first, t);
    SingleLinesAppend(first + t, ["", "jobs:"]);
    assert DiffersAt(first, "jobs:", 0) && DiffersAt(t, "jobs:", 0) && DiffersAt([""], "jobs:", 0);
    AbsentWhenDiffers(first, "jobs:", 0);
    AbsentWhenDiffers(t, "jobs:", 0);
  }

  /** The lines a reader finds after the `jobs:` line of a workflow. */
  function JobsSection(doc: string): seq<string>
  {
    After(Lines(doc), "jobs:")
  }

  /** The lines after the key line of job `key`. */
  function JobBody(jobs: seq<string>, key: string): seq<string>
  {
    After(jobs, KeyLine(key))
  }

  /**
   * For single-line fields, the workflow's lines are the template's lines and
   * its jobs section is exactly the job lines.
   */
  lemma WorkflowDocumentLines(c: PipelineConfig)
    requires SingleLineFields(c)
    ensures Lines(GenerateWorkflow(c)) == WorkflowLines(c)
    ensures JobsSection(GenerateWorkflow(c)) == JobLines(c)
  {
    WorkflowSingleLines(c);
    LinesOfUnlines(WorkflowLines(c));
    JobsAfterMarker(c);
  }

  lemma WorkflowSingleLines(c: PipelineConfig)
    requires SingleLineFields(c)
    ensures SingleLines(WorkflowLines(c))
  {
    PreambleFacts(c);
    JobLinesFacts(c);
    SingleLinesAppend(HeadLines(c), JobLines(c));
  }

  lemma JobsAfterMarker(c: PipelineConfig)
    requires SingleLineFields(c)
    ensures After(WorkflowLines(c), "jobs:") == JobLines(c)
  {
    PreambleFacts(c);
    var p, jobs := Preamble(c), JobLines(c);
    assert WorkflowLines(c) == p + ["jobs:"] + jobs;
    AfterMarkerLine(p, "jobs:", jobs);
  }

  /**
   * The jobs appear as lint, test and security exactly when their toggles are
   * set, then `build` and `deploy` always, in that order.
   */
  lemma JobOrder(c: PipelineConfig)
    requires SingleLineFields(c)
    ensures JobKeys(JobsSection(GenerateWorkflow(c))) == BuildNeeds(c) + ["build", "deploy"]
  {
    WorkflowDocumentLines(c);
    JobLinesFacts(c);
  }

  /**
   * The line `cache: 'npm'` is in the jobs section once per job that sets up
   * Node.js (lint and test when enabled, build always) when caching is on, and
   * nowhere when it is off.
   */
  lemma CacheLineCount(c: PipelineConfig)
    requires SingleLineFields(c)
    ensures CountLine(JobsSection(GenerateWorkflow(c)), CacheLine)
            == if c.enableCaching then SetupJobsBeforeBuild(c) + 1 else 0
  {
    WorkflowDocumentLines(c);
    JobLinesFacts(c);
  }

  /**
   * With the dialog's checkbox triggers, the whole workflow holds the line
   * `cache: 'npm'` exactly as often as its jobs section does.
   */
  lemma CacheLineInDocument(c: PipelineConfig)
    requires SingleLineFields(c) && CheckboxTriggers(c)
    ensures CountLine(Lines(GenerateWorkflow(c)), CacheLine)
            == if c.enableCaching then SetupJobsBeforeBuild(c) + 1 else 0
  {
    WorkflowDocumentLines(c);
    CacheLineCount(c);
    HeadLinesNotAt(c);
    NotAtAbsent(HeadLines(c), CacheLine, 4, ' ');
    CountLineAbsent(HeadLines(c), CacheLine);
    CountLineAppend(HeadLines(c), JobLines(c), CacheLine);
  }

  /** Above `jobs:` no line has a space in its fifth position. */
  lemma HeadLinesNotAt(c: PipelineConfig)
    requires CheckboxTriggers(c)
    ensures NotAt(HeadLines(c), 4, ' ')
  {
    var name := "name: " + c.workflowName;
    assert name[4] == ':';
    assert NotAt([name, "", "on:"], 4, ' ');
    if |c.triggers| > 0 {
      TriggerEntriesNotAt(c.triggers, c.branches);
    }
    NotAtAppend([name, "", "on:"], TriggerLines(c.triggers, c.branches), 4, ' ');
    NotAtAppend([name, "", "on:"] + TriggerLines(c.triggers, c.branches), ["", "jobs:"], 4, ' ');
  }

  lemma {:induction false} TriggerEntriesNotAt(triggers: seq<string>, branches: seq<string>)
    requires forall t :: t in triggers ==> t in TriggerChoices
    ensures NotAt(TriggerEntries(triggers, branches), 4, ' ')
    decreases |triggers|
  {
    if |triggers| > 0 {
      TriggerEntryNotAt(triggers[0], branches);
      assert forall t :: t in triggers[1..] ==> t in triggers;
      TriggerEntriesNotAt(triggers[1..], branches);
      NotAtAppend(TriggerEntry(triggers[0], branches), TriggerEntries(triggers[1..], branches), 4, ' ');
    }
  }

  /** A checkbox trigger's lines have a letter in their fifth position. */
  lemma TriggerEntryNotAt(t: string, branches: seq<string>)
    requires t in TriggerChoices
    ensures NotAt(TriggerEntry(t, branches), 4, ' ')
  {
    assert |t| > 2 && t[2] != ' ';
    assert ("  " + t + ":")[4] == t[2] && ("  " + t)[4] == t[2];
    var b := JoinWith(Quoted(branches), ", ");
    assert BranchesLine(branches)[4] == 'b';
  }

  /** A key not among the job keys of `ls` has no key line in `ls`. */
  lemma UnlistedKeyAbsent(ls: seq<string>, key: string)
    requires key != "" && key[0] != ' ' && key !in JobKeys(ls)
    ensures KeyLine(key) !in ls
  {
    KeyLineListed(ls, key);
  }

  /** The lines after a job's key line are its body and what follows it. */
  lemma AfterJob(key: string, body: seq<string>, rest: seq<string>)
    ensures After(Job(key, body) + rest, KeyLine(key)) == body + rest
  {
    var j := Job(key, body) + rest;
    assert j[0] == KeyLine(key);
    assert j[1..] == body + rest;
  }

  /** The test job's first three lines, with the `needs` slot written out. */
  lemma TestHead(c: PipelineConfig, rest: seq<string>)
    ensures |After(TestJob(c) + rest, KeyLine("test"))| >= 3
    ensures After(TestJob(c) + rest, KeyLine("test"))[..3]
            == ["    runs-on: ubuntu-latest",
                if c.runLinting then "    needs: lint" else "    ",
                "    steps:"]
  {
    var head := ["    runs-on: ubuntu-latest", TestNeedsSlot(c), "    steps:"];
    var tail := CheckoutStep() + SetupNodeStep(c) + InstallStep() + TestStep(c) + CoverageStep();
    assert TestJob(c) == Job("test", head + tail);
    AfterJob("test", head + tail, rest);
    assert (head + tail + rest)[..3] == head;
    assert TestNeedsSlot(c) == if c.runLinting then "    needs: lint" else "    ";
  }

  /** Only the lint job can come before the test job. */
  lemma TestKeyAbsentBefore(c: PipelineConfig)
    requires '\n' !in c.nodeVersion
    ensures KeyLine("test") !in (if c.runLinting then LintJob(c) else [])
  {
    if c.runLinting { LintJobFacts(c); }
    UnlistedKeyAbsent(if c.runLinting then LintJob(c) else [], "test");
  }

  /** The job lines split around the test job. */
  lemma JobLinesAroundTest(c: PipelineConfig)
    requires c.runTests
    ensures JobLines(c)
            == (if c.runLinting then LintJob(c) else [])
               + (TestJob(c) + ((if c.enableSecurity then SecurityJob() else []) + BuildJob(c) + DeployJob(c)))
  {
    var l, t := if c.runLinting then LintJob(c) else [], TestJob(c);
    var s, b, d := if c.enableSecurity then SecurityJob() else [], BuildJob(c), DeployJob(c);
    assert JobLines(c) == l + t + s + b + d;
    Regroup(l, t, s, b, d);
  }

  lemma Regroup(l: seq<string>, t: seq<string>, s: seq<string>, b: seq<string>, d: seq<string>)
    ensures l + t + s + b + d == l + (t + (s + b + d))
  {
  }

  lemma TestInJobLines(c: PipelineConfig)
    requires SingleLineFields(c) && c.runTests
    ensures |After(JobLines(c), KeyLine("test"))| >= 3
    ensures After(JobLines(c), KeyLine("test"))[..3]
            == ["    runs-on: ubuntu-latest",
                if c.runLinting then "    needs: lint" else "    ",
                "    steps:"]
  {
    var l := if c.runLinting then LintJob(c) else [];
    var rest := (if c.enableSecurity then SecurityJob() else []) + BuildJob(c) + DeployJob(c);
    TestKeyAbsentBefore(c);
    JobLinesAroundTest(c);
    AfterAppend(l, TestJob(c) + rest, KeyLine("test"));
    TestHead(c, rest);
  }

  /**
   * The test job's third line is `needs: lint` when linting runs and the bare
   * indent otherwise.
   */
  lemma TestNeedsLint(c: PipelineConfig)
    requires SingleLineFields(c) && c.runTests
    ensures |JobBody(JobsSection(GenerateWorkflow(c)), "test")| >= 3
    ensures JobBody(JobsSection(GenerateWorkflow(c)), "test")[..3]
            == ["    runs-on: ubuntu-latest",
                if c.runLinting then "    needs: lint" else "    ",
                "    steps:"]
  {
    WorkflowDocumentLines(c);
    TestInJobLines(c);
  }

  /** A key listed in neither part has no key line in their concatenation. */
  lemma UnlistedInBoth(a: seq<string>, b: seq<string>, key: string)
    requires key != "" && key[0] != ' '
    requires key !in JobKeys(a) && key !in JobKeys(b)
    ensures KeyLine(key) !in a + b
  {
    JobKeysAppend(a, b);
    UnlistedKeyAbsent(a + b, key);
  }

  /**
   * The build job's third line lists, in brackets, exactly the enabled jobs
   * among lint, test and security.
   */
  lemma BuildNeedsLine(c: PipelineConfig)
    requires SingleLineFields(c)
    ensures |JobBody(JobsSection(GenerateWorkflow(c)), "build")| >= 3
    ensures JobBody(JobsSection(GenerateWorkflow(c)), "build")[..3]
            == ["    runs-on: ubuntu-latest",
                "    needs: [" + JoinWith(BuildNeeds(c), ", ") + "]",
                "    steps:"]
  {
    WorkflowDocumentLines(c);
    BuildInJobLines(c);
  }

  lemma BuildInJobLines(c: PipelineConfig)
    requires SingleLineFields(c)
    ensures |After(JobLines(c), KeyLine("build"))| >= 3
    ensures After(JobLines(c), KeyLine("build"))[..3]
            == ["    runs-on: ubuntu-latest", NeedsLine(c), "    steps:"]
  {
    BuildKeyAbsentBefore(c);
    assert JobLines(c) == OptionalJobs(c) + BuildJob(c) + DeployJob(c);
    AppendAssoc(OptionalJobs(c), BuildJob(c), DeployJob(c));
    AfterAppend(OptionalJobs(c), BuildJob(c) + DeployJob(c), KeyLine("build"));
    BuildHead(c, DeployJob(c));
  }

  lemma AppendAssoc(a: seq<string>, b: seq<string>, d: seq<string>)
    ensures a + b + d == a + (b + d)
  {
  }

  /** Only lint, test and security can come before the build job. */
  lemma BuildKeyAbsentBefore(c: PipelineConfig)
    requires SingleLineFields(c)
    ensures KeyLine("build") !in OptionalJobs(c)
  {
    OptionalJobKeys(c);
    assert "build" !in BuildNeeds(c);
    UnlistedKeyAbsent(OptionalJobs(c), "build");
  }

  /** The build job's first three lines. */
  lemma BuildHead(c: PipelineConfig, rest: seq<string>)
    ensures |After(BuildJob(c) + rest, KeyLine("build"))| >= 3
    ensures After(BuildJob(c) + rest, KeyLine("build"))[..3]
            == ["    runs-on: ubuntu-latest", NeedsLine(c), "    steps:"]
  {
    var head := ["    runs-on: ubuntu-latest", NeedsLine(c), "    steps:"];
    var tail := CheckoutStep() + SetupNodeStep(c) + InstallStep() + BuildStep(c) + ArtifactStep();
    assert BuildJob(c) == Job("build", head + tail);
    AfterJob("build", head + tail, rest);
    assert (head + tail + rest)[..3] == head;
  }

  /** No job before `deploy` has the deploy key. */
  lemma DeployKeyAbsentBefore(c: PipelineConfig)
    requires SingleLineFields(c)
    ensures KeyLine("deploy") !in OptionalJobs(c) + BuildJob(c)
  {
    OptionalJobKeys(c);
    BuildJobKeys(c);
    UnlistedInBoth(OptionalJobs(c), BuildJob(c), "deploy");
  }


  lemma BuildJobKeys(c: PipelineConfig)
    requires '\n' !in c.nodeVersion && '\n' !in c.buildCommand
    ensures JobKeys(BuildJob(c)) == ["build"]
  {
    BuildJobFacts(c);
  }

  lemma DeployInJobLines(c: PipelineConfig)
    requires SingleLineFields(c)
    ensures After(JobLines(c), KeyLine("deploy")) == DeployBody(c)
  {
    var front := OptionalJobs(c) + BuildJob(c);
    DeployKeyAbsentBefore(c);
    assert JobLines(c) == front + DeployJob(c);
    AfterAppend(front, DeployJob(c), KeyLine("deploy"));
    assert DeployJob(c) + [] == Job("deploy", DeployBody(c)) + [];
    AfterJob("deploy", DeployBody(c), []);
  }

  /** The lines after the deploy key are the deploy job's body. */
  lemma DeployJobRead(c: PipelineConfig)
    requires SingleLineFields(c)
    ensures JobBody(JobsSection(GenerateWorkflow(c)), "deploy") == DeployBody(c)
  {
    WorkflowDocumentLines(c);
    DeployInJobLines(c);
  }

  /**
   * The deploy job always needs `build`, runs only on `refs/heads/main` and
   * targets the `production` environment.
   */
  lemma DeploySettings(c: PipelineConfig)
    requires SingleLineFields(c)
    ensures |JobBody(JobsSection(GenerateWorkflow(c)), "deploy")| >= 5
    ensures JobBody(JobsSection(GenerateWorkflow(c)), "deploy")[..5]
            == ["    runs-on: ubuntu-latest",
                "    needs: build",
                "    if: github.ref == 'refs/heads/main'",
                "    environment: production",
                "    steps:"]
  {
    DeployJobRead(c);
    var rest := CheckoutStep() + DownloadStep() + DeployTargetLines(c.deployTarget);
    Regroup4(DeployHead, CheckoutStep(), DownloadStep(), DeployTargetLines(c.deployTarget));
    PrefixOfAppend(DeployHead, rest);
  }

  lemma PrefixOfAppend(a: seq<string>, b: seq<string>)
    ensures (a + b)[..|a|] == a
  {
  }

  lemma Regroup4(a: seq<string>, b: seq<string>, c: seq<string>, d: seq<string>)
    ensures a + b + c + d == a + (b + c + d)
  {
  }

  /** The steps a deploy target adds, by name. */
  function TargetStepNames(target: string): seq<string>
  {
    if target == "vercel" then ["Deploy to Vercel"]
    else if target == "netlify" then ["Deploy to Netlify"]
    else if target == "aws" then ["Configure AWS credentials", "Deploy to S3", "Invalidate CloudFront"]
    else []
  }

  lemma DeployFrontSteps()
    ensures StepNames(DeployHead + CheckoutStep() + DownloadStep())
            == ["Checkout code", "Download build artifacts"]
  {
    DeployHeadStepFree();
    StepFreeHasNoSteps(DeployHead);
    CheckoutStepName();
    StepNamesAppend(DeployHead, CheckoutStep());
    DownloadStepName();
    StepNamesAppend(DeployHead + CheckoutStep(), DownloadStep());
  }

  lemma DeployHeadStepFree()
    ensures StepFree(DeployHead)
  {
  }

  lemma DeployBodySteps(target: string)
    ensures StepNames(DeployHead + CheckoutStep() + DownloadStep() + DeployTargetLines(target))
            == ["Checkout code", "Download build artifacts"] + TargetStepNames(target)
  {
    DeployFrontSteps();
    TargetSteps(target);
    StepNamesAppend(DeployHead + CheckoutStep() + DownloadStep(), DeployTargetLines(target));
  }

  /** The deploy job's steps: checkout, download, then the target's steps. */
  lemma DeploySteps(c: PipelineConfig)
    requires SingleLineFields(c)
    ensures StepNames(JobBody(JobsSection(GenerateWorkflow(c)), "deploy"))
            == ["Checkout code", "Download build artifacts"] + TargetStepNames(c.deployTarget)
  {
    DeployJobRead(c);
    DeployBodySteps(c.deployTarget);
  }

  lemma CheckoutStepName()
    ensures StepNames(CheckoutStep()) == ["Checkout code"]
  {
    var rest := CheckoutStep()[1..];
    assert CheckoutStep() == Step("Checkout code", rest);
    assert StepFree(rest);
    StepNamesOfStep("Checkout code", rest);
  }

  lemma DownloadStepName()
    ensures StepNames(DownloadStep()) == ["Download build artifacts"]
  {
    var rest := DownloadStep()[1..];
    assert DownloadStep() == Step("Download build artifacts", rest);
    assert StepFree(rest);
    StepNamesOfStep("Download build artifacts", rest);
  }

  lemma TargetSteps(target: string)
    ensures StepNames(DeployTargetLines(target)) == TargetStepNames(target)
  {
    if target == "vercel" {
      VercelStepName();
    } else if target == "netlify" {
      NetlifyStepName();
    } else if target == "aws" {
      AwsStepNames();
    } else {
      assert StepFree(["      "]);
      StepFreeHasNoSteps(["      "]);
    }
  }

  lemma VercelStepName()
    ensures StepNames(VercelSteps()) == ["Deploy to Vercel"]
  {
    var rest := VercelSteps()[1..];
    assert VercelSteps() == Step("Deploy to Vercel", rest);
    assert StepFree(rest);
    StepNamesOfStep("Deploy to Vercel", rest);
  }

  lemma NetlifyStepName()
    ensures StepNames(NetlifySteps()) == ["Deploy to Netlify"]
  {
    var rest := NetlifySteps()[1..];
    assert NetlifySteps() == Step("Deploy to Netlify", rest);
    assert StepFree(rest);
    StepNamesOfStep("Deploy to Netlify", rest);
  }

  lemma AwsStepNames()
    ensures StepNames(AwsSteps()) == ["Configure AWS credentials", "Deploy to S3", "Invalidate CloudFront"]
  {
    var a, b, d := AwsCredentialsStep(), S3SyncStep(), InvalidateStep();
    assert a == Step("Configure AWS credentials", a[1..]) && StepFree(a[1..]);
    assert b == Step("Deploy to S3", b[1..]) && StepFree(b[1..]);
    assert d == Step("Invalidate CloudFront", d[1..]) && StepFree(d[1..]);
    StepNamesOfStep("Configure AWS credentials", a[1..]);
    StepNamesOfStep("Deploy to S3", b[1..]);
    StepNamesOfStep("Invalidate CloudFront", d[1..]);
    StepNamesAppend(a, b);
    StepNamesAppend(a + b, d);
  }

  /**
   * At most one deploy target contributes steps, the one `deployTarget`
   * names; any other value adds none.
   */
  lemma DeployTargetExclusive(c: PipelineConfig)
    requires SingleLineFields(c)
    ensures "Deploy to Vercel" in StepNames(JobBody(JobsSection(GenerateWorkflow(c)), "deploy"))
            <==> c.deployTarget == "vercel"
    ensures "Deploy to Netlify" in StepNames(JobBody(JobsSection(GenerateWorkflow(c)), "deploy"))
            <==> c.deployTarget == "netlify"
    ensures "Configure AWS credentials" in StepNames(JobBody(JobsSection(GenerateWorkflow(c)), "deploy"))
            <==> c.deployTarget == "aws"
    ensures c.deployTarget !in ["vercel", "netlify", "aws"]
            ==> StepNames(JobBody(JobsSection(GenerateWorkflow(c)), "deploy"))
                == ["Checkout code", "Download build artifacts"]
  {
    DeploySteps(c);
    TargetNamesExclusive(c.deployTarget);
  }

  /** Which target names appear among a target's steps. */
  lemma TargetNamesExclusive(target: string)
    ensures "Deploy to Vercel" in ["Checkout code", "Download build artifacts"] + TargetStepNames(target)
            <==> target == "vercel"
    ensures "Deploy to Netlify" in ["Checkout code", "Download build artifacts"] + TargetStepNames(target)
            <==> target == "netlify"
    ensures "Configure AWS credentials" in ["Checkout code", "Download build artifacts"] + TargetStepNames(target)
            <==> target == "aws"
    ensures target !in ["vercel", "netlify", "aws"] ==> TargetStepNames(target) == []
  {
  }

  // ---------------------------------------------------------------------------
  // The dialog's edits

  /** A checkbox change adds no trigger other than the one changed. */
  lemma ToggleKeepsChoices(xs: seq<string>, x: string, checked: bool)
    ensures forall t :: t in Toggle(xs, x, checked) ==> t in xs || t == x
  {
    var r := Toggle(xs, x, checked);
    if !checked {
      forall t | t in r ensures t in xs {
        assert multiset(r)[t] > 0;
      }
    }
  }

  /** The dialog's state and the handlers that replace its lists. */
  class PipelineEditor {
    var config: PipelineConfig

    constructor ()
      ensures config == DefaultConfig()
    {
      config := DefaultConfig();
    }

    /**
     * `handleTriggerChange`: checking appends the trigger at the end,
     * unchecking removes every copy; nothing else changes.
     */
    method ChangeTrigger(trigger: string, checked: bool)
      modifies this
      ensures config == old(config).(triggers := Toggle(old(config).triggers, trigger, checked))
      ensures checked ==> config.triggers == old(config).triggers + [trigger]
      ensures !checked ==> trigger !in config.triggers
      ensures SingleLineFields(old(config)) && '\n' !in trigger ==> SingleLineFields(config)
      ensures CheckboxTriggers(old(config)) && trigger in TriggerChoices ==> CheckboxTriggers(config)
    {
      ToggleKeepsChoices(config.triggers, trigger, checked);
      if SingleLines(config.triggers) && '\n' !in trigger {
        ToggleSingleLines(config.triggers, trigger, checked);
      }
      config := config.(triggers := Toggle(config.triggers, trigger, checked));
    }

    /**
     * The branches input: the text is split on commas, trimmed and emptied
     * pieces dropped; nothing else changes.
     */
    method EditBranches(text: string)
      modifies this
      ensures config == old(config).(branches := ParseCommaList(text))
      ensures IsListWords(config.branches)
      ensures SingleLineFields(old(config)) && '\n' !in text ==> SingleLineFields(config)
    {
      if '\n' !in text {
        ParseCommaListSingleLine(text);
      }
      config := config.(branches := ParseCommaList(text));
    }
  }
}
