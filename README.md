# Infrastructure-as-code text generators, modelled in Dafny

InfraGenie turns a form's configuration record into infrastructure-as-code
text. This project models its four generators:

- a GitHub Actions workflow;
- an Ansible playbook;
- a Terraform file for one EC2 instance;
- a Dockerfile with a matching `docker-compose.yml`.

It also models the small record updates that the dialogs apply to their
lists: checkbox toggles and comma-separated list inputs.

Every generator is a template literal in the original. Here each one is the
line-break join (`Unlines`) of a sequence of lines that a function builds
block by block. Properties are stated on what a reader of the document sees:

- `Lines(doc)`, the document's `split('\n')`;
- `FieldOf(lines, prefix, suffix)`, the value of the first line of that shape;
- `After(lines, marker)`, the lines after the first copy of a marker line;
- the list items, job keys, step names and instruction keywords read back
  from those lines.

Rendering lemmas tie the line view to the template's own expressions:
`map(...).join(...)`, `split('\n').join(' && \\\n    ')`,
`split(' ').join('", "')` and `filter(Boolean).join(', ')`.

Modules:

- `Text`: strings as `seq<char>`; `split`/`join` on one character; line
  splitting; JavaScript's `trim`; the comma-list parse; the checkbox toggle;
  read-back functions over lines.
- `Pipeline`: `generateGitHubActionsYAML`, plus the `PipelineEditor` class.
  Its `config` field is the dialog's state, and its methods are the trigger
  checkbox handler and the branches input.
- `Playbook`: `generateAnsiblePlaybook`, plus the `PlaybookEditor` class with
  the package and service toggles and the users input.
- `Terraform`: `generateTerraformCode` and the identifier sanitisation.
- `Container`: `generateDockerfile` and `generateDockerCompose`.

Values go verbatim between `"`, unescaped (`RegionVerbatim`,
`AttributesVerbatim`, `CmdExecForm`). The sanitiser keeps a leading digit,
so a label may start with one (`SanitizeKeepsLeadingDigit`).

## Model

| member | source | states |
|---|---|---|
| Text.SplitOn | src/components/DockerModal.tsx:44 | `split` on one character gives one more piece than there are separators, and no piece holds the separator |
| Text.JoinSplitIsReplace | src/components/DockerModal.tsx:44 | joining the pieces of `s.split(c)` with `sep` replaces every `c` in `s` by `sep` |
| Text.JoinSplit | src/components/DockerModal.tsx:53 | `s.split(c).join(c)` gives `s` back for every string |
| Text.SplitJoin | src/components/CICDModal.tsx:254-255 | `xs.join(c).split(c)` gives `xs` back when no element holds `c` |
| Text.LineCount | src/components/CodePreview.tsx:103 | the preview's line count is the number of line breaks plus one, so at least one |
| Text.Trim | src/components/CICDModal.tsx:255 | `trim()` is the input with its maximal leading run of JavaScript white space and a trailing run of white space cut off, and what remains neither starts nor ends with white space |
| Text.Without | src/components/CICDModal.tsx:188 | `filter(t => t !== x)` leaves no copy of `x` and keeps every other value the same number of times |
| Text.WithoutAppend | src/components/CICDModal.tsx:188 | filtering distributes over concatenation, so the remaining values keep their order |
| Text.ToggleEffect | src/components/CICDModal.tsx:184-190 | checking appends the value at the end and keeps the earlier list; unchecking removes every copy and keeps the count of every other value |
| Text.ToggleOnOff | src/components/CICDModal.tsx:184-190 | checking, then unchecking, a value that was not in the list restores the list |
| Text.NonEmpty | src/components/CICDModal.tsx:255 | `filter(b => b)` on strings is `filter(b => b !== "")`: it keeps every non-empty element, in order |
| Text.ParseCommaList | src/components/CICDModal.tsx:255 | the comma-list parse yields only non-empty, trimmed words with no comma |
| Text.ParseCommaListSegment | src/components/CICDModal.tsx:255 | text without a comma parses to its trimmed text, or to nothing when that is empty |
| Text.ParseCommaListAtComma | src/components/AnsibleModal.tsx:251 | text split at a comma parses to the parse of the part before followed by the parse of the part after |
| Text.ParseCommaListSkipsEmpty | src/components/AnsibleModal.tsx:251 | an empty segment between two commas adds no element |
| Text.LeadingComma | src/components/CICDModal.tsx:255 | a comma at the front of the text adds no element |
| Text.ParseShownList | src/components/CICDModal.tsx:254-255 | a list of such words, shown as `join(", ")` and parsed back, is the same list |
| Text.ParseCommaListStable | src/components/AnsibleModal.tsx:250-251 | parsing the displayed text of a parsed list changes nothing |
| Text.ParseCommaListSingleLine | src/components/AnsibleModal.tsx:251 | a list parsed from one line of text holds single-line words |
| Terraform.Sanitize | src/components/TerraformModal.tsx:42 | the label has the name's length, only letters, digits and `_`, every letter and digit in place, and `_` at every other position |
| Terraform.SanitizeIdempotent | src/components/TerraformModal.tsx:42 | sanitising twice is sanitising once |
| Terraform.SanitizeFixesLabels | src/components/TerraformModal.tsx:42 | sanitising leaves a string unchanged exactly when it is already over `[A-Za-z0-9_]` |
| Terraform.SanitizeIsCharwise | src/components/TerraformModal.tsx:42 | the sanitised name is the character-wise replacement of every non-alphanumeric character by `_` |
| Terraform.SanitizeExample | src/components/TerraformModal.tsx:42 | `My Server!!` becomes `My_Server__` |
| Terraform.SanitizeKeepsLeadingDigit | src/components/TerraformModal.tsx:42 | a leading digit is kept, so a label can start with a digit |
| Terraform.TerraformDocumentLines | src/components/TerraformModal.tsx:28-58 | for single-line fields, the document's lines are the four blocks' lines in template order |
| Terraform.ResourceLabelMatchesReference | src/components/TerraformModal.tsx:42-57 | read back from the document, the declared resource label and the label in the output reference are the same token, the sanitised instance name |
| Terraform.DeclaredLabel | src/components/TerraformModal.tsx:42 | the first `resource "aws_instance" "…" {` line carries the sanitised name |
| Terraform.ReferencedLabel | src/components/TerraformModal.tsx:56-57 | the first `value = aws_instance.….public_ip` line carries the sanitised name |
| Terraform.NameTagIsRawName | src/components/TerraformModal.tsx:50 | the `Name` tag holds the raw, unsanitised instance name |
| Terraform.RegionVerbatim | src/components/TerraformModal.tsx:38-40 | the first `region = "…"` line holds the region exactly as entered, unescaped |
| Terraform.AttributesVerbatim | src/components/TerraformModal.tsx:43-47 | ami, instance type and key pair are read back verbatim between quotes; the security group is the one quoted element of a list |
| Terraform.AmiField | src/components/TerraformModal.tsx:43 | the first `ami` line of the model's lines holds the AMI id |
| Terraform.InstanceTypeField | src/components/TerraformModal.tsx:44 | the first `instance_type` line holds the instance type |
| Terraform.KeyNameField | src/components/TerraformModal.tsx:45 | the first `key_name` line holds the key pair |
| Terraform.SecurityGroupsField | src/components/TerraformModal.tsx:47 | the security group list holds the one quoted group |
| Terraform.ProviderIgnored | src/components/TerraformModal.tsx:38 | changing the provider field does not change the document: the provider is always `aws` |
| Pipeline.TriggerEntryRendering | src/components/CICDModal.tsx:38-42 | one trigger's lines are its `map` callback text after the two-space indent |
| Pipeline.TriggersRendering | src/components/CICDModal.tsx:36-43 | the trigger lines render as `"  " + triggers.map(...).join("\n  ")`: every trigger in input order, `push`/`pull_request` with the quoted branch list, other triggers bare |
| Pipeline.TriggerLinesIndented | src/components/CICDModal.tsx:37 | every line under `on:` starts with the indent |
| Pipeline.BuildNeeds | src/components/CICDModal.tsx:102 | a job is in the `needs` list exactly when it is lint, test or security and its toggle is set |
| Pipeline.BuildNeedsOrder | src/components/CICDModal.tsx:102 | the enabled jobs come in the order lint, test, security, none twice |
| Pipeline.BuildNeedsCommas | src/components/CICDModal.tsx:102 | the list text is empty exactly when no job is enabled, and otherwise has one comma fewer than jobs |
| Pipeline.BuildNeedsRoundTrip | src/components/CICDModal.tsx:102 | parsing the `needs` text as a comma list gives the enabled jobs back |
| Pipeline.SetupNodeFacts | src/components/CICDModal.tsx:52-56 | the Node.js setup step holds `cache: 'npm'` once when caching is on and not at all when it is off |
| Pipeline.LintJobFacts | src/components/CICDModal.tsx:46-63 | the lint job has the one key `lint`, single lines, and the cache line once exactly when caching is on |
| Pipeline.TestJobFacts | src/components/CICDModal.tsx:64-86 | the test job has the one key `test`, single lines, and the cache line once exactly when caching is on |
| Pipeline.SecurityJobFacts | src/components/CICDModal.tsx:87-99 | the security job has the one key `security`, single lines and no cache line |
| Pipeline.BuildJobFacts | src/components/CICDModal.tsx:100-123 | the build job has the one key `build`, single lines, and the cache line once exactly when caching is on |
| Pipeline.DeployJobFacts | src/components/CICDModal.tsx:125-166 | the deploy job has the one key `deploy`, single lines and no cache line, whatever the target |
| Pipeline.OptionalJobsFacts | src/components/CICDModal.tsx:46-99 | the optional jobs' keys are the `needs` list itself, and they hold one cache line per lint or test job when caching is on |
| Pipeline.JobLinesFacts | src/components/CICDModal.tsx:45-166 | the jobs section's keys are the enabled optional jobs, then `build` and `deploy`; its cache-line count follows caching |
| Pipeline.WorkflowDocumentLines | src/components/CICDModal.tsx:34-166 | for single-line fields, the workflow's lines are the model's lines, and the lines after `jobs:` are the job lines |
| Pipeline.JobOrder | src/components/CICDModal.tsx:46-125 | read back from the document, `lint`, `test` and `security` appear exactly when their toggles are set, then `build` and `deploy` always, in that order |
| Pipeline.CacheLineCount | src/components/CICDModal.tsx:55-111 | `cache: 'npm'` appears in the jobs section once per lint, test and build job present when caching is on, and never when it is off |
| Pipeline.CacheLineInDocument | src/components/CICDModal.tsx:34-111 | with the dialog's checkbox triggers, the same count holds for the whole workflow |
| Pipeline.TestNeedsLint | src/components/CICDModal.tsx:64-67 | the test job's second line is `needs: lint` when linting runs and the bare indent otherwise |
| Pipeline.BuildNeedsLine | src/components/CICDModal.tsx:100-103 | the build job's lines read back from the document begin with `runs-on`, then `needs:` with exactly the enabled jobs among lint, test and security joined by `, ` in brackets, then `steps:` |
| Pipeline.DeploySettings | src/components/CICDModal.tsx:125-130 | the deploy job always needs `build`, runs only on `refs/heads/main` and targets `production` |
| Pipeline.DeploySteps | src/components/CICDModal.tsx:130-166 | the deploy job's steps are checkout, download, then the target's steps |
| Pipeline.TargetSteps | src/components/CICDModal.tsx:140-166 | the target's lines hold exactly the named steps of that target, and none for any other value |
| Pipeline.DeployTargetExclusive | src/components/CICDModal.tsx:140-166 | the Vercel, Netlify and AWS steps each appear exactly when the target names them; any other target adds no step |
| Pipeline.PipelineEditor.constructor | src/components/CICDModal.tsx:19-31 | the dialog opens with the default record |
| Pipeline.PipelineEditor.ChangeTrigger | src/components/CICDModal.tsx:184-190 | only `triggers` changes: checking appends the trigger, unchecking removes every copy; single-line fields stay single-line, and a checkbox trigger keeps every trigger among the four checkboxes |
| Pipeline.PipelineEditor.EditBranches | src/components/CICDModal.tsx:255 | only `branches` changes, to the parsed comma list of trimmed non-empty words |
| Playbook.ItemLinesAreItems | src/components/AnsibleModal.tsx:37 | the item lines are `xs.map(x => "      - " + x)` |
| Playbook.ListRendering | src/components/AnsibleModal.tsx:37-43 | a list expansion renders as the template's `map(...).join('\n')`, the empty text for an empty list |
| Playbook.ItemsReadBack | src/components/AnsibleModal.tsx:37 | the item lines of a list read back as the list itself |
| Playbook.CacheRendering | src/components/AnsibleModal.tsx:47 | the cache task body renders as the template's ternary after the six-space indent |
| Playbook.PlaybookDocumentLines | src/components/AnsibleModal.tsx:29-86 | for single-line fields, the playbook's lines are the model's lines, and the lines after `tasks:` are the task section |
| Playbook.VarsItems | src/components/AnsibleModal.tsx:36-43 | the document's list items are the packages, then the services, then the users, in order, duplicates kept |
| Playbook.ServicesItems | src/components/AnsibleModal.tsx:39-43 | below `services_to_enable:` come the services, then the users |
| Playbook.UsersItems | src/components/AnsibleModal.tsx:42-43 | below `users_to_create:` come the users alone |
| Playbook.BecomeInLines | src/components/AnsibleModal.tsx:33 | the fourth line is the `become` slot, `become: yes` occurs only there, and `become: no` never occurs |
| Playbook.BecomeIffSet | src/components/AnsibleModal.tsx:33 | `become: yes` is in the document exactly when `become` is set; otherwise the fourth line is the bare indent; `become: no` never occurs |
| Playbook.LoopsInTasks | src/components/AnsibleModal.tsx:54-69 | the task section loops over the three list variables |
| Playbook.TasksIndependentOfLists | src/components/AnsibleModal.tsx:50-69 | two records that agree on `updateCache` have the same tasks; the tasks hold the three `loop` lines and no list item |
| Playbook.AfterCacheName | src/components/AnsibleModal.tsx:46-48 | after the cache task's name come its body, the Debian guard and the later tasks |
| Playbook.CacheTaskBody | src/components/AnsibleModal.tsx:46-48 | the cache task is the `apt` update block when `updateCache` is set and `# Skipped` otherwise, followed by the same `when:` line either way |
| Playbook.FirewallAndHandlersLast | src/components/AnsibleModal.tsx:71-86 | every playbook ends with the fixed firewall task and the two handlers |
| Playbook.PlaybookEditor.constructor | src/components/AnsibleModal.tsx:19-27 | the dialog opens with the default record |
| Playbook.PlaybookEditor.ChangePackage | src/components/AnsibleModal.tsx:104-110 | only `packages` changes: checking appends, unchecking removes every copy; single-line fields stay single-line |
| Playbook.PlaybookEditor.ChangeService | src/components/AnsibleModal.tsx:112-118 | only `services` changes: checking appends, unchecking removes every copy; single-line fields stay single-line |
| Playbook.PlaybookEditor.EditUsers | src/components/AnsibleModal.tsx:251 | only `users` changes, to the parsed comma list of trimmed non-empty words |
| Container.Fused | src/components/DockerModal.tsx:44 | the fused RUN lines are one line per command |
| Container.FusedAt | src/components/DockerModal.tsx:44 | line `i` is command `i` after `RUN ` or the indent, with ` && \` on every line but the last |
| Container.FusedRendering | src/components/DockerModal.tsx:44 | the fused lines render as the commands joined by `" && \\\n    "` |
| Container.CountCharReplace | src/components/DockerModal.tsx:44 | replacing `c` by `t` leaves as many `c` as `s` had times the count in `t` |
| Container.RunRendering | src/components/DockerModal.tsx:44 | the RUN lines render as the template's expression, which replaces every line break by the separator, so `k` commands give exactly `k - 1` line breaks |
| Container.RunLinesShape | src/components/DockerModal.tsx:44 | the RUN instruction has one line per command, each continued with ` && \` but the last |
| Container.RunSingleLines | src/components/DockerModal.tsx:44 | whatever the text area holds, the RUN instruction's lines are the fused lines |
| Container.SingleCommand | src/components/DockerModal.tsx:44 | a single command is emitted as typed after `RUN `, with no separator |
| Container.QuotedJoin | src/components/DockerModal.tsx:53 | joining with `", "` between outer quotes quotes every argument |
| Container.CmdExecForm | src/components/DockerModal.tsx:53 | CMD is the exec form of the start command's single-space tokens: one quoted, unescaped argument per token, one more token than spaces, no space in a token, and the tokens joined by spaces give the command back |
| Container.CmdTwoWords | src/components/DockerModal.tsx:53 | two words with one space give two quoted arguments |
| Container.CmdDoubleSpace | src/components/DockerModal.tsx:53 | two spaces in a row give an empty argument, because the split is on one space |
| Container.CmdSingle | src/components/DockerModal.tsx:53 | a single-line start command gives a single-line CMD |
| Container.DockerfileRendering | src/components/DockerModal.tsx:30-54 | the Dockerfile is the eight commented paragraphs joined by blank lines |
| Container.RunParagraph | src/components/DockerModal.tsx:43-44 | the fifth paragraph is the dependencies comment and the template's RUN expression |
| Container.DockerfileDocumentLines | src/components/DockerModal.tsx:30-54 | for single-line input fields, the Dockerfile's lines are the block lines, whatever the build commands hold |
| Container.BlockKeywords | src/components/DockerModal.tsx:31-53 | each paragraph's first instruction has the keyword of the template, in order |
| Container.InstructionOrder | src/components/DockerModal.tsx:31-53 | the instructions read back from the document are FROM, WORKDIR, ENV, COPY, RUN, COPY, EXPOSE, CMD, however many build commands there are |
| Container.DockerfileEndsWithNewline | src/components/DockerModal.tsx:53-54 | the Dockerfile ends with a line break |
| Container.ExposeValue | src/components/DockerModal.tsx:50 | the first `EXPOSE` line publishes the configured port |
| Container.EnvValue | src/components/DockerModal.tsx:38 | the first `ENV` line sets the configured entry |
| Container.ComposeDocumentLines | src/components/DockerModal.tsx:57-83 | for a single-line port and env entry, the Compose file's lines are the model's lines |
| Container.ComposeEndsWithNewline | src/components/DockerModal.tsx:82-83 | the Compose file ends with a line break |
| Container.ScaffoldCommented | src/components/DockerModal.tsx:69-82 | after the app service come the same lines for every record: the database service commented out line by line, then the commented volumes, each line blank or a comment after its indent |
| Container.ComposePortAndEnv | src/components/DockerModal.tsx:63-66 | under `ports:` the app maps the port to itself, and under `environment:` it sets the env entry |
| Container.SharedPortAndEnv | src/components/DockerModal.tsx:38-66 | the port the Dockerfile exposes is the one Compose maps on both sides, and the entry the Dockerfile sets is the one Compose passes |

## Left out

- The dialogs, forms, tabs and previews are left out as user interface. So are the download and copy handlers (`Blob`, object URLs, anchor clicks, clipboard, toasts) and the file names they choose, because they are browser I/O.
- The preview's regular-expression syntax highlighter and its `copied` timer are left out as cosmetic. Only the line count is modelled; the character count is the string's length.
- The contact form (asynchronous submission, `mailto:` link), the dashboard, the footer and the button styling wrapper are outside the generators.
- Strings are sequences of Unicode characters. JavaScript strings are UTF-16 code units, so for a character outside the Basic Multilingual Plane the sanitiser writes two `_` where the model writes one.
- The read-back lemmas assume that every `<input>` field holds one line, because the browser strips line breaks from single-line inputs. The Docker build commands come from a text area and are not restricted.
- Values are not escaped, and YAML, HCL and Dockerfile syntax is not checked: the code does neither, and the model states what it emits.
- Container.SingleCommand: states that one command is emitted unchanged after `RUN `. It does not state that the line holds no `&&`, because a command that itself contains `&&` keeps it.
- Pipeline.CacheLineCount: counts the cache line in the jobs section only. A trigger of free text could render as that line under `on:`; the dialog adds triggers only from its four checkboxes (src/components/CICDModal.tsx:271-279), and under that condition Pipeline.CacheLineInDocument gives the same count for the whole workflow.
- The deploy-target steps (src/components/CICDModal.tsx:140-166) are transcribed line by line. No lemma compares their joined text with the template's three conditionals character by character; they are read back through their step names.
