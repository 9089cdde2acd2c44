# kube-applier, modelled in Dafny

kube-applier keeps a Kubernetes cluster in step with a Git repository.
Each run:

- applies every target directory with `kubectl apply`;
- reads each target's per-Namespace policy from three annotations on its Namespace:
  `kube-applier.io/enabled`, `kube-applier.io/dry-run` and `kube-applier.io/prune`;
- reports the outcomes as Prometheus metrics.

This project models three pieces of that system and proves what they do.

- **The batch run** (`run.dfy`, module `Run`): `BatchApplier.Apply`.
  - It makes one ordered pass over the targets.
  - For each target it looks up the annotations of the target's Namespace, which is the last element of its path.
  - It skips a Namespace that is disabled or carries an unknown enabled value.
  - Otherwise it calls `Apply`, with dry-run on when the run asks for it or the annotation does.
  - It records the attempt as a success or a failure, and reports it to the success metric.
  - The kube client is an oracle. The run returns the successes, the failures and the trace of the calls it made.
  - `BatchApplier.Apply` is proved against left-recursive specification functions (`Successes`, `Failures`, `Trace`). The properties of a run are proved about those functions.
- **The test runs** (`scenarios.dfy`, module `BatchScenarios`): each test case of `run/batch_applier_test.go` is restated as a lemma about the model. Each lemma states the successes, the failures and the exact call order that the test's mock expectations fix.
- **kubectl commands** (`kube.dfy`, module `Kube`):
  - the prune whitelist;
  - the apply argument vector: it is built step by step as the source builds it, read back by a parser, and joined into the returned command string;
  - the namespace lookups;
  - the extraction of the annotation triple;
  - the dispatch of `NamespaceAnnotationsBatch` and the map it builds.
  - Process execution and JSON decoding are oracles carried by the `Kubectl` datatype.
- **Metrics** (`metrics.dfy`, module `Metrics`):
  - `parseKubectlOutput`, with its out-of-range panic modelled as an explicit outcome;
  - a `Prometheus` class whose counter and gauge vectors are maps from label tuples;
  - the exit-code counter, the success counter and the result-summary gauges.
- **Library support**:
  - Go's `filepath.Base` (`filepath.dfy`), in full for '/' separators: `""` gives `"."`, trailing slashes are ignored, and all slashes gives `"/"`;
  - `strings.Split` and `strings.Join` on one-character separators (`strings.dfy`);
  - `strconv.Itoa` and `strconv.FormatBool` (`strconv.dfy`);
  - an `Option`/`Result` pair (`wrappers.dfy`).

The source of `BatchApplier.Apply` (run/batch_applier.go) is not part of this model. The applier is modelled from what its tests demand:

- Per-target lookup: the tests expect one singular `NamespaceAnnotations` call per target, interleaved with `Apply` and the success metric (run/batch_applier_test.go:54-64), so `NamespaceAnnotationsBatch` is not used by the run.
- Prune: every test expects prune on with the prune annotation unset (run/batch_applier_test.go:56, 348); the model also turns prune on when the annotation is "true".
- Cases the tests do not reach follow one of the choices listed under "Left out".

## Model

| member | source | states |
|---|---|---|
| Run.Resolve | run/batch_applier_test.go:289-330 | an enabled value other than absent, "true" or "false" is a policy error; otherwise the target is enabled unless the value is "false", dry-run is the run flag or annotation "true", and prune is on when the prune annotation is unset or "true" |
| Run.BatchApplier.StepFor | run/batch_applier_test.go:54-64 | a target makes one call exactly when it is skipped; otherwise it makes three, and its attempt carries its own path (what the calls are is in Run.StepShape) |
| Run.BatchApplier.Successes | run/batch_applier_test.go:144-147 | a run never has more successes than targets |
| Run.BatchApplier.Failures | run/batch_applier_test.go:148-151 | a run never has more failures than targets |
| Run.BatchApplier.Trace | run/batch_applier_test.go:54-64 | a run over n targets makes at least n and at most 3n calls |
| Run.BatchApplier.ApplyOne | run/batch_applier_test.go:54-57 | one target's outcome and calls are exactly those its specification `StepFor` gives: lookup, then on an enabled Namespace the Apply and the success metric |
| Run.BatchApplier.Apply | run/batch_applier_test.go:367-372 | the loop returns the successes, failures and call trace that the specification functions give for the whole list; an empty list gives no attempt and no call |
| Run.StepShape | run/batch_applier_test.go:54-64 | a target makes one or three calls: the lookup of its last path element, then (exactly when not skipped) the Apply of its full path in that namespace, forced to dry run by a run-level dry run, and the success metric of its path with the Apply's outcome; a success has empty error text |
| Run.StepOutcome | run/batch_applier_test.go:128-151 | a target is skipped exactly when its lookup fails, its enabled value is unknown or its Namespace is disabled; otherwise its Apply uses the resolved dry-run and prune settings and the kustomization check, and it is a success exactly when the Apply returns no error; the attempt keeps the command and output, with empty error text on success and the error's text on failure |
| Run.SuccessesSplit | run/batch_applier_test.go:128-147 | the successes of a run over xs + ys are those over xs followed by those over ys: one target's failure never affects another |
| Run.FailuresSplit | run/batch_applier_test.go:128-151 | the same decomposition for the failures |
| Run.TraceSplit | run/batch_applier_test.go:130-143 | the same decomposition for the call trace |
| Run.RunOfOne | run/batch_applier_test.go:54-57 | a run over one target holds that target's attempt in the list of its outcome and its calls alone |
| Run.AttemptCount | run/batch_applier_test.go:144-151 | the two lists together hold exactly one attempt per target that is not skipped, and no more attempts than targets |
| Run.AttemptsComeFromTargets | run/batch_applier_test.go:347-353 | every success and failure is the outcome of one of the targets, carrying that target's command, output and error text |
| Run.SuccessesHaveNoError | run/batch_applier_test.go:65-69 | every success has empty error text |
| Run.SkippedTargetsAbsent | run/batch_applier_test.go:289-311 | a skipped target is in neither list |
| Run.SuccessesInTargetOrder | run/batch_applier_test.go:144-147 | the paths of the successes are a subsequence of the targets: input order is kept |
| Run.FailuresInTargetOrder | run/batch_applier_test.go:148-151 | the paths of the failures are a subsequence of the targets |
| Run.Namespaces | run/batch_applier_test.go:212-221 | the Namespace of each target is its path's last element, one per target |
| Run.OneLookupPerTarget | run/batch_applier_test.go:355-357 | the lookups of a run are exactly one per target, for its Namespace, in target order |
| Run.TraceInOrder | run/batch_applier_test.go:54-64 | in the whole trace every Apply directly follows the lookup of its namespace (its path's last element) and is directly followed by the success metric of its path, and every metric directly follows the Apply of its path |
| Run.OneApplyPerAttempt | run/batch_applier_test.go:347-353 | the number of Apply calls equals the number of attempts in the two lists |
| Run.RunDryRunForcesDryRun | run/batch_applier_test.go:250-262 | with the run-level dry run set, every Apply of the run is a dry run, whatever the annotations say |
| BatchScenarios.AppliedStep | run/batch_applier_test.go:347-353 | an enabled target whose Apply succeeds or fails with the test's mock answers gives the attempt ("cmd f", "output f", "" or "error f") and the calls lookup, Apply with prune on and kustomize off, metric |
| BatchScenarios.SkippedStep | run/batch_applier_test.go:355-357 | a target whose Namespace is disabled or carries an unknown enabled value makes only its lookup |
| BatchScenarios.EmptyList | run/batch_applier_test.go:31-41 | an empty list gives two empty lists and no calls |
| BatchScenarios.AllSucceed | run/batch_applier_test.go:52-69 | three enabled targets that all succeed (with or without a run-level dry run, as at lines 172-189) give three successes in order, no failure, and the calls lookup, Apply, metric per target in order |
| BatchScenarios.AllFail | run/batch_applier_test.go:90-107 | three failing targets give three failures in order, no success, and every target is still applied |
| BatchScenarios.Partial | run/batch_applier_test.go:128-151 | alternating outcomes over four targets give the first and third as successes and the second and fourth as failures, with all four applied in order |
| BatchScenarios.DryRunNamespaces | run/batch_applier_test.go:211-228 | annotated dry-run Namespaces are applied as dry runs under the full target path and the last-element namespace, while the unannotated one follows the run's setting (also lines 250-267) |
| BatchScenarios.RepoTargets | run/batch_applier_test.go:212-215 | "repo/file1" and "repo/file3" belong to Namespaces "file1" and "file3" |
| BatchScenarios.SkippedNamespaces | run/batch_applier_test.go:289-300 | with the first and third Namespaces disabled, or carrying "unsupportedOption" (lines 322-333), only the second target is applied and reported; the others are looked up and nothing more |
| Kube.PruneWhitelistFacts | kube/client.go:34-47 | the whitelist has eleven distinct kinds and no Secret |
| Kube.AnnotationsRoundTrip | kube/client.go:187-189 | each field of the triple is read from its own annotation key |
| Kube.AnnotationsIgnoreOtherKeys | kube/client.go:187-189 | annotations other than the three kube-applier keys never change the triple |
| Kube.NoAnnotationsReadEmpty | kube/client.go:187-189 | a missing annotation reads as the empty string |
| Kube.ItemsMapKeys | kube/client.go:228-234 | the keys of the batch map are exactly the names of the returned items |
| Kube.ItemsMapLastWins | kube/client.go:228-234 | under each name is the triple of the last item of that name |
| Kube.AnnotationsMap | kube/client.go:228-234 | the loop builds exactly the map of the items |
| Kube.WhitelistFlagsStep | kube/client.go:125-127 | each loop iteration adds the flag of the next kind after those of the kinds before it |
| Kube.AppendWhitelistFlags | kube/client.go:125-127 | the loop appends one --prune-whitelist flag per kind, in list order |
| Kube.AppendPruneFlags | kube/client.go:122-128 | prune appends --prune, --all, then the whitelist flags |
| Kube.BuildApplyArgs | kube/client.go:114-132 | the argument vector grown as the source grows it is the head, the prune flags when pruning, and the kubeconfig flag when a server is set |
| Kube.PruneFlagsLength | kube/client.go:122-128 | pruning adds thirteen tokens |
| Kube.PruneFlagsLayout | kube/client.go:122-128 | the prune flags are --prune, --all, then the flags of the eleven kinds in list order |
| Kube.ParseDryRunFlagRoundTrip | kube/client.go:117 | the dry-run flag reads back as the dry-run setting |
| Kube.ParseApplyHead | kube/client.go:116-120 | the head of an apply reads back as its path, namespace, dry-run and kustomize setting, for any tail the tail parser reads |
| Kube.ParseApplyTailRoundTrip | kube/client.go:122-132 | the trailing flags read back as the prune setting and whether a server is configured |
| Kube.ApplyArgvRoundTrip | kube/client.go:113-132 | parsing the apply argument vector gives back path, namespace, dry-run, prune, kustomize and whether a server is set |
| Kube.ApplyArgvInjective | kube/client.go:113-132 | distinct inputs give distinct argument vectors |
| Kube.ApplyArgvLayout | kube/client.go:114-132 | the vector starts kubectl apply --server-dry-run=<b>, then -k path or -R -f path, then -n namespace; the prune flags follow when pruning; the kubeconfig flag is last exactly when a server is set; its length is fixed by these choices |
| Kube.ApplyArgv | kube/client.go:114-132 | the vector has at least seven tokens, starts kubectl apply, and ends with the kubeconfig flag when a server is set |
| Kube.NamespaceArgs | kube/client.go:169-172 | the singular lookup is kubectl get namespace <name> -o json, followed by the kubeconfig flag exactly when a server is set |
| Kube.NamespaceListArgs | kube/client.go:207-211 | the batch lookup is kubectl get namespace -o json, then every name in order, followed by the kubeconfig flag exactly when a server is set |
| Kube.AnnotationsFrom | kube/client.go:187-189 | each of the enabled, dry-run and prune fields is its annotation's value when the key is present and "" when it is absent |
| Kube.ItemsMap | kube/client.go:228-234 | every item's name is a key of the map, and the map has no more entries than there are items |
| Kube.ExitCodeCounts | kube/client.go:139-145 | no error counts exit code 0 under the success label, an exit error counts its own code under the error label, each by exactly one with no other counter changed; any other error changes nothing |
| Kube.ExitCodeLabelsAgree | kube/client.go:139-145 | counting an exit code under a path or under its namespace (the path's last element) gives the same label |
| Kube.NamespaceLookup | kube/client.go:167-192 | a run error is returned as is, and so is a decode error; the result has no error exactly when the run and the decode both succeed, and then it is the triple of the decoded annotations; on any error the triple is empty |
| Kube.ApplyCommandStringRoundTrip | kube/client.go:136 | when path and namespace hold no space, the command string splits on spaces into exactly the vector that was run |
| Kube.PruneFlagsHaveNoSpaces | kube/client.go:34-47 | no prune flag holds a space |
| Kube.Client.constructor | kube/client.go:66-70 | a client holds its server, label and metrics |
| Kube.Client.Apply | kube/client.go:113-148 | runs the vector of ApplyArgv with combined output and returns its joined command string and output on success and on failure; an exit error counts its code under the namespace, a success counts 0 under the path, any other error counts nothing |
| Kube.Client.NamespaceAnnotations | kube/client.go:167-192 | runs the lookup command and returns the annotation triple of the decoded Namespace; a run or decode error gives the empty triple with the error; the exit code is counted under the namespace |
| Kube.Client.NamespaceAnnotationsBatch | kube/client.go:195-238 | no name: empty map, no error, no metric; one name: the singular lookup's triple under exactly that name; more: one list command (stdout only) with all names, exit code counted under "", and the map of the decoded items; any error gives the empty map |
| Metrics.ParseLine | metrics/prometheus.go:133-143 | a line without a space is dropped; one whose first piece has no '/' panics (out of range); a kept result's name has no '/' and its action no space |
| Metrics.ParseLineFields | metrics/prometheus.go:138-143 | a kept line starts with Type "/" Name before its first space, Type running to the first '/' and Name to the next '/' or the space; Action is the text after the first space up to the next space or the end |
| Metrics.ParseLines | metrics/prometheus.go:132-146 | there are never more results than lines; the parse panics exactly when some line does, and then at the first such line |
| Metrics.ParseLinesStep | metrics/prometheus.go:132-144 | one more line adds its result, adds nothing, or panics at its index |
| Metrics.ParseLinesStopsAt | metrics/prometheus.go:138-141 | the first line that panics decides the outcome |
| Metrics.ParseKubectlOutput | metrics/prometheus.go:128-147 | the loop over the lines of the output gives the line-by-line parse of the output split on newlines |
| Metrics.ParseLinesAppend | metrics/prometheus.go:132-144 | results follow line order: parsing two runs of lines concatenates their results |
| Metrics.ParseRenderedLine | metrics/prometheus.go:138-143 | a printed "type/name action" line reads back as its Result |
| Metrics.ParseRenderedLines | metrics/prometheus.go:132-144 | printed lines read back as their Results, in order |
| Metrics.ParseRoundTrip | metrics/prometheus.go:128-147 | printing Results one per line and parsing the text gives the Results back |
| Metrics.Inc | metrics/prometheus.go:89 | a counter increment raises exactly one entry by one |
| Metrics.SuccessLabelsIgnoreDirectory | metrics/prometheus.go:93-97 | "repo/file1" and "file1" are counted under one key, whose namespace is the file name |
| Metrics.SuccessLabelsDistinguishOutcome | metrics/prometheus.go:93-97 | successes and failures of one file use different keys |
| Metrics.ExitCodeLabelsDistinguishCodes | metrics/prometheus.go:85-90 | distinct exit codes of one file use different keys |
| Metrics.ExitCodeLabelsFor | metrics/prometheus.go:86-88 | the namespace label is the file's base, and the exit-code label is a decimal numeral, with an optional '-' and no leading zeros, that reads back as the code |
| Metrics.SuccessLabelsFor | metrics/prometheus.go:94-95 | the namespace label is the file's base, and the success label is "true" exactly when the run succeeded |
| Metrics.SummaryLabelsFor | metrics/prometheus.go:113-118 | the namespace label is the base of the path; type, name and action are those of the parsed result |
| Metrics.Prometheus.constructor | metrics/prometheus.go:23-28 | a new set of metric vectors is empty |
| Metrics.Prometheus.UpdateKubectlExitCodeCount | metrics/prometheus.go:85-90 | increments only the counter keyed by the file's base name and the decimal exit code |
| Metrics.Prometheus.UpdateNamespaceSuccess | metrics/prometheus.go:93-97 | increments only the counter keyed by the file's base name and "true" or "false" |
| Metrics.Prometheus.SetResults | metrics/prometheus.go:112-119 | sets to 1 the gauge of each result of one output, keeping every earlier gauge at 1 |
| Metrics.Prometheus.UpdateResultSummary | metrics/prometheus.go:107-121 | the new gauge map holds exactly the tuples (base of path, type, name, action) parsed from the outputs, each set to 1, and no gauge from before the call |
| Filepath.TrimTrailingSlashes | metrics/prometheus.go:87 | the result is a prefix of the path that is empty or does not end in '/' |
| Filepath.TrimmedSuffixIsSlashes | metrics/prometheus.go:87 | every character trimmed off is a '/' |
| Filepath.Base | metrics/prometheus.go:87 | the empty path gives "." and a path of slashes only gives "/" |
| Filepath.BaseIsLastElement | metrics/prometheus.go:87 | otherwise the base is the non-empty, '/'-free final part of the trimmed path, preceded by a '/' unless it is the whole trimmed path |
| Filepath.LastSlash | metrics/prometheus.go:87 | the index of the last '/', or -1 when there is none |
| Filepath.BaseOfName | metrics/prometheus.go:95 | a non-empty name without '/' is its own base |
| Filepath.BaseOfJoin | metrics/prometheus.go:95 | any directory prefix is dropped by the base |
| Filepath.BaseIsElement | metrics/prometheus.go:87 | a base is never empty and, unless it is "/", has no '/' |
| Filepath.BaseIdempotent | metrics/prometheus.go:87 | taking the base of a base changes nothing |
| Strconv.DecimalDigits | metrics/prometheus.go:88 | at least one decimal digit, with a leading '0' only for zero |
| Strconv.Itoa | metrics/prometheus.go:88 | the label is non-empty, starts with '-' exactly when the code is negative, and has no leading zero except for "0" itself |
| Strconv.FormatBool | metrics/prometheus.go:95 | the label is "true" exactly when the value is true, and "false" otherwise |
| Strconv.ItoaRoundTrip | metrics/prometheus.go:88 | reading the decimal label back gives the exit code |
| Strconv.CanonicalDigits | metrics/prometheus.go:88 | a digit string without leading zeros is the DecimalDigits of its value |
| Strconv.ItoaUnique | metrics/prometheus.go:88 | a decimal numeral with optional '-' and no leading zeros that reads back as a code is that code's Itoa, so the label's spelling is fixed |
| Strconv.ItoaInjective | metrics/prometheus.go:88 | distinct exit codes give distinct labels |
| Strings.Split | metrics/prometheus.go:129 | split always gives at least one piece, exactly one when there is no separator, and no piece contains the separator |
| Strings.SplitHead | metrics/prometheus.go:133 | the first piece is a prefix of the text, and all of it when it is the only piece |
| Strings.SplitAfterHead | metrics/prometheus.go:133 | with two pieces or more, a separator follows the first piece and the other pieces are the split of the text after it |
| Strings.FirstTwoPieces | metrics/prometheus.go:133 | with two pieces or more, the second is the text between the first and the next separator |
| Strings.Join | kube/client.go:136 | the joined string starts with the first part |
| Strings.SplitJoin | kube/client.go:136 | joining separator-free parts and splitting again gives the parts back |
| Strings.JoinSplit | kube/client.go:136 | splitting and joining again gives the original string |

## Left out

- Client.Configure (kube/client.go:72-106): it writes the kubeconfig file from the service-account token and a template, which is file I/O.
- Running kubectl (`exec.Command`, `CombinedOutput`, `Output`) is the oracle `Kubectl.run`. It returns the output and an optional error, and the `Capture` argument says which streams were asked for. The content of a stream is not modelled.
- `json.Unmarshal` of kubectl's answers is the pair of oracles `decodeNamespace` and `decodeNamespaceList`. Each gives the decoded (name, annotations) records or an error.
- Prometheus `Init` and registration (metrics/prometheus.go:30-82) are left out: they are library set-up. The constructor gives empty metric vectors in their place.
- `UpdateRunLatency` (metrics/prometheus.go:99-104) is left out: `PrometheusInterface` declares it, but nothing in the modelled code calls it, and it observes a float64 in a histogram.
- metrics/mock_prometheus.go, gomock, `log.InitLogger` and logging have no logic to model. In their place, the batch records its client and metric calls as a trace of `Call` values, and the lemmas state the order the mocks enforce.
- Run.BatchApplier.Apply records its UpdateNamespaceSuccess calls in the trace instead of calling a `Prometheus` object.
- Run.BatchApplier: the kustomization-file check is the oracle `kustomized`, because detecting `kustomization.yaml` on the file system is not part of this model. The tests always expect kustomize off.
- Run.Resolve: three cases are not reached by the tests, and the model makes these choices:
  - an empty enabled value counts as enabled;
  - a prune annotation other than "" or "true" turns prune off;
  - the dry-run annotation is honoured only as "true".
- Run.BatchApplier.StepFor: an error from the annotation lookup skips the target with no Apply and no metric. No test covers it.
- Run.BatchApplier.Apply: Namespaces shared by several targets are looked up once per target, as in the tests. No cache is modelled.
- BatchScenarios: the scenario lemmas are stated for any target names without '/' (and for targets whose base is the Namespace). They cover the tests' "file1" to "file4" by instantiation, and RepoTargets gives the "repo/..." case.
- Metrics.Prometheus.UpdateResultSummary: requires every output to parse. Otherwise the source panics, with index out of range, on a line whose first piece has no '/'. The panic itself is the IndexOutOfRange outcome of Metrics.ParseKubectlOutput.
- Metrics.Prometheus.UpdateResultSummary: visits the outputs in an arbitrary order, as Go's map iteration does. The resulting gauges do not depend on that order.
- Gauges are modelled as a map holding the set values, with the reset as the empty map. Counters are maps to naturals.
- Exit codes are unbounded integers: Go's `int` does not wrap for the values an exit code can take.
- `Result.Type` is named `kind`, because `type` is a Dafny keyword.
