/**
 * The runs of run/batch_applier_test.go, restated as lemmas about the model. The
 * test's mock client is described by what each expected call returns: the
 * lookup of a Namespace returns its annotations, and the Apply of path `f`
 * returns "cmd f", "output f" and, for a failing path, the error "error f".
 * Each lemma states the successes, the failures and the exact order of the
 * calls that the test's expectations pin down.
 */
module BatchScenarios {
  import opened Wrappers
  import Filepath
  import Kube
  import Run

  const Enabled := Kube.KAAnnotations("true", "", "")
  const EnabledDryRun := Kube.KAAnnotations("true", "true", "")
  const Disabled := Kube.KAAnnotations("false", "", "")
  const Unsupported := Kube.KAAnnotations("unsupportedOption", "", "")

  /** expectNamespaceAnnotationsAndReturn: the lookup of `namespace` returns `kaa` and no error. */
  predicate ExpectNamespaceAnnotations(ba: Run.BatchApplier, namespace: string, kaa: Kube.KAAnnotations)
  {
    ba.kubeClient.namespaceAnnotations(namespace) == (kaa, None)
  }

  /** expectApplyAndReturnSuccess: `file` holds no kustomization and its Apply, with prune on, succeeds. */
  predicate ExpectApplySuccess(ba: Run.BatchApplier, file: string, namespace: string, dryRun: bool)
  {
    && !ba.kustomized(file)
    && ba.kubeClient.apply(file, namespace, dryRun, true, false) == ("cmd " + file, "output " + file, None)
  }

  /** expectApplyAndReturnFailure: the same Apply fails with the error "error " + file. */
  predicate ExpectApplyFailure(ba: Run.BatchApplier, file: string, namespace: string, dryRun: bool)
  {
    && !ba.kustomized(file)
    && ba.kubeClient.apply(file, namespace, dryRun, true, false)
       == ("cmd " + file, "output " + file, Some(Kube.OtherError("error " + file)))
  }

  function Success(file: string): Run.ApplyAttempt
  {
    Run.ApplyAttempt(file, "cmd " + file, "output " + file, "")
  }

  function Failure(file: string): Run.ApplyAttempt
  {
    Run.ApplyAttempt(file, "cmd " + file, "output " + file, "error " + file)
  }

  /** The calls for a target that is applied: lookup, Apply (never kustomized, prune on), success metric. */
  function AppliedCalls(file: string, namespace: string, dryRun: bool, ok: bool): seq<Run.Call>
  {
    [Run.NamespaceAnnotationsCall(namespace), Run.ApplyCall(file, namespace, dryRun, true, false), Run.UpdateNamespaceSuccessCall(file, ok)]
  }

  /** A file name with no directory part: its own Namespace name. */
  predicate PlainName(f: string)
  {
    f != [] && '/' !in f
  }

  /**
   * A target whose Namespace is enabled, with prune unset, is looked up,
   * applied with prune on, and reported; the attempt holds the Apply's
   * command, output and error text.
   */
  lemma AppliedStep(ba: Run.BatchApplier, file: string, namespace: string, kaa: Kube.KAAnnotations, ok: bool)
    requires Filepath.Base(file) == namespace
    requires ExpectNamespaceAnnotations(ba, namespace, kaa) && kaa.enabled == "true" && kaa.prune == ""
    requires var dryRun := ba.dryRun || kaa.dryRun == "true";
             if ok then ExpectApplySuccess(ba, file, namespace, dryRun) else ExpectApplyFailure(ba, file, namespace, dryRun)
    ensures var dryRun := ba.dryRun || kaa.dryRun == "true";
            ba.StepFor(file) ==
              if ok then Run.Step(Run.Succeeded(Success(file)), AppliedCalls(file, namespace, dryRun, true))
              else Run.Step(Run.Failed(Failure(file)), AppliedCalls(file, namespace, dryRun, false))
  {
  }

  /** A target whose Namespace is disabled, or carries an unknown enabled value, is only looked up. */
  lemma SkippedStep(ba: Run.BatchApplier, file: string, namespace: string, kaa: Kube.KAAnnotations)
    requires Filepath.Base(file) == namespace
    requires ExpectNamespaceAnnotations(ba, namespace, kaa) && kaa.enabled != "" && kaa.enabled != "true"
    ensures ba.StepFor(file) == Run.Step(Run.Skipped, [Run.NamespaceAnnotationsCall(namespace)])
  {
  }

  /** The run over one such target whose Apply succeeds. */
  lemma SucceedsAlone(ba: Run.BatchApplier, file: string, namespace: string, kaa: Kube.KAAnnotations)
    requires Filepath.Base(file) == namespace
    requires ExpectNamespaceAnnotations(ba, namespace, kaa) && kaa.enabled == "true" && kaa.prune == ""
    requires ExpectApplySuccess(ba, file, namespace, ba.dryRun || kaa.dryRun == "true")
    ensures ba.Successes([file]) == [Success(file)] && ba.Failures([file]) == []
    ensures ba.Trace([file]) == AppliedCalls(file, namespace, ba.dryRun || kaa.dryRun == "true", true)
  {
    AppliedStep(ba, file, namespace, kaa, true);
    Run.RunOfOne(ba, file);
  }

  /** The run over one such target whose Apply fails. */
  lemma FailsAlone(ba: Run.BatchApplier, file: string, namespace: string, kaa: Kube.KAAnnotations)
    requires Filepath.Base(file) == namespace
    requires ExpectNamespaceAnnotations(ba, namespace, kaa) && kaa.enabled == "true" && kaa.prune == ""
    requires ExpectApplyFailure(ba, file, namespace, ba.dryRun || kaa.dryRun == "true")
    ensures ba.Successes([file]) == [] && ba.Failures([file]) == [Failure(file)]
    ensures ba.Trace([file]) == AppliedCalls(file, namespace, ba.dryRun || kaa.dryRun == "true", false)
  {
    AppliedStep(ba, file, namespace, kaa, false);
    Run.RunOfOne(ba, file);
  }

  /** The run over one such skipped target. */
  lemma SkippedAlone(ba: Run.BatchApplier, file: string, namespace: string, kaa: Kube.KAAnnotations)
    requires Filepath.Base(file) == namespace
    requires ExpectNamespaceAnnotations(ba, namespace, kaa) && kaa.enabled != "" && kaa.enabled != "true"
    ensures ba.Successes([file]) == [] && ba.Failures([file]) == []
    ensures ba.Trace([file]) == [Run.NamespaceAnnotationsCall(namespace)]
  {
    SkippedStep(ba, file, namespace, kaa);
    Run.RunOfOne(ba, file);
  }

  /** A run over three targets is the three single-target runs, one after the other. */
  lemma RunOfThree(ba: Run.BatchApplier, a: string, b: string, c: string)
    ensures ba.Successes([a, b, c]) == ba.Successes([a]) + ba.Successes([b]) + ba.Successes([c])
    ensures ba.Failures([a, b, c]) == ba.Failures([a]) + ba.Failures([b]) + ba.Failures([c])
    ensures ba.Trace([a, b, c]) == ba.Trace([a]) + ba.Trace([b]) + ba.Trace([c])
  {
    assert [a, b, c] == [a] + [b] + [c];
    assert [a] + [b] == [a, b];
    Run.SuccessesSplit(ba, [a], [b]);
    Run.SuccessesSplit(ba, [a, b], [c]);
    Run.FailuresSplit(ba, [a], [b]);
    Run.FailuresSplit(ba, [a, b], [c]);
    Run.TraceSplit(ba, [a], [b]);
    Run.TraceSplit(ba, [a, b], [c]);
  }

  lemma RunOfFour(ba: Run.BatchApplier, a: string, b: string, c: string, d: string)
    ensures ba.Successes([a, b, c, d]) == ba.Successes([a]) + ba.Successes([b]) + ba.Successes([c]) + ba.Successes([d])
    ensures ba.Failures([a, b, c, d]) == ba.Failures([a]) + ba.Failures([b]) + ba.Failures([c]) + ba.Failures([d])
    ensures ba.Trace([a, b, c, d]) == ba.Trace([a]) + ba.Trace([b]) + ba.Trace([c]) + ba.Trace([d])
  {
    assert [a, b, c, d] == [a, b, c] + [d];
    RunOfThree(ba, a, b, c);
    Run.SuccessesSplit(ba, [a, b, c], [d]);
    Run.FailuresSplit(ba, [a, b, c], [d]);
    Run.TraceSplit(ba, [a, b, c], [d]);
  }

  lemma Concat3<T>(x: T, y: T, z: T)
    ensures [x] + [y] + [z] == [x, y, z]
  {
  }

  /** Both annotation sets the tests use to switch a namespace off make the run skip it. */
  lemma SkipsEither(kaa: Kube.KAAnnotations)
    requires kaa in {Disabled, Unsupported}
    ensures kaa.enabled != "" && kaa.enabled != "true"
  {
  }

  lemma Concat1<T>(x: T)
    ensures [] + [x] + [] == [x]
  {
  }

  lemma Concat2<T>(x: T, y: T)
    ensures [x] + [] + [y] + [] == [x, y] && [] + [x] + [] + [y] == [x, y]
  {
  }

  /** TestBatchApplierApply: an empty list makes no call and gives nothing. */
  lemma EmptyList(ba: Run.BatchApplier)
    ensures ba.Successes([]) == [] && ba.Failures([]) == [] && ba.Trace([]) == []
  {
  }

  /**
   * TestBatchApplierApplySuccess and TestBatchApplierApplySuccessDryRun
   * (with file1, file2, file3): three enabled Namespaces, all succeeding;
   * each is looked up, applied with prune on and the run's dry-run setting,
   * and reported, in order.
   */
  lemma AllSucceed(ba: Run.BatchApplier, a: string, b: string, c: string)
    requires PlainName(a) && PlainName(b) && PlainName(c)
    requires ExpectNamespaceAnnotations(ba, a, Enabled) && ExpectApplySuccess(ba, a, a, ba.dryRun)
    requires ExpectNamespaceAnnotations(ba, b, Enabled) && ExpectApplySuccess(ba, b, b, ba.dryRun)
    requires ExpectNamespaceAnnotations(ba, c, Enabled) && ExpectApplySuccess(ba, c, c, ba.dryRun)
    ensures ba.Successes([a, b, c]) == [Success(a), Success(b), Success(c)]
    ensures ba.Failures([a, b, c]) == []
    ensures ba.Trace([a, b, c]) ==
              AppliedCalls(a, a, ba.dryRun, true) + AppliedCalls(b, b, ba.dryRun, true) + AppliedCalls(c, c, ba.dryRun, true)
  {
    Filepath.BaseOfName(a);
    Filepath.BaseOfName(b);
    Filepath.BaseOfName(c);
    SucceedsAlone(ba, a, a, Enabled);
    SucceedsAlone(ba, b, b, Enabled);
    SucceedsAlone(ba, c, c, Enabled);
    RunOfThree(ba, a, b, c);
    Concat3(Success(a), Success(b), Success(c));
  }

  /** TestBatchApplierApplyFail (with file1, file2, file3): every Apply fails, and every target is still tried. */
  lemma AllFail(ba: Run.BatchApplier, a: string, b: string, c: string)
    requires PlainName(a) && PlainName(b) && PlainName(c)
    requires ExpectNamespaceAnnotations(ba, a, Enabled) && ExpectApplyFailure(ba, a, a, ba.dryRun)
    requires ExpectNamespaceAnnotations(ba, b, Enabled) && ExpectApplyFailure(ba, b, b, ba.dryRun)
    requires ExpectNamespaceAnnotations(ba, c, Enabled) && ExpectApplyFailure(ba, c, c, ba.dryRun)
    ensures ba.Successes([a, b, c]) == []
    ensures ba.Failures([a, b, c]) == [Failure(a), Failure(b), Failure(c)]
    ensures ba.Trace([a, b, c]) ==
              AppliedCalls(a, a, ba.dryRun, false) + AppliedCalls(b, b, ba.dryRun, false) + AppliedCalls(c, c, ba.dryRun, false)
  {
    Filepath.BaseOfName(a);
    Filepath.BaseOfName(b);
    Filepath.BaseOfName(c);
    FailsAlone(ba, a, a, Enabled);
    FailsAlone(ba, b, b, Enabled);
    FailsAlone(ba, c, c, Enabled);
    RunOfThree(ba, a, b, c);
    Concat3(Failure(a), Failure(b), Failure(c));
  }

  /** TestBatchApplierApplyPartial (with file1 to file4): the failures of the second and fourth stop nothing. */
  lemma Partial(ba: Run.BatchApplier, a: string, b: string, c: string, d: string)
    requires PlainName(a) && PlainName(b) && PlainName(c) && PlainName(d)
    requires ExpectNamespaceAnnotations(ba, a, Enabled) && ExpectApplySuccess(ba, a, a, ba.dryRun)
    requires ExpectNamespaceAnnotations(ba, b, Enabled) && ExpectApplyFailure(ba, b, b, ba.dryRun)
    requires ExpectNamespaceAnnotations(ba, c, Enabled) && ExpectApplySuccess(ba, c, c, ba.dryRun)
    requires ExpectNamespaceAnnotations(ba, d, Enabled) && ExpectApplyFailure(ba, d, d, ba.dryRun)
    ensures ba.Successes([a, b, c, d]) == [Success(a), Success(c)]
    ensures ba.Failures([a, b, c, d]) == [Failure(b), Failure(d)]
    ensures ba.Trace([a, b, c, d]) ==
              AppliedCalls(a, a, ba.dryRun, true) + AppliedCalls(b, b, ba.dryRun, false)
              + AppliedCalls(c, c, ba.dryRun, true) + AppliedCalls(d, d, ba.dryRun, false)
  {
    Filepath.BaseOfName(a);
    Filepath.BaseOfName(b);
    Filepath.BaseOfName(c);
    Filepath.BaseOfName(d);
    SucceedsAlone(ba, a, a, Enabled);
    FailsAlone(ba, b, b, Enabled);
    SucceedsAlone(ba, c, c, Enabled);
    FailsAlone(ba, d, d, Enabled);
    RunOfFour(ba, a, b, c, d);
    Concat2(Success(a), Success(c));
    Concat2(Failure(b), Failure(d));
  }

  /**
   * TestBatchApplierApplySuccessDryRunNamespaces (targets repo/file1, file2,
   * repo/file3, run not a dry run) and
   * TestBatchApplierApplySuccessDryRunAndDryRunNamespaces (targets file1,
   * file2, file3, run a dry run): the Namespace of a target is its last path
   * element, and a dry-run annotation makes that target a dry run whatever
   * the run's setting, while the unannotated one follows the run.
   */
  lemma DryRunNamespaces(ba: Run.BatchApplier, ta: string, a: string, b: string, tc: string, c: string)
    requires Filepath.Base(ta) == a && PlainName(b) && Filepath.Base(tc) == c
    requires ExpectNamespaceAnnotations(ba, a, EnabledDryRun) && ExpectApplySuccess(ba, ta, a, true)
    requires ExpectNamespaceAnnotations(ba, b, Enabled) && ExpectApplySuccess(ba, b, b, ba.dryRun)
    requires ExpectNamespaceAnnotations(ba, c, EnabledDryRun) && ExpectApplySuccess(ba, tc, c, true)
    ensures ba.Successes([ta, b, tc]) == [Success(ta), Success(b), Success(tc)]
    ensures ba.Failures([ta, b, tc]) == []
    ensures ba.Trace([ta, b, tc]) ==
              AppliedCalls(ta, a, true, true) + AppliedCalls(b, b, ba.dryRun, true) + AppliedCalls(tc, c, true, true)
  {
    Filepath.BaseOfName(b);
    SucceedsAlone(ba, ta, a, EnabledDryRun);
    SucceedsAlone(ba, b, b, Enabled);
    SucceedsAlone(ba, tc, c, EnabledDryRun);
    RunOfThree(ba, ta, b, tc);
    Concat3(Success(ta), Success(b), Success(tc));
  }

  /** The targets of TestBatchApplierApplySuccessDryRunNamespaces name their Namespaces by their last element. */
  lemma RepoTargets()
    ensures Filepath.Base("repo/file1") == "file1" && Filepath.Base("repo/file3") == "file3"
  {
    assert "repo" + "/" + "file1" == "repo/file1";
    assert "repo" + "/" + "file3" == "repo/file3";
    Filepath.BaseOfJoin("repo", "file1");
    Filepath.BaseOfJoin("repo", "file3");
  }

  /**
   * TestBatchApplierApplyDisabledNamespaces and
   * TestBatchApplierApplyInvalidAnnotation (with file1, file2, file3): the
   * first and third Namespaces are disabled or carry an unknown enabled
   * value, so those targets are looked up and nothing more; only the second
   * is applied.
   */
  lemma SkippedNamespaces(ba: Run.BatchApplier, a: string, b: string, c: string, skipA: Kube.KAAnnotations, skipC: Kube.KAAnnotations)
    requires PlainName(a) && PlainName(b) && PlainName(c)
    requires skipA in {Disabled, Unsupported} && skipC in {Disabled, Unsupported}
    requires ExpectNamespaceAnnotations(ba, a, skipA)
    requires ExpectNamespaceAnnotations(ba, b, Enabled) && ExpectApplySuccess(ba, b, b, ba.dryRun)
    requires ExpectNamespaceAnnotations(ba, c, skipC)
    ensures ba.Successes([a, b, c]) == [Success(b)]
    ensures ba.Failures([a, b, c]) == []
    ensures ba.Trace([a, b, c]) ==
              [Run.NamespaceAnnotationsCall(a)] + AppliedCalls(b, b, ba.dryRun, true) + [Run.NamespaceAnnotationsCall(c)]
  {
    Filepath.BaseOfName(a);
    Filepath.BaseOfName(b);
    Filepath.BaseOfName(c);
    SkipsEither(skipA);
    SkipsEither(skipC);
    SkippedAlone(ba, a, a, skipA);
    SucceedsAlone(ba, b, b, Enabled);
    SkippedAlone(ba, c, c, skipC);
    RunOfThree(ba, a, b, c);
    Concat1(Success(b));
  }
}
