/**
 * The run package: BatchApplier.Apply, which applies every target of a run
 * in order, resolving each target's policy from its Namespace annotations
 * and sorting the attempts into successes and failures. The kube client and
 * the metrics are the collaborators it is given; its calls on them are
 * recorded in order as a trace.
 */
module Run {
  import opened Wrappers
  import Filepath
  import Kube
  import Metrics

  /** The record of one apply: target, command string, combined output, error text ("" on success). */
  datatype ApplyAttempt = ApplyAttempt(filePath: string, command: string, output: string, errorMessage: string)

  /** A call the batch makes on the kube client or the metrics. */
  datatype Call =
    | NamespaceAnnotationsCall(namespace: string)
    | ApplyCall(path: string, namespace: string, dryRun: bool, prune: bool, kustomize: bool)
    | UpdateNamespaceSuccessCall(file: string, success: bool)

  // ---------------------------------------------------------------------
  // Policy
  // ---------------------------------------------------------------------

  /** An annotation value: absent, one of the two recognised words, or anything else. */
  datatype Flag = Unset | True | False | Invalid(raw: string)

  function ParseFlag(raw: string): Flag
  {
    if raw == "" then Unset
    else if raw == "true" then True
    else if raw == "false" then False
    else Invalid(raw)
  }

  /** How one target is applied. */
  datatype Policy = Policy(enabled: bool, dryRun: bool, prune: bool)

  datatype Resolution = Resolved(policy: Policy) | PolicyError(raw: string)

  /**
   * The policy of a target, from the run's dry-run flag and its Namespace's
   * annotations. The enabled annotation must be absent, "true" or "false";
   * the dry-run annotation can only add dry-run to the run's setting; prune
   * is on when the prune annotation is absent or "true".
   */
  function Resolve(runDryRun: bool, kaa: Kube.KAAnnotations): (r: Resolution)
    ensures r.PolicyError? <==> kaa.enabled != "" && kaa.enabled != "true" && kaa.enabled != "false"
    ensures r.Resolved? ==> r.policy.enabled == (kaa.enabled != "false")
    ensures r.Resolved? ==> r.policy.dryRun == (runDryRun || kaa.dryRun == "true")
    ensures r.Resolved? ==> r.policy.prune == (kaa.prune == "" || kaa.prune == "true")
  {
    match ParseFlag(kaa.enabled)
    case Invalid(raw) => PolicyError(raw)
    case enabled =>
      var dryRun := ParseFlag(kaa.dryRun);
      var prune := ParseFlag(kaa.prune);
      Resolved(Policy(enabled != False, runDryRun || dryRun == True, prune == Unset || prune == True))
  }

  // ---------------------------------------------------------------------
  // The batch
  // ---------------------------------------------------------------------

  /** What happened to one target. */
  datatype Outcome = Skipped | Succeeded(attempt: ApplyAttempt) | Failed(attempt: ApplyAttempt)

  datatype Step = Step(outcome: Outcome, calls: seq<Call>)

  /**
   * BatchApplier: the kube client, the run-level dry-run flag, and whether a
   * target directory holds a kustomization file.
   */
  datatype BatchApplier = BatchApplier(kubeClient: Kube.ClientInterface, dryRun: bool, kustomized: string -> bool)
  {
    /** What one target leaves: its outcome and the calls made for it, in order. */
    function StepFor(target: string): (s: Step)
      ensures s.outcome.Skipped? <==> |s.calls| == 1
      ensures !s.outcome.Skipped? ==> |s.calls| == 3 && s.outcome.attempt.filePath == target
    {
      var ns := Filepath.Base(target);
      var lookup := NamespaceAnnotationsCall(ns);
      var annotations := kubeClient.namespaceAnnotations(ns);
      if annotations.1.Some? then Step(Skipped, [lookup])
      else match Resolve(dryRun, annotations.0)
        case PolicyError(_) => Step(Skipped, [lookup])
        case Resolved(p) =>
          if !p.enabled then Step(Skipped, [lookup])
          else
            var kustomize := kustomized(target);
            var response := kubeClient.apply(target, ns, p.dryRun, p.prune, kustomize);
            var ok := response.2.None?;
            var calls := [lookup, ApplyCall(target, ns, p.dryRun, p.prune, kustomize), UpdateNamespaceSuccessCall(target, ok)];
            if ok then Step(Succeeded(ApplyAttempt(target, response.0, response.1, "")), calls)
            else Step(Failed(ApplyAttempt(target, response.0, response.1, response.2.value.message)), calls)
    }

    /** The successes of a run over `targets`, in target order. */
    function Successes(targets: seq<string>): (r: seq<ApplyAttempt>)
      ensures |r| <= |targets|
      decreases |targets|
    {
      if targets == [] then []
      else
        var o := StepFor(targets[|targets| - 1]).outcome;
        Successes(targets[..|targets| - 1]) + (if o.Succeeded? then [o.attempt] else [])
    }

    /** The failures of a run over `targets`, in target order. */
    function Failures(targets: seq<string>): (r: seq<ApplyAttempt>)
      ensures |r| <= |targets|
      decreases |targets|
    {
      if targets == [] then []
      else
        var o := StepFor(targets[|targets| - 1]).outcome;
        Failures(targets[..|targets| - 1]) + (if o.Failed? then [o.attempt] else [])
    }

    /** The calls of a run over `targets`: each target's calls, one target after the other. */
    function Trace(targets: seq<string>): (r: seq<Call>)
      ensures |targets| <= |r| <= 3 * |targets|
      decreases |targets|
    {
      if targets == [] then []
      else
        StepShape(this, targets[|targets| - 1]);
        Trace(targets[..|targets| - 1]) + StepFor(targets[|targets| - 1]).calls
    }

    /** The number of targets that get an apply. */
    function AttemptedCount(targets: seq<string>): nat
      decreases |targets|
    {
      if targets == [] then 0
      else AttemptedCount(targets[..|targets| - 1]) + (if StepFor(targets[|targets| - 1]).outcome.Skipped? then 0 else 1)
    }

    /**
     * The body of BatchApplier.Apply's loop for one target: look up its
     * Namespace's annotations, skip it on a lookup error, a policy error or
     * a disabled Namespace, and otherwise apply it and report the outcome
     * to the success metric.
     */
    method ApplyOne(path: string) returns (outcome: Outcome, calls: seq<Call>)
      ensures Step(outcome, calls) == StepFor(path)
    {
      var ns := Filepath.Base(path);
      var annotations := kubeClient.namespaceAnnotations(ns);
      calls := [NamespaceAnnotationsCall(ns)];
      if annotations.1.Some? {
        assert StepFor(path) == Step(Skipped, calls);
        return Skipped, calls;
      }
      var resolution := Resolve(dryRun, annotations.0);
      if resolution.PolicyError? || !resolution.policy.enabled {
        assert StepFor(path) == Step(Skipped, calls);
        return Skipped, calls;
      }
      var policy := resolution.policy;
      var kustomize := kustomized(path);
      var response := kubeClient.apply(path, ns, policy.dryRun, policy.prune, kustomize);
      calls := calls + [ApplyCall(path, ns, policy.dryRun, policy.prune, kustomize)];
      var success := response.2.None?;
      var appliedFile := ApplyAttempt(path, response.0, response.1, "");
      if success {
        outcome := Succeeded(appliedFile);
      } else {
        appliedFile := appliedFile.(errorMessage := response.2.value.message);
        outcome := Failed(appliedFile);
      }
      calls := calls + [UpdateNamespaceSuccessCall(path, success)];
      assert calls == [NamespaceAnnotationsCall(ns), ApplyCall(path, ns, policy.dryRun, policy.prune, kustomize),
                       UpdateNamespaceSuccessCall(path, success)];
    }

    /**
     * BatchApplier.Apply: one pass over the targets, in order; a target's
     * failure never stops the ones after it.
     */
    method Apply(applyList: seq<string>) returns (successes: seq<ApplyAttempt>, failures: seq<ApplyAttempt>, calls: seq<Call>)
      ensures successes == Successes(applyList)
      ensures failures == Failures(applyList)
      ensures calls == Trace(applyList)
      ensures applyList == [] ==> successes == [] && failures == [] && calls == []
    {
      successes, failures, calls := [], [], [];
      var i := 0;
      while i < |applyList|
        invariant 0 <= i <= |applyList|
        invariant successes == Successes(applyList[..i])
        invariant failures == Failures(applyList[..i])
        invariant calls == Trace(applyList[..i])
      {
        assert applyList[..i + 1][..i] == applyList[..i];
        var outcome, stepCalls := ApplyOne(applyList[i]);
        match outcome {
          case Skipped =>
          case Succeeded(attempt) => successes := successes + [attempt];
          case Failed(attempt) => failures := failures + [attempt];
        }
        calls := calls + stepCalls;
        i := i + 1;
      }
      assert applyList[..i] == applyList;
    }
  }

  // ---------------------------------------------------------------------
  // Properties of a run
  // ---------------------------------------------------------------------

  /**
   * The shape of one target's calls: a lookup of its path's last element,
   * then, unless it is skipped, the Apply of that path and the success
   * metric for it, which records whether the attempt succeeded
   * (StepOutcome ties that to the Apply's answer).
   */
  lemma StepShape(ba: BatchApplier, t: string)
    ensures var s := ba.StepFor(t);
            && (|s.calls| == 1 || |s.calls| == 3)
            && s.calls[0] == NamespaceAnnotationsCall(Filepath.Base(t))
            && (s.outcome.Skipped? <==> |s.calls| == 1)
            && (!s.outcome.Skipped? ==>
                  && s.outcome.attempt.filePath == t
                  && s.calls[1].ApplyCall? && s.calls[1].path == t && s.calls[1].namespace == Filepath.Base(t)
                  && (ba.dryRun ==> s.calls[1].dryRun)
                  && s.calls[2] == UpdateNamespaceSuccessCall(t, s.outcome.Succeeded?))
            && (s.outcome.Succeeded? ==> s.outcome.attempt.errorMessage == "")
  {
  }

  /**
   * How one target is classified. It is skipped exactly when the lookup
   * fails, its enabled value is unknown, or its Namespace is disabled.
   * Otherwise the Apply runs with the resolved policy's dry-run and prune
   * settings and the kustomization check. A nil error from the Apply gives
   * a success with empty error text, and any other error gives a failure
   * carrying that error's text; the command and output are kept either way.
   */
  lemma StepOutcome(ba: BatchApplier, t: string)
    ensures var s := ba.StepFor(t);
            var lookup := ba.kubeClient.namespaceAnnotations(Filepath.Base(t));
            var resolution := Resolve(ba.dryRun, lookup.0);
            && (s.outcome.Skipped? <==> lookup.1.Some? || resolution.PolicyError? || !resolution.policy.enabled)
            && (!s.outcome.Skipped? ==>
                  var c := s.calls[1];
                  var r := ba.kubeClient.apply(c.path, c.namespace, c.dryRun, c.prune, c.kustomize);
                  && c.dryRun == resolution.policy.dryRun && c.prune == resolution.policy.prune
                  && c.kustomize == ba.kustomized(t)
                  && (s.outcome.Succeeded? <==> r.2.None?)
                  && s.outcome.attempt == ApplyAttempt(t, r.0, r.1, if r.2.None? then "" else r.2.value.message))
  {
    StepShape(ba, t);
  }

  /**
   * Batch isolation: a run over `xs + ys` is the run over `xs` followed by
   * the run over `ys`; what happened to earlier targets changes nothing
   * for later ones.
   */
  lemma {:induction false} SuccessesSplit(ba: BatchApplier, xs: seq<string>, ys: seq<string>)
    ensures ba.Successes(xs + ys) == ba.Successes(xs) + ba.Successes(ys)
    decreases |ys|
  {
    if ys == [] {
      assert xs + ys == xs;
    } else {
      var ys', last := ys[..|ys| - 1], ys[|ys| - 1];
      assert (xs + ys)[..|xs + ys| - 1] == xs + ys';
      assert (xs + ys)[|xs + ys| - 1] == last;
      SuccessesSplit(ba, xs, ys');
      var o := ba.StepFor(last).outcome;
      var before, middle, step := ba.Successes(xs), ba.Successes(ys'), if o.Succeeded? then [o.attempt] else [];
      assert ba.Successes(xs + ys) == before + middle + step;
      assert ba.Successes(ys) == middle + step;
      ConcatAssociative(before, middle, step);
    }
  }

  lemma {:induction false} FailuresSplit(ba: BatchApplier, xs: seq<string>, ys: seq<string>)
    ensures ba.Failures(xs + ys) == ba.Failures(xs) + ba.Failures(ys)
    decreases |ys|
  {
    if ys == [] {
      assert xs + ys == xs;
    } else {
      var ys', last := ys[..|ys| - 1], ys[|ys| - 1];
      assert (xs + ys)[..|xs + ys| - 1] == xs + ys';
      assert (xs + ys)[|xs + ys| - 1] == last;
      FailuresSplit(ba, xs, ys');
      var o := ba.StepFor(last).outcome;
      var before, middle, step := ba.Failures(xs), ba.Failures(ys'), if o.Failed? then [o.attempt] else [];
      assert ba.Failures(xs + ys) == before + middle + step;
      assert ba.Failures(ys) == middle + step;
      ConcatAssociative(before, middle, step);
    }
  }

  lemma {:induction false} TraceSplit(ba: BatchApplier, xs: seq<string>, ys: seq<string>)
    ensures ba.Trace(xs + ys) == ba.Trace(xs) + ba.Trace(ys)
    decreases |ys|
  {
    if ys == [] {
      assert xs + ys == xs;
    } else {
      var ys', last := ys[..|ys| - 1], ys[|ys| - 1];
      assert (xs + ys)[..|xs + ys| - 1] == xs + ys';
      assert (xs + ys)[|xs + ys| - 1] == last;
      TraceSplit(ba, xs, ys');
      var before, middle, step := ba.Trace(xs), ba.Trace(ys'), ba.StepFor(last).calls;
      assert ba.Trace(xs + ys) == before + middle + step;
      assert ba.Trace(ys) == middle + step;
      ConcatAssociative(before, middle, step);
    }
  }

  /** Concatenation regroups freely. */
  lemma ConcatAssociative<T>(a: seq<T>, b: seq<T>, c: seq<T>)
    ensures a + b + c == a + (b + c)
  {
  }

  /** A run over one target holds that target's outcome and calls alone. */
  lemma RunOfOne(ba: BatchApplier, t: string)
    ensures var o := ba.StepFor(t).outcome;
            && ba.Successes([t]) == (if o.Succeeded? then [o.attempt] else [])
            && ba.Failures([t]) == (if o.Failed? then [o.attempt] else [])
            && ba.Trace([t]) == ba.StepFor(t).calls
  {
    assert [t][..0] == [];
  }

  /**
   * Every enabled target gives exactly one attempt, in one list or the
   * other; skipped targets give none.
   */
  lemma {:induction false} AttemptCount(ba: BatchApplier, targets: seq<string>)
    ensures |ba.Successes(targets)| + |ba.Failures(targets)| == ba.AttemptedCount(targets)
    ensures ba.AttemptedCount(targets) <= |targets|
    decreases |targets|
  {
    if targets != [] {
      AttemptCount(ba, targets[..|targets| - 1]);
    }
  }

  /**
   * Each success is the Succeeded outcome of one of the targets, and each
   * failure the Failed outcome of one: an attempt carries its target's own
   * command, output and error text.
   */
  lemma {:induction false} AttemptsComeFromTargets(ba: BatchApplier, targets: seq<string>)
    ensures forall a :: a in ba.Successes(targets) ==> a.filePath in targets && ba.StepFor(a.filePath).outcome == Succeeded(a)
    ensures forall a :: a in ba.Failures(targets) ==> a.filePath in targets && ba.StepFor(a.filePath).outcome == Failed(a)
    decreases |targets|
  {
    if targets != [] {
      var init := targets[..|targets| - 1];
      AttemptsComeFromTargets(ba, init);
      assert forall t :: t in init ==> t in targets;
    }
  }

  /** A successful attempt has empty error text. */
  lemma SuccessesHaveNoError(ba: BatchApplier, targets: seq<string>)
    ensures forall a :: a in ba.Successes(targets) ==> a.errorMessage == ""
  {
    AttemptsComeFromTargets(ba, targets);
  }

  /** A disabled or wrongly annotated target is in neither list. */
  lemma SkippedTargetsAbsent(ba: BatchApplier, targets: seq<string>, t: string)
    requires ba.StepFor(t).outcome.Skipped?
    ensures forall a :: a in ba.Successes(targets) ==> a.filePath != t
    ensures forall a :: a in ba.Failures(targets) ==> a.filePath != t
  {
    AttemptsComeFromTargets(ba, targets);
  }

  function Paths(attempts: seq<ApplyAttempt>): (paths: seq<string>)
    ensures |paths| == |attempts|
  {
    seq(|attempts|, i requires 0 <= i < |attempts| => attempts[i].filePath)
  }

  /** `xs` is `ys` with some elements left out and the rest in their order. */
  predicate IsSubsequence(xs: seq<string>, ys: seq<string>)
    decreases |ys|
  {
    if xs == [] then true
    else if ys == [] then false
    else if xs[|xs| - 1] == ys[|ys| - 1] then IsSubsequence(xs[..|xs| - 1], ys[..|ys| - 1])
    else IsSubsequence(xs, ys[..|ys| - 1])
  }

  lemma {:induction false} SubsequenceDropLast(xs: seq<string>, ys: seq<string>)
    requires xs != [] && IsSubsequence(xs, ys)
    ensures IsSubsequence(xs[..|xs| - 1], ys)
    decreases |ys|
  {
    var xs' := xs[..|xs| - 1];
    if xs' != [] {
      var ys' := ys[..|ys| - 1];
      if xs[|xs| - 1] != ys[|ys| - 1] {
        SubsequenceDropLast(xs, ys');
      }
      if xs'[|xs'| - 1] == ys[|ys| - 1] {
        SubsequenceDropLast(xs', ys');
      }
    }
  }

  lemma SubsequenceKeep(xs: seq<string>, ys: seq<string>, y: string)
    requires IsSubsequence(xs, ys)
    ensures IsSubsequence(xs + [y], ys + [y])
  {
    assert (ys + [y])[..|ys|] == ys;
    assert (xs + [y])[..|xs|] == xs;
  }

  lemma SubsequenceSkip(xs: seq<string>, ys: seq<string>, y: string)
    requires IsSubsequence(xs, ys)
    ensures IsSubsequence(xs, ys + [y])
  {
    assert (ys + [y])[..|ys|] == ys;
    if xs != [] && xs[|xs| - 1] == y {
      SubsequenceDropLast(xs, ys);
    }
  }

  lemma PathsSnoc(attempts: seq<ApplyAttempt>, a: ApplyAttempt)
    ensures Paths(attempts + [a]) == Paths(attempts) + [a.filePath]
  {
  }

  /** The successes keep the order in which their targets came. */
  lemma {:induction false} SuccessesInTargetOrder(ba: BatchApplier, targets: seq<string>)
    ensures IsSubsequence(Paths(ba.Successes(targets)), targets)
    decreases |targets|
  {
    if targets != [] {
      var n := |targets| - 1;
      var init := targets[..n];
      var t := targets[n];
      SuccessesInTargetOrder(ba, init);
      var o := ba.StepFor(t).outcome;
      var before := ba.Successes(init);
      assert init + [t] == targets;
      if o.Succeeded? {
        assert ba.Successes(targets) == before + [o.attempt];
        PathsSnoc(before, o.attempt);
        SubsequenceKeep(Paths(before), init, t);
      } else {
        assert ba.Successes(targets) == before;
        SubsequenceSkip(Paths(before), init, t);
      }
    }
  }

  /** The failures keep the order in which their targets came. */
  lemma {:induction false} FailuresInTargetOrder(ba: BatchApplier, targets: seq<string>)
    ensures IsSubsequence(Paths(ba.Failures(targets)), targets)
    decreases |targets|
  {
    if targets != [] {
      var n := |targets| - 1;
      var init := targets[..n];
      var t := targets[n];
      FailuresInTargetOrder(ba, init);
      var o := ba.StepFor(t).outcome;
      var before := ba.Failures(init);
      assert init + [t] == targets;
      if o.Failed? {
        assert ba.Failures(targets) == before + [o.attempt];
        PathsSnoc(before, o.attempt);
        SubsequenceKeep(Paths(before), init, t);
      } else {
        assert ba.Failures(targets) == before;
        SubsequenceSkip(Paths(before), init, t);
      }
    }
  }

  /** The namespaces looked up, in the order of the lookups. */
  function Lookups(calls: seq<Call>): seq<string>
    decreases |calls|
  {
    if calls == [] then []
    else
      var c := calls[|calls| - 1];
      Lookups(calls[..|calls| - 1]) + (if c.NamespaceAnnotationsCall? then [c.namespace] else [])
  }

  lemma {:induction false} LookupsAppend(a: seq<Call>, b: seq<Call>)
    ensures Lookups(a + b) == Lookups(a) + Lookups(b)
    decreases |b|
  {
    if b == [] {
      assert a + b == a;
    } else {
      assert (a + b)[..|a + b| - 1] == a + b[..|b| - 1];
      LookupsAppend(a, b[..|b| - 1]);
    }
  }

  lemma StepLookups(ba: BatchApplier, t: string)
    ensures Lookups(ba.StepFor(t).calls) == [Filepath.Base(t)]
  {
    StepShape(ba, t);
    var calls := ba.StepFor(t).calls;
    assert calls[..1][..0] == [];
    assert Lookups(calls[..1]) == [Filepath.Base(t)];
    if |calls| == 3 {
      assert calls[..2][..1] == calls[..1];
      assert Lookups(calls[..2]) == Lookups(calls[..1]);
    } else {
      assert calls[..1] == calls;
    }
  }

  /** The Namespace of each target, in target order: its path's last element. */
  function Namespaces(targets: seq<string>): (namespaces: seq<string>)
    ensures |namespaces| == |targets|
    ensures forall i :: 0 <= i < |targets| ==> namespaces[i] == Filepath.Base(targets[i])
    decreases |targets|
  {
    if targets == [] then []
    else Namespaces(targets[..|targets| - 1]) + [Filepath.Base(targets[|targets| - 1])]
  }

  /** Every target gets exactly one annotation lookup, for its Namespace, in target order. */
  lemma {:induction false} OneLookupPerTarget(ba: BatchApplier, targets: seq<string>)
    ensures Lookups(ba.Trace(targets)) == Namespaces(targets)
    decreases |targets|
  {
    if targets != [] {
      var n := |targets| - 1;
      var init := targets[..n];
      OneLookupPerTarget(ba, init);
      var calls := ba.StepFor(targets[n]).calls;
      assert ba.Trace(targets) == ba.Trace(init) + calls;
      LookupsAppend(ba.Trace(init), calls);
      StepLookups(ba, targets[n]);
    }
  }

  /**
   * The calls come in strict per-target order: every Apply directly follows
   * the lookup of its namespace, which is its path's last element, and is
   * directly followed by the success metric of the same path.
   */
  predicate CallsInOrder(calls: seq<Call>)
  {
    && (forall k :: 0 <= k < |calls| && calls[k].ApplyCall? ==>
          && 1 <= k && k + 1 < |calls|
          && calls[k].namespace == Filepath.Base(calls[k].path)
          && calls[k - 1] == NamespaceAnnotationsCall(calls[k].namespace)
          && calls[k + 1].UpdateNamespaceSuccessCall? && calls[k + 1].file == calls[k].path)
    && (forall k :: 0 <= k < |calls| && calls[k].UpdateNamespaceSuccessCall? ==>
          1 <= k && calls[k - 1].ApplyCall? && calls[k - 1].path == calls[k].file)
  }

  lemma CallsInOrderAppend(a: seq<Call>, b: seq<Call>)
    requires CallsInOrder(a) && CallsInOrder(b)
    ensures CallsInOrder(a + b)
  {
    var c := a + b;
    forall k | 0 <= k < |c| && c[k].ApplyCall?
      ensures 1 <= k && k + 1 < |c| && c[k].namespace == Filepath.Base(c[k].path)
      ensures c[k - 1] == NamespaceAnnotationsCall(c[k].namespace)
      ensures c[k + 1].UpdateNamespaceSuccessCall? && c[k + 1].file == c[k].path
    {
      if k >= |a| {
        assert c[k] == b[k - |a|];
      }
    }
    forall k | 0 <= k < |c| && c[k].UpdateNamespaceSuccessCall?
      ensures 1 <= k && c[k - 1].ApplyCall? && c[k - 1].path == c[k].file
    {
      if k >= |a| {
        assert c[k] == b[k - |a|];
      }
    }
  }

  /** A lone lookup is in order. */
  lemma LookupInOrder(path: string)
    ensures CallsInOrder([NamespaceAnnotationsCall(Filepath.Base(path))])
  {
  }

  /** Lookup, Apply and success metric of one path, in that order, are in order. */
  lemma AppliedInOrder(lookup: Call, apply: Call, metric: Call)
    requires apply.ApplyCall? && apply.namespace == Filepath.Base(apply.path)
    requires lookup == NamespaceAnnotationsCall(apply.namespace)
    requires metric.UpdateNamespaceSuccessCall? && metric.file == apply.path
    ensures CallsInOrder([lookup, apply, metric])
  {
    var c := [lookup, apply, metric];
    assert forall k :: 0 <= k < 3 && c[k].ApplyCall? ==> k == 1;
    assert forall k :: 0 <= k < 3 && c[k].UpdateNamespaceSuccessCall? ==> k == 2;
  }

  lemma StepInOrder(ba: BatchApplier, t: string)
    ensures CallsInOrder(ba.StepFor(t).calls)
  {
    StepShape(ba, t);
    var calls := ba.StepFor(t).calls;
    if |calls| == 3 {
      AppliedInOrder(calls[0], calls[1], calls[2]);
      assert calls == [calls[0], calls[1], calls[2]];
    } else {
      LookupInOrder(t);
      assert calls == [calls[0]];
    }
  }

  lemma {:induction false} TraceInOrder(ba: BatchApplier, targets: seq<string>)
    ensures CallsInOrder(ba.Trace(targets))
    decreases |targets|
  {
    if targets != [] {
      var n := |targets| - 1;
      TraceInOrder(ba, targets[..n]);
      StepInOrder(ba, targets[n]);
      CallsInOrderAppend(ba.Trace(targets[..n]), ba.StepFor(targets[n]).calls);
    }
  }

  /** The number of Apply calls in a trace. */
  function ApplyCount(calls: seq<Call>): nat
    decreases |calls|
  {
    if calls == [] then 0
    else ApplyCount(calls[..|calls| - 1]) + (if calls[|calls| - 1].ApplyCall? then 1 else 0)
  }

  lemma {:induction false} ApplyCountAppend(a: seq<Call>, b: seq<Call>)
    ensures ApplyCount(a + b) == ApplyCount(a) + ApplyCount(b)
    decreases |b|
  {
    if b == [] {
      assert a + b == a;
    } else {
      assert (a + b)[..|a + b| - 1] == a + b[..|b| - 1];
      ApplyCountAppend(a, b[..|b| - 1]);
    }
  }

  lemma StepApplyCount(ba: BatchApplier, t: string)
    ensures ApplyCount(ba.StepFor(t).calls) == (if ba.StepFor(t).outcome.Skipped? then 0 else 1)
  {
    StepShape(ba, t);
    var calls := ba.StepFor(t).calls;
    assert calls[..1][..0] == [];
    assert ApplyCount(calls[..1]) == 0;
    if |calls| == 3 {
      assert calls[..2][..1] == calls[..1];
      assert ApplyCount(calls[..2]) == 1;
    } else {
      assert calls[..1] == calls;
    }
  }

  /** Apply is called once per attempt and never for a skipped target. */
  lemma {:induction false} OneApplyPerAttempt(ba: BatchApplier, targets: seq<string>)
    ensures ApplyCount(ba.Trace(targets)) == |ba.Successes(targets)| + |ba.Failures(targets)|
    decreases |targets|
  {
    if targets != [] {
      var n := |targets| - 1;
      var init := targets[..n];
      OneApplyPerAttempt(ba, init);
      var calls := ba.StepFor(targets[n]).calls;
      assert ba.Trace(targets) == ba.Trace(init) + calls;
      ApplyCountAppend(ba.Trace(init), calls);
      StepApplyCount(ba, targets[n]);
    }
  }

  /** Every Apply in `calls` is a dry run. */
  predicate AllDryRun(calls: seq<Call>)
  {
    forall k :: 0 <= k < |calls| && calls[k].ApplyCall? ==> calls[k].dryRun
  }

  lemma AllDryRunAppend(a: seq<Call>, b: seq<Call>)
    requires AllDryRun(a) && AllDryRun(b)
    ensures AllDryRun(a + b)
  {
    var c := a + b;
    forall k | 0 <= k < |c| && c[k].ApplyCall?
      ensures c[k].dryRun
    {
      if k >= |a| {
        assert c[k] == b[k - |a|];
      }
    }
  }

  lemma StepDryRun(ba: BatchApplier, t: string)
    requires ba.dryRun
    ensures AllDryRun(ba.StepFor(t).calls)
  {
    StepShape(ba, t);
  }

  /** A run-level dry run makes every apply a dry run: no annotation turns it off. */
  lemma {:induction false} RunDryRunForcesDryRun(ba: BatchApplier, targets: seq<string>)
    requires ba.dryRun
    ensures AllDryRun(ba.Trace(targets))
    decreases |targets|
  {
    if targets != [] {
      var n := |targets| - 1;
      var init := targets[..n];
      RunDryRunForcesDryRun(ba, init);
      StepDryRun(ba, targets[n]);
      var calls := ba.StepFor(targets[n]).calls;
      assert ba.Trace(targets) == ba.Trace(init) + calls;
      AllDryRunAppend(ba.Trace(init), calls);
    }
  }
}
