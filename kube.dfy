/**
 * The kube package: how kube-applier drives kubectl. Running a process and
 * decoding its JSON output are oracles (the `Kubectl` datatype); what is
 * modelled is the argument vectors, the command string, the exit-code
 * metric and the extraction of the kube-applier annotations.
 */
module Kube {
  import opened Wrappers
  import Strings
  import Strconv
  import Metrics
  import Filepath

  const KubeconfigFilePath := "/etc/kubeconfig"
  const EnabledAnnotation := "kube-applier.io/enabled"
  const DryRunAnnotation := "kube-applier.io/dry-run"
  const PruneAnnotation := "kube-applier.io/prune"

  /** The kinds `kubectl apply --prune` may delete; credential-bearing kinds are left out on purpose. */
  const PruneWhitelist: seq<string> := [
    "apps/v1/DaemonSet",
    "apps/v1/Deployment",
    "apps/v1/StatefulSet",
    "autoscaling/v1/HorizontalPodAutoscaler",
    "batch/v1/Job",
    "core/v1/ConfigMap",
    "core/v1/Pod",
    "core/v1/Service",
    "core/v1/ServiceAccount",
    "networking.k8s.io/v1beta1/Ingress",
    "networking.k8s.io/v1/NetworkPolicy"
  ]

  /** The three kube-applier annotations of a Namespace, as raw strings ("" when absent). */
  datatype KAAnnotations = KAAnnotations(enabled: string, dryRun: string, prune: string)

  const NoAnnotations := KAAnnotations("", "", "")

  /** A Go error: an *exec.ExitError carries the process's exit code. */
  datatype Error =
    | ExitError(code: int, message: string)
    | OtherError(message: string)

  /** Which streams the process output holds: CombinedOutput or Output. */
  datatype Capture = Combined | StdoutOnly

  datatype ExecResult = ExecResult(output: string, err: Option<Error>)

  /** The fields of a Namespace object that kube-applier decodes. */
  datatype NamespaceResponse = NamespaceResponse(name: string, annotations: map<string, string>)

  /** How kubectl behaves: the process runner and the JSON decoders. */
  datatype Kubectl = Kubectl(
    run: (seq<string>, Capture) -> ExecResult,
    decodeNamespace: string -> Result<NamespaceResponse, Error>,
    decodeNamespaceList: string -> Result<seq<NamespaceResponse>, Error>)

  /**
   * ClientInterface, the capability the batch applier is given: Apply,
   * NamespaceAnnotations and NamespaceAnnotationsBatch as opaque operations.
   */
  datatype ClientInterface = ClientInterface(
    apply: (string, string, bool, bool, bool) -> (string, string, Option<Error>),
    namespaceAnnotations: string -> (KAAnnotations, Option<Error>),
    namespaceAnnotationsBatch: seq<string> -> (map<string, KAAnnotations>, Option<Error>))

  // ---------------------------------------------------------------------
  // Annotations
  // ---------------------------------------------------------------------

  function Lookup(annotations: map<string, string>, key: string): string
  {
    if key in annotations then annotations[key] else ""
  }

  /** The annotation triple of a Namespace; a missing annotation reads as "". */
  function AnnotationsFrom(annotations: map<string, string>): (kaa: KAAnnotations)
    ensures EnabledAnnotation in annotations ==> kaa.enabled == annotations[EnabledAnnotation]
    ensures EnabledAnnotation !in annotations ==> kaa.enabled == ""
    ensures DryRunAnnotation in annotations ==> kaa.dryRun == annotations[DryRunAnnotation]
    ensures DryRunAnnotation !in annotations ==> kaa.dryRun == ""
    ensures PruneAnnotation in annotations ==> kaa.prune == annotations[PruneAnnotation]
    ensures PruneAnnotation !in annotations ==> kaa.prune == ""
  {
    KAAnnotations(
      Lookup(annotations, EnabledAnnotation),
      Lookup(annotations, DryRunAnnotation),
      Lookup(annotations, PruneAnnotation))
  }

  /** The annotations a Namespace carries when its triple is `kaa`. */
  function AnnotationMap(kaa: KAAnnotations): map<string, string>
  {
    map[EnabledAnnotation := kaa.enabled, DryRunAnnotation := kaa.dryRun, PruneAnnotation := kaa.prune]
  }

  /** Each field is read from its own key, and reading a triple back gives it unchanged. */
  lemma AnnotationsRoundTrip(kaa: KAAnnotations)
    ensures AnnotationsFrom(AnnotationMap(kaa)) == kaa
  {
  }

  /** Only the three kube-applier keys matter; every other annotation is ignored. */
  lemma AnnotationsIgnoreOtherKeys(annotations: map<string, string>, key: string, value: string)
    requires key != EnabledAnnotation && key != DryRunAnnotation && key != PruneAnnotation
    ensures AnnotationsFrom(annotations[key := value]) == AnnotationsFrom(annotations)
  {
  }

  /** A Namespace without annotations gives the empty triple. */
  lemma NoAnnotationsReadEmpty()
    ensures AnnotationsFrom(map[]) == NoAnnotations
  {
  }

  /**
   * The map NamespaceAnnotationsBatch builds from a decoded list: each item
   * under its name, a later item with the same name replacing an earlier one.
   */
  function ItemsMap(items: seq<NamespaceResponse>): (m: map<string, KAAnnotations>)
    ensures |m| <= |items|
    ensures forall i :: 0 <= i < |items| ==> items[i].name in m
    decreases |items|
  {
    if items == [] then map[]
    else
      var init, last := items[..|items| - 1], items[|items| - 1];
      assert forall i :: 0 <= i < |init| ==> init[i] == items[i];
      ItemsMap(init)[last.name := AnnotationsFrom(last.annotations)]
  }

  /** The keys are exactly the names of the items. */
  lemma {:induction false} ItemsMapKeys(items: seq<NamespaceResponse>)
    ensures ItemsMap(items).Keys == set i | 0 <= i < |items| :: items[i].name
    decreases |items|
  {
    if items != [] {
      var n := |items| - 1;
      var init := items[..n];
      ItemsMapKeys(init);
      assert ItemsMap(items).Keys == ItemsMap(init).Keys + {items[n].name};
      assert forall i :: 0 <= i < n ==> init[i] == items[i];
      assert (set i | 0 <= i < |items| :: items[i].name) == (set i | 0 <= i < n :: init[i].name) + {items[n].name};
    }
  }

  /** Under each name is the triple of the last item of that name. */
  lemma {:induction false} ItemsMapLastWins(items: seq<NamespaceResponse>, i: nat)
    requires i < |items|
    requires forall j :: i < j < |items| ==> items[j].name != items[i].name
    ensures items[i].name in ItemsMap(items)
    ensures ItemsMap(items)[items[i].name] == AnnotationsFrom(items[i].annotations)
    decreases |items|
  {
    var n := |items| - 1;
    if i < n {
      var init := items[..n];
      assert init[i] == items[i];
      assert forall j :: i < j < n ==> init[j] == items[j];
      ItemsMapLastWins(init, i);
    }
  }

  /** The loop of NamespaceAnnotationsBatch that fills the map from the decoded items. */
  method AnnotationsMap(items: seq<NamespaceResponse>) returns (kaaMap: map<string, KAAnnotations>)
    ensures kaaMap == ItemsMap(items)
  {
    kaaMap := map[];
    var i := 0;
    while i < |items|
      invariant 0 <= i <= |items|
      invariant kaaMap == ItemsMap(items[..i])
    {
      assert items[..i + 1][..i] == items[..i];
      var n := items[i];
      kaaMap := kaaMap[n.name := AnnotationsFrom(n.annotations)];
      i := i + 1;
    }
    assert items[..i] == items;
  }

  // ---------------------------------------------------------------------
  // Argument vectors
  // ---------------------------------------------------------------------

  const KubeconfigFlag := "--kubeconfig=" + KubeconfigFilePath

  /** The flag pointing kubectl at the written kubeconfig, present exactly when a server is configured. */
  function KubeconfigArgs(server: string): seq<string>
  {
    if server != "" then [KubeconfigFlag] else []
  }

  function DryRunFlag(dryRun: bool): string
  {
    "--server-dry-run=" + Strconv.FormatBool(dryRun)
  }

  function WhitelistFlags(kinds: seq<string>): (flags: seq<string>)
    ensures |flags| == |kinds|
  {
    seq(|kinds|, i requires 0 <= i < |kinds| => "--prune-whitelist=" + kinds[i])
  }

  lemma WhitelistFlagsStep(kinds: seq<string>, i: nat)
    requires i < |kinds|
    ensures WhitelistFlags(kinds[..i + 1]) == WhitelistFlags(kinds[..i]) + ["--prune-whitelist=" + kinds[i]]
  {
  }

  function PruneFlags(): seq<string>
  {
    ["--prune", "--all"] + WhitelistFlags(PruneWhitelist)
  }

  /** The first tokens of an apply: the manifests at `path`, as a kustomization or recursively. */
  function ApplyHead(path: string, namespace: string, dryRun: bool, kustomize: bool): seq<string>
  {
    if kustomize then ["kubectl", "apply", DryRunFlag(dryRun), "-k", path, "-n", namespace]
    else ["kubectl", "apply", DryRunFlag(dryRun), "-R", "-f", path, "-n", namespace]
  }

  /** The argument vector Client.Apply runs. */
  function ApplyArgv(server: string, path: string, namespace: string, dryRun: bool, prune: bool, kustomize: bool): (argv: seq<string>)
    ensures |argv| >= 7 && argv[0] == "kubectl" && argv[1] == "apply"
    ensures server != "" ==> argv[|argv| - 1] == KubeconfigFlag
  {
    ApplyHead(path, namespace, dryRun, kustomize) + (if prune then PruneFlags() else []) + KubeconfigArgs(server)
  }

  /** The argument vector of NamespaceAnnotations. */
  function NamespaceArgs(server: string, namespace: string): (argv: seq<string>)
    ensures |argv| == 6 + (if server != "" then 1 else 0)
    ensures argv[..6] == ["kubectl", "get", "namespace", namespace, "-o", "json"]
    ensures server != "" ==> argv[6] == KubeconfigFlag
  {
    ["kubectl", "get", "namespace", namespace, "-o", "json"] + KubeconfigArgs(server)
  }

  /** The argument vector of NamespaceAnnotationsBatch for more than one namespace. */
  function NamespaceListArgs(server: string, namespaces: seq<string>): (argv: seq<string>)
    ensures |argv| == 5 + |namespaces| + (if server != "" then 1 else 0)
    ensures argv[..5] == ["kubectl", "get", "namespace", "-o", "json"]
    ensures argv[5..5 + |namespaces|] == namespaces
    ensures server != "" ==> argv[|argv| - 1] == KubeconfigFlag
  {
    var argv := ["kubectl", "get", "namespace", "-o", "json"] + namespaces + KubeconfigArgs(server);
    assert argv[5..5 + |namespaces|] == namespaces;
    argv
  }

  /**
   * The whitelist has eleven distinct kinds and no Secret: pruning never
   * deletes credentials.
   */
  lemma PruneWhitelistFacts()
    ensures |PruneWhitelist| == 11
    ensures forall i, j :: 0 <= i < j < |PruneWhitelist| ==> PruneWhitelist[i] != PruneWhitelist[j]
    ensures forall i :: 0 <= i < |PruneWhitelist| ==> PruneWhitelist[i] != "core/v1/Secret"
  {
  }

  /** What an apply argument vector asks of kubectl. */
  datatype ApplyRequest = ApplyRequest(
    path: string, namespace: string, dryRun: bool, prune: bool, kustomize: bool, kubeconfig: bool)

  function ParseDryRunFlag(token: string): Option<bool>
  {
    if token == DryRunFlag(true) then Some(true)
    else if token == DryRunFlag(false) then Some(false)
    else None
  }

  /** Reads the pruning flags and the kubeconfig flag that end an apply argument vector. */
  function ParseApplyTail(rest: seq<string>): Option<(bool, bool)>
  {
    var flags := PruneFlags();
    var prune := |rest| >= |flags| && rest[..|flags|] == flags;
    var after := if prune then rest[|flags|..] else rest;
    if after == [] then Some((prune, false))
    else if after == [KubeconfigFlag] then Some((prune, true))
    else None
  }

  /** The reading of an apply argument vector: the reference the vector is checked against. */
  function ParseApplyArgv(argv: seq<string>): Option<ApplyRequest>
  {
    if |argv| < 7 || argv[0] != "kubectl" || argv[1] != "apply" then None
    else match ParseDryRunFlag(argv[2])
      case None => None
      case Some(dryRun) =>
        var kustomize := argv[3] == "-k";
        if !kustomize && (|argv| < 8 || argv[3] != "-R" || argv[4] != "-f") then None
        else
          var at := if kustomize then 4 else 5;
          if argv[at + 1] != "-n" then None
          else match ParseApplyTail(argv[at + 3..])
            case None => None
            case Some(tail) => Some(ApplyRequest(argv[at], argv[at + 2], dryRun, tail.0, kustomize, tail.1))
  }

  /** The flags after the namespace read back as the prune setting and whether a kubeconfig is passed. */
  lemma ParseApplyTailRoundTrip(server: string, prune: bool)
    ensures ParseApplyTail((if prune then PruneFlags() else []) + KubeconfigArgs(server)) == Some((prune, server != ""))
  {
    var tail := (if prune then PruneFlags() else []) + KubeconfigArgs(server);
    var flags := PruneFlags();
    assert |flags| == 13;
    if prune {
      assert tail[..|flags|] == flags;
      assert tail[|flags|..] == KubeconfigArgs(server);
    } else {
      assert |tail| < |flags|;
    }
  }

  lemma ParseDryRunFlagRoundTrip(dryRun: bool)
    ensures ParseDryRunFlag(DryRunFlag(dryRun)) == Some(dryRun)
  {
    assert DryRunFlag(true)[17] != DryRunFlag(false)[17];
  }

  /** The head of an apply reads back as its path, namespace, dry-run and kustomize settings, for any tail the tail parser reads. */
  lemma ParseApplyHead(path: string, namespace: string, dryRun: bool, kustomize: bool, tail: seq<string>)
    requires ParseApplyTail(tail).Some?
    ensures var t := ParseApplyTail(tail).value;
            ParseApplyArgv(ApplyHead(path, namespace, dryRun, kustomize) + tail)
              == Some(ApplyRequest(path, namespace, dryRun, t.0, kustomize, t.1))
  {
    var argv := ApplyHead(path, namespace, dryRun, kustomize) + tail;
    ParseDryRunFlagRoundTrip(dryRun);
    if kustomize {
      assert argv[7..] == tail;
    } else {
      assert "-R" != "-k" by {
        assert "-R"[1] != "-k"[1];
      }
      assert argv[8..] == tail;
    }
  }

  /**
   * The argument vector of an apply encodes every input unambiguously:
   * reading it back gives the path, namespace, dry-run, prune and kustomize
   * settings, and whether a server (hence a kubeconfig) is configured.
   */
  lemma ApplyArgvRoundTrip(server: string, path: string, namespace: string, dryRun: bool, prune: bool, kustomize: bool)
    ensures ParseApplyArgv(ApplyArgv(server, path, namespace, dryRun, prune, kustomize))
         == Some(ApplyRequest(path, namespace, dryRun, prune, kustomize, server != ""))
  {
    var tail := (if prune then PruneFlags() else []) + KubeconfigArgs(server);
    assert ApplyArgv(server, path, namespace, dryRun, prune, kustomize) == ApplyHead(path, namespace, dryRun, kustomize) + tail;
    ParseApplyTailRoundTrip(server, prune);
    ParseApplyHead(path, namespace, dryRun, kustomize, tail);
  }

  /** Consequently distinct inputs never produce the same argument vector. */
  lemma ApplyArgvInjective(
    server: string, path: string, namespace: string, dryRun: bool, prune: bool, kustomize: bool,
    server': string, path': string, namespace': string, dryRun': bool, prune': bool, kustomize': bool)
    requires ApplyArgv(server, path, namespace, dryRun, prune, kustomize)
          == ApplyArgv(server', path', namespace', dryRun', prune', kustomize')
    ensures path == path' && namespace == namespace' && dryRun == dryRun'
    ensures prune == prune' && kustomize == kustomize' && (server != "") == (server' != "")
  {
    ApplyArgvRoundTrip(server, path, namespace, dryRun, prune, kustomize);
    ApplyArgvRoundTrip(server', path', namespace', dryRun', prune', kustomize');
  }

  lemma PruneFlagsLength()
    ensures |PruneFlags()| == 13
  {
  }

  /** The prune flags: --prune, --all, then one --prune-whitelist flag per kind in list order. */
  lemma PruneFlagsLayout()
    ensures |PruneFlags()| == 13
    ensures PruneFlags()[0] == "--prune" && PruneFlags()[1] == "--all"
    ensures forall i :: 0 <= i < 11 ==> PruneFlags()[2 + i] == "--prune-whitelist=" + PruneWhitelist[i]
  {
  }

  /** Where each input lands in the apply argument vector. */
  lemma ApplyArgvLayout(server: string, path: string, namespace: string, dryRun: bool, prune: bool, kustomize: bool)
    ensures var argv := ApplyArgv(server, path, namespace, dryRun, prune, kustomize);
            var n := if kustomize then 7 else 8;
            && |argv| == n + (if prune then 13 else 0) + (if server != "" then 1 else 0)
            && argv[..3] == ["kubectl", "apply", "--server-dry-run=" + Strconv.FormatBool(dryRun)]
            && (kustomize ==> argv[3..7] == ["-k", path, "-n", namespace])
            && (!kustomize ==> argv[3..8] == ["-R", "-f", path, "-n", namespace])
            && (prune ==> argv[n..n + 13] == PruneFlags())
            && (server != "" ==> argv[|argv| - 1] == KubeconfigFlag)
  {
    var head := ApplyHead(path, namespace, dryRun, kustomize);
    var tail := (if prune then PruneFlags() else []) + KubeconfigArgs(server);
    var argv := ApplyArgv(server, path, namespace, dryRun, prune, kustomize);
    var n := if kustomize then 7 else 8;
    PruneFlagsLength();
    assert argv == head + tail && |head| == n;
    assert argv[..3] == head[..3];
    if kustomize {
      assert argv[3..7] == head[3..7];
    } else {
      assert argv[3..8] == head[3..8];
    }
    if prune {
      assert argv[n..n + 13] == tail[..13];
    }
    if server != "" {
      assert argv[|argv| - 1] == tail[|tail| - 1];
    }
  }

  /**
   * The command string is the argument vector joined with single spaces;
   * when neither the path nor the namespace holds a space, it splits back
   * into exactly the vector that was run.
   */
  lemma ApplyCommandStringRoundTrip(server: string, path: string, namespace: string, dryRun: bool, prune: bool, kustomize: bool)
    requires ' ' !in path && ' ' !in namespace
    ensures var argv := ApplyArgv(server, path, namespace, dryRun, prune, kustomize);
            Strings.Split(Strings.Join(argv, ' '), ' ') == argv
  {
    var argv := ApplyArgv(server, path, namespace, dryRun, prune, kustomize);
    var head := ApplyHead(path, namespace, dryRun, kustomize);
    var tail := (if prune then PruneFlags() else []) + KubeconfigArgs(server);
    HeadHasNoSpaces(path, namespace, dryRun, kustomize);
    TailHasNoSpaces(server, prune);
    NoSpacesAppend(head, tail);
    assert argv == head + tail && |head| >= 1;
    assert NoSpaces(argv);
    Strings.SplitJoin(argv, ' ');
  }

  predicate NoSpaces(tokens: seq<string>)
  {
    forall i :: 0 <= i < |tokens| ==> ' ' !in tokens[i]
  }

  lemma NoSpacesAppend(xs: seq<string>, ys: seq<string>)
    requires NoSpaces(xs) && NoSpaces(ys)
    ensures NoSpaces(xs + ys)
  {
    assert forall i :: 0 <= i < |xs| ==> (xs + ys)[i] == xs[i];
    assert forall i :: |xs| <= i < |xs + ys| ==> (xs + ys)[i] == ys[i - |xs|];
  }

  lemma HeadHasNoSpaces(path: string, namespace: string, dryRun: bool, kustomize: bool)
    requires ' ' !in path && ' ' !in namespace
    ensures NoSpaces(ApplyHead(path, namespace, dryRun, kustomize))
  {
    assert ' ' !in DryRunFlag(dryRun);
  }

  lemma TailHasNoSpaces(server: string, prune: bool)
    ensures NoSpaces((if prune then PruneFlags() else []) + KubeconfigArgs(server))
  {
    PruneFlagsHaveNoSpaces();
    assert ' ' !in KubeconfigFlag;
    NoSpacesAppend(if prune then PruneFlags() else [], KubeconfigArgs(server));
  }

  lemma WhitelistKindsHaveNoSpaces()
    ensures forall i :: 0 <= i < |PruneWhitelist| ==> ' ' !in PruneWhitelist[i]
  {
  }

  lemma WhitelistFlagsHaveNoSpaces(kinds: seq<string>)
    requires forall i :: 0 <= i < |kinds| ==> ' ' !in kinds[i]
    ensures forall i :: 0 <= i < |kinds| ==> ' ' !in WhitelistFlags(kinds)[i]
  {
    forall i | 0 <= i < |kinds|
      ensures ' ' !in WhitelistFlags(kinds)[i]
    {
      assert WhitelistFlags(kinds)[i] == "--prune-whitelist=" + kinds[i];
    }
  }

  lemma PruneFlagsHaveNoSpaces()
    ensures NoSpaces(PruneFlags())
  {
    WhitelistKindsHaveNoSpaces();
    WhitelistFlagsHaveNoSpaces(PruneWhitelist);
    var w := WhitelistFlags(PruneWhitelist);
    assert forall i :: 2 <= i < |PruneFlags()| ==> PruneFlags()[i] == w[i - 2];
  }

  /** The loop of Client.Apply that adds one --prune-whitelist flag per kind, in list order. */
  method AppendWhitelistFlags(args: seq<string>, kinds: seq<string>) returns (args': seq<string>)
    ensures args' == args + WhitelistFlags(kinds)
  {
    args' := args;
    var i := 0;
    while i < |kinds|
      invariant 0 <= i <= |kinds|
      invariant args' == args + WhitelistFlags(kinds[..i])
    {
      WhitelistFlagsStep(kinds, i);
      args' := args' + ["--prune-whitelist=" + kinds[i]];
      i := i + 1;
    }
    assert kinds[..i] == kinds;
  }

  /** The pruning flags for a whitelist: --prune, --all, one --prune-whitelist flag per kind. */
  method AppendPruneFlags(args: seq<string>, kinds: seq<string>) returns (args': seq<string>)
    ensures args' == args + ["--prune", "--all"] + WhitelistFlags(kinds)
  {
    args' := args + ["--prune"];
    args' := args' + ["--all"];
    args' := AppendWhitelistFlags(args', kinds);
  }

  /** Client.Apply's argument vector, grown as the source grows it: the head, the prune flags, the kubeconfig flag. */
  method BuildApplyArgs(server: string, path: string, namespace: string, dryRun: bool, prune: bool, kustomize: bool)
    returns (args: seq<string>)
    ensures args == ApplyArgv(server, path, namespace, dryRun, prune, kustomize)
  {
    if kustomize {
      args := ["kubectl", "apply", DryRunFlag(dryRun), "-k", path, "-n", namespace];
    } else {
      args := ["kubectl", "apply", DryRunFlag(dryRun), "-R", "-f", path, "-n", namespace];
    }
    assert args == ApplyHead(path, namespace, dryRun, kustomize);
    if prune {
      args := AppendPruneFlags(args, PruneWhitelist);
      assert args == ApplyHead(path, namespace, dryRun, kustomize) + PruneFlags();
    } else {
      assert args == ApplyHead(path, namespace, dryRun, kustomize) + [];
    }
    ghost var beforeKubeconfig := args;
    if server != "" {
      args := args + [KubeconfigFlag];
    }
    assert args == beforeKubeconfig + KubeconfigArgs(server);
  }

  // ---------------------------------------------------------------------
  // Client
  // ---------------------------------------------------------------------

  /** The kubectl_exit_code_count a kubectl run leaves: a failed run that exited counts its code, a success counts 0. */
  function ExitCodeCounts(counts: map<Metrics.ExitCodeLabels, nat>, err: Option<Error>, onError: string, onSuccess: string)
    : (r: map<Metrics.ExitCodeLabels, nat>)
    ensures err.None? ==> CountedOnce(counts, r, Metrics.ExitCodeLabelsFor(onSuccess, 0))
    ensures err.Some? && err.value.ExitError? ==> CountedOnce(counts, r, Metrics.ExitCodeLabelsFor(onError, err.value.code))
    ensures err.Some? && err.value.OtherError? ==> r == counts
  {
    match err
    case None => Metrics.Inc(counts, Metrics.ExitCodeLabelsFor(onSuccess, 0))
    case Some(ExitError(code, _)) => Metrics.Inc(counts, Metrics.ExitCodeLabelsFor(onError, code))
    case Some(OtherError(_)) => counts
  }

  /**
   * Client.Apply counts a success under its path and a failure under its
   * namespace; since the namespace is the path's last element, both land
   * on the same label.
   */
  lemma ExitCodeLabelsAgree(path: string, code: int)
    ensures Metrics.ExitCodeLabelsFor(Filepath.Base(path), code) == Metrics.ExitCodeLabelsFor(path, code)
  {
    Filepath.BaseIdempotent(path);
  }

  /** `after` is `before` with the counter under `key` raised by one and every other counter unchanged. */
  ghost predicate CountedOnce(before: map<Metrics.ExitCodeLabels, nat>, after: map<Metrics.ExitCodeLabels, nat>, key: Metrics.ExitCodeLabels)
  {
    && Metrics.Count(after, key) == Metrics.Count(before, key) + 1
    && forall l :: l != key ==> Metrics.Count(after, l) == Metrics.Count(before, l)
  }

  /** What NamespaceAnnotations returns: the triple, or the empty triple and the error. */
  function NamespaceLookup(kubectl: Kubectl, server: string, namespace: string): (r: (KAAnnotations, Option<Error>))
    ensures var res := kubectl.run(NamespaceArgs(server, namespace), Combined);
            && (r.1.Some? ==> r.0 == NoAnnotations)
            && (res.err.Some? ==> r.1 == res.err)
            && (r.1.None? <==> res.err.None? && kubectl.decodeNamespace(res.output).Ok?)
            && (res.err.None? && kubectl.decodeNamespace(res.output).Err? ==> r.1 == Some(kubectl.decodeNamespace(res.output).error))
            && (r.1.None? ==> r.0 == AnnotationsFrom(kubectl.decodeNamespace(res.output).value.annotations))
  {
    var res := kubectl.run(NamespaceArgs(server, namespace), Combined);
    if res.err.Some? then (NoAnnotations, res.err)
    else match kubectl.decodeNamespace(res.output)
      case Err(e) => (NoAnnotations, Some(e))
      case Ok(nr) => (AnnotationsFrom(nr.annotations), None)
  }

  /** Client: talks to the API server through kubectl, counting every exit code. */
  class Client {
    const server: string
    const labelText: string
    const metrics: Metrics.Prometheus
    const kubectl: Kubectl

    constructor (server: string, labelText: string, metrics: Metrics.Prometheus, kubectl: Kubectl)
      ensures this.server == server && this.labelText == labelText && this.metrics == metrics && this.kubectl == kubectl
    {
      this.server := server;
      this.labelText := labelText;
      this.metrics := metrics;
      this.kubectl := kubectl;
    }

    /**
     * Runs kubectl apply on `path` and returns the command string and its
     * output, on failure as well as on success.
     */
    method Apply(path: string, namespace: string, dryRun: bool, prune: bool, kustomize: bool)
      returns (cmd: string, out: string, err: Option<Error>)
      modifies metrics`kubectlExitCodeCount
      ensures var argv := ApplyArgv(server, path, namespace, dryRun, prune, kustomize);
              var res := kubectl.run(argv, Combined);
              && cmd == Strings.Join(argv, ' ') && out == res.output && err == res.err
              && metrics.kubectlExitCodeCount
                 == ExitCodeCounts(old(metrics.kubectlExitCodeCount), res.err, namespace, path)
    {
      var args := BuildApplyArgs(server, path, namespace, dryRun, prune, kustomize);
      cmd := Strings.Join(args, ' ');
      var res := kubectl.run(args, Combined);
      out := res.output;
      err := res.err;
      if err.Some? {
        if err.value.ExitError? {
          metrics.UpdateKubectlExitCodeCount(namespace, err.value.code);
        }
        return;
      }
      metrics.UpdateKubectlExitCodeCount(path, 0);
    }

    /** Reads the kube-applier annotations of one Namespace. */
    method NamespaceAnnotations(namespace: string) returns (kaa: KAAnnotations, err: Option<Error>)
      modifies metrics`kubectlExitCodeCount
      ensures (kaa, err) == NamespaceLookup(kubectl, server, namespace)
      ensures err.Some? ==> kaa == NoAnnotations
      ensures var res := kubectl.run(NamespaceArgs(server, namespace), Combined);
              metrics.kubectlExitCodeCount
              == ExitCodeCounts(old(metrics.kubectlExitCodeCount), res.err, namespace, namespace)
    {
      kaa := NoAnnotations;
      var args := ["kubectl", "get", "namespace", namespace, "-o", "json"];
      if server != "" {
        args := args + ["--kubeconfig=" + KubeconfigFilePath];
      }
      assert args == NamespaceArgs(server, namespace);
      var res := kubectl.run(args, Combined);
      if res.err.Some? {
        if res.err.value.ExitError? {
          metrics.UpdateKubectlExitCodeCount(namespace, res.err.value.code);
        }
        return kaa, res.err;
      }
      metrics.UpdateKubectlExitCodeCount(namespace, 0);
      var decoded := kubectl.decodeNamespace(res.output);
      if decoded.Err? {
        return kaa, Some(decoded.error);
      }
      kaa := AnnotationsFrom(decoded.value.annotations);
      err := None;
    }

    /**
     * Reads the annotations of several Namespaces: none needs no command,
     * one is a single lookup, more are one `kubectl get namespace` of them
     * all. An error gives the empty map, never a partial one.
     */
    method NamespaceAnnotationsBatch(namespaces: seq<string>)
      returns (kaaMap: map<string, KAAnnotations>, err: Option<Error>)
      modifies metrics`kubectlExitCodeCount
      ensures err.Some? ==> kaaMap == map[]
      ensures |namespaces| == 0 ==>
                && kaaMap == map[] && err == None
                && metrics.kubectlExitCodeCount == old(metrics.kubectlExitCodeCount)
      ensures |namespaces| == 1 ==>
                var ns := namespaces[0];
                var (kaa, e) := NamespaceLookup(kubectl, server, ns);
                && err == e && (e.None? ==> kaaMap == map[ns := kaa])
                && metrics.kubectlExitCodeCount
                   == ExitCodeCounts(old(metrics.kubectlExitCodeCount), kubectl.run(NamespaceArgs(server, ns), Combined).err, ns, ns)
      ensures |namespaces| > 1 ==>
                var argv := NamespaceListArgs(server, namespaces);
                var res := kubectl.run(argv, StdoutOnly);
                && metrics.kubectlExitCodeCount == ExitCodeCounts(old(metrics.kubectlExitCodeCount), res.err, "", "")
                && (res.err.Some? ==> err == res.err)
                && (res.err.None? ==>
                      match kubectl.decodeNamespaceList(res.output)
                      case Err(e) => err == Some(e)
                      case Ok(items) => err == None && kaaMap == ItemsMap(items))
    {
      kaaMap := map[];
      if |namespaces| == 1 {
        var kaa;
        kaa, err := NamespaceAnnotations(namespaces[0]);
        if err.Some? {
          return;
        }
        kaaMap := kaaMap[namespaces[0] := kaa];
        return;
      } else if |namespaces| > 1 {
        var args := ["kubectl", "get", "namespace", "-o", "json"];
        args := args + namespaces;
        if server != "" {
          args := args + ["--kubeconfig=" + KubeconfigFilePath];
        }
        assert args == NamespaceListArgs(server, namespaces);
        var res := kubectl.run(args, StdoutOnly);
        if res.err.Some? {
          if res.err.value.ExitError? {
            metrics.UpdateKubectlExitCodeCount("", res.err.value.code);
          }
          return kaaMap, res.err;
        }
        metrics.UpdateKubectlExitCodeCount("", 0);
        var decoded := kubectl.decodeNamespaceList(res.output);
        if decoded.Err? {
          return kaaMap, Some(decoded.error);
        }
        kaaMap := AnnotationsMap(decoded.value);
      }
      err := None;
    }
  }
}
