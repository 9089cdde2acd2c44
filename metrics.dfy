/**
 * The metrics package: the parser for kubectl's per-object output lines and
 * the counters and gauges that kube-applier keeps, as maps from label tuples.
 */
module Metrics {
  import Strings
  import Strconv
  import Filepath

  // ---------------------------------------------------------------------
  // Parsing kubectl output
  // ---------------------------------------------------------------------

  /** One object line of kubectl's output: "<type>/<name> <action>". */
  datatype Result = Result(kind: string, name: string, action: string)

  /** What parseKubectlOutput makes of one line. */
  datatype LineParse =
    | Dropped           // fewer than two space-separated pieces
    | Kept(result: Result)
    | OutOfRange        // the first piece has no '/', so os[1] panics

  /** What parseKubectlOutput makes of a whole output. */
  datatype ParseOutcome =
    | Results(results: seq<Result>)
    | IndexOutOfRange(line: nat)   // the index of the line that panics

  function ParseLine(line: string): (p: LineParse)
    ensures p.Dropped? <==> ' ' !in line
    ensures p.OutOfRange? <==> ' ' in line && '/' !in Strings.Split(line, ' ')[0]
    ensures p.Kept? ==> '/' !in p.result.name && ' ' !in p.result.action
  {
    var o := Strings.Split(line, ' ');
    if |o| < 2 then Dropped
    else
      var os := Strings.Split(o[0], '/');
      if |os| < 2 then OutOfRange else Kept(Result(os[0], os[1], o[1]))
  }

  /**
   * Where the fields of a kept line come from. With `h` the index of the
   * line's first space: the line starts with Type "/" Name before that
   * space, Type runs to the first '/', Name runs to the next '/' or to the
   * space, and Action is the text after the first space up to the next
   * space or the end of the line; anything further is ignored.
   */
  lemma ParseLineFields(line: string)
    requires ParseLine(line).Kept?
    ensures var r := ParseLine(line).result;
            var h := |Strings.Split(line, ' ')[0]|;
            var k := |r.kind| + 1 + |r.name|;
            && h < |line| && line[h] == ' ' && ' ' !in line[..h]
            && k <= h && line[..k] == r.kind + "/" + r.name
            && '/' !in r.kind && '/' !in r.name
            && (k < h ==> line[k] == '/')
            && h + 1 + |r.action| <= |line| && line[h + 1..h + 1 + |r.action|] == r.action && ' ' !in r.action
            && (h + 1 + |r.action| < |line| ==> line[h + 1 + |r.action|] == ' ')
  {
    KeptFirstSpace(line);
    KeptNoSlash(line);
    KeptTypeAndName(line);
    KeptAction(line);
  }

  /** A kept line has a space; the first piece is everything before the first one. */
  lemma KeptFirstSpace(line: string)
    requires ParseLine(line).Kept?
    ensures var h := |Strings.Split(line, ' ')[0]|;
            h < |line| && line[h] == ' ' && ' ' !in line[..h]
  {
    Strings.FirstPieceEnds(line, ' ');
  }

  /** A kept line starts with Type "/" Name, followed by a '/' or the first space. */
  lemma KeptTypeAndName(line: string)
    requires ParseLine(line).Kept?
    ensures var r := ParseLine(line).result;
            var h := |Strings.Split(line, ' ')[0]|;
            var k := |r.kind| + 1 + |r.name|;
            && h < |line| && k <= h && line[..k] == r.kind + "/" + r.name
            && (k < h ==> line[k] == '/')
  {
    var o := Strings.Split(line, ' ');
    var os := Strings.Split(o[0], '/');
    KeptPieces(line);
    assert ParseLine(line).result.kind == os[0] && ParseLine(line).result.name == os[1];
    FirstPieceLayout(line);
  }

  /** A line whose first piece holds a '/' starts with the two parts of that piece joined by '/'. */
  lemma FirstPieceLayout(line: string)
    requires |Strings.Split(line, ' ')| >= 2 && |Strings.Split(Strings.Split(line, ' ')[0], '/')| >= 2
    ensures var head := Strings.Split(line, ' ')[0];
            var os := Strings.Split(head, '/');
            var k := |os[0]| + 1 + |os[1]|;
            && |head| < |line| && k <= |head| && line[..k] == os[0] + "/" + os[1]
            && (k < |head| ==> line[k] == '/')
  {
    var head := Strings.Split(line, ' ')[0];
    var os := Strings.Split(head, '/');
    Strings.FirstPieceEnds(line, ' ');
    HeadFields(head);
    TypeNamePrefix(line, head, os[0], os[1]);
  }

  /** A prefix that starts with `kind` "/" `name` makes the whole string start so too. */
  lemma TypeNamePrefix(line: string, head: string, kind: string, name: string)
    requires |head| < |line| && line[..|head|] == head
    requires var k := |kind| + 1 + |name|;
             k <= |head| && head[..k] == kind + "/" + name && (k < |head| ==> head[k] == '/')
    ensures var k := |kind| + 1 + |name|;
            line[..k] == kind + "/" + name && (k < |head| ==> line[k] == '/')
  {
    PrefixOfPrefix(line, head, |kind| + 1 + |name|);
  }

  /** Neither the Type nor the Name of a kept line holds a '/'. */
  lemma KeptNoSlash(line: string)
    requires ParseLine(line).Kept?
    ensures '/' !in ParseLine(line).result.kind && '/' !in ParseLine(line).result.name
  {
    KeptPieces(line);
  }

  /** Within a prefix of a string, the string and the prefix agree. */
  lemma PrefixOfPrefix(s: string, prefix: string, k: nat)
    requires |prefix| <= |s| && s[..|prefix|] == prefix && k <= |prefix|
    ensures s[..k] == prefix[..k]
    ensures k < |prefix| ==> s[k] == prefix[k]
  {
    assert s[..k] == s[..|prefix|][..k];
    if k < |prefix| {
      assert s[k] == s[..|prefix|][k];
    }
  }

  /** The Action of a kept line runs from after the first space to the next space or the end. */
  lemma KeptAction(line: string)
    requires ParseLine(line).Kept?
    ensures var r := ParseLine(line).result;
            var h := |Strings.Split(line, ' ')[0]|;
            && h + 1 + |r.action| <= |line| && line[h + 1..h + 1 + |r.action|] == r.action && ' ' !in r.action
            && (h + 1 + |r.action| < |line| ==> line[h + 1 + |r.action|] == ' ')
  {
    var o := Strings.Split(line, ' ');
    KeptPieces(line);
    assert ParseLine(line).result.action == o[1];
    Strings.SecondPiece(line, ' ');
  }

  /** A kept line's Result is the two parts of its first piece and its second piece. */
  lemma KeptPieces(line: string)
    requires ParseLine(line).Kept?
    ensures var o := Strings.Split(line, ' ');
            && |o| >= 2 && |Strings.Split(o[0], '/')| >= 2
            && ParseLine(line).result.kind == Strings.Split(o[0], '/')[0]
            && ParseLine(line).result.name == Strings.Split(o[0], '/')[1]
            && ParseLine(line).result.action == o[1]
            && ' ' !in o[1] && '/' !in Strings.Split(o[0], '/')[0] && '/' !in Strings.Split(o[0], '/')[1]
  {
    var o := Strings.Split(line, ' ');
    assert ' ' !in o[1];
    var os := Strings.Split(o[0], '/');
    assert '/' !in os[0] && '/' !in os[1];
  }

  /** A first piece with a '/' starts with Type "/" Name, Name ending at the next '/' or the end of the piece. */
  lemma HeadFields(head: string)
    requires |Strings.Split(head, '/')| >= 2
    ensures var os := Strings.Split(head, '/');
            var k := |os[0]| + 1 + |os[1]|;
            && k <= |head| && head[..k] == os[0] + "/" + os[1]
            && (k < |head| ==> head[k] == '/')
  {
    var os := Strings.Split(head, '/');
    Strings.FirstTwoPieces(head, '/');
    var k := |os[0]| + 1 + |os[1]|;
    assert head[..k] == head[..|os[0]|] + [head[|os[0]|]] + head[|os[0]| + 1..k];
  }

  /** The lines of an output, parsed in order, stopping at the first line that panics. */
  function ParseLines(lines: seq<string>): (r: ParseOutcome)
    ensures r.Results? ==> |r.results| <= |lines|
    ensures r.Results? <==> forall i :: 0 <= i < |lines| ==> !ParseLine(lines[i]).OutOfRange?
    ensures r.IndexOutOfRange? ==>
              && r.line < |lines| && ParseLine(lines[r.line]).OutOfRange?
              && forall i :: 0 <= i < r.line ==> !ParseLine(lines[i]).OutOfRange?
    decreases |lines|
  {
    if lines == [] then Results([])
    else
      var init := lines[..|lines| - 1];
      assert forall i :: 0 <= i < |init| ==> init[i] == lines[i];
      match ParseLines(init)
      case IndexOutOfRange(k) => IndexOutOfRange(k)
      case Results(rs) =>
        match ParseLine(lines[|lines| - 1])
        case Dropped => Results(rs)
        case Kept(res) => Results(rs + [res])
        case OutOfRange => IndexOutOfRange(|lines| - 1)
  }

  /** The meaning of parseKubectlOutput: split on "\n", then parse line by line. */
  function ParsedOutput(output: string): ParseOutcome
  {
    ParseLines(Strings.Split(output, '\n'))
  }

  /** One more line extends the parse of the lines before it. */
  lemma ParseLinesStep(lines: seq<string>, i: nat)
    requires i < |lines| && ParseLines(lines[..i]).Results?
    ensures ParseLines(lines[..i + 1]) ==
              match ParseLine(lines[i])
              case Dropped => ParseLines(lines[..i])
              case Kept(r) => Results(ParseLines(lines[..i]).results + [r])
              case OutOfRange => IndexOutOfRange(i)
  {
    assert lines[..i + 1][..i] == lines[..i];
  }

  /** The first line that panics decides the outcome of the whole output. */
  lemma ParseLinesStopsAt(lines: seq<string>, i: nat)
    requires i < |lines| && ParseLines(lines[..i]).Results? && ParseLine(lines[i]).OutOfRange?
    ensures ParseLines(lines) == IndexOutOfRange(i)
  {
    forall j | 0 <= j < i
      ensures !ParseLine(lines[j]).OutOfRange?
    {
      assert lines[..i][j] == lines[j];
    }
    var p := ParseLines(lines);
    assert !p.Results?;
    assert !(p.line < i);
    assert !(i < p.line);
  }

  /** parseKubectlOutput, which appends one Result per well-formed line. */
  method ParseKubectlOutput(output: string) returns (outcome: ParseOutcome)
    ensures outcome == ParsedOutput(output)
  {
    var lines := Strings.Split(output, '\n');
    var results: seq<Result> := [];
    var i := 0;
    while i < |lines|
      invariant 0 <= i <= |lines|
      invariant ParseLines(lines[..i]) == Results(results)
    {
      ParseLinesStep(lines, i);
      var o := Strings.Split(lines[i], ' ');
      if |o| < 2 {
        i := i + 1;
        continue;
      }
      var os := Strings.Split(o[0], '/');
      if |os| < 2 {
        ParseLinesStopsAt(lines, i);
        return IndexOutOfRange(i);
      }
      results := results + [Result(os[0], os[1], o[1])];
      i := i + 1;
    }
    assert lines[..i] == lines;
    outcome := Results(results);
  }

  /** Parsing two runs of lines one after the other concatenates their results. */
  lemma {:induction false} ParseLinesAppend(a: seq<string>, b: seq<string>)
    requires ParseLines(a).Results? && ParseLines(b).Results?
    ensures ParseLines(a + b) == Results(ParseLines(a).results + ParseLines(b).results)
    decreases |b|
  {
    if b == [] {
      assert a + b == a;
    } else {
      var b' := b[..|b| - 1];
      assert (a + b)[..|a + b| - 1] == a + b';
      assert ParseLines(b').Results?;
      ParseLinesAppend(a, b');
    }
  }

  /** A well-formed object line, as kubectl prints it. */
  function Render(r: Result): string
  {
    r.kind + "/" + r.name + " " + r.action
  }

  /** The fields a Result can hold and still be printed and read back unchanged. */
  predicate Printable(r: Result)
  {
    && '/' !in r.kind && ' ' !in r.kind && '\n' !in r.kind
    && '/' !in r.name && ' ' !in r.name && '\n' !in r.name
    && ' ' !in r.action && '\n' !in r.action
  }

  function RenderAll(rs: seq<Result>): (lines: seq<string>)
    ensures |lines| == |rs|
  {
    seq(|rs|, i requires 0 <= i < |rs| => Render(rs[i]))
  }

  lemma ParseRenderedLine(r: Result)
    requires Printable(r)
    ensures ParseLine(Render(r)) == Kept(r)
  {
    var head := r.kind + "/" + r.name;
    assert Render(r) == head + [' '] + r.action;
    assert ' ' !in head;
    Strings.SplitAtFirst(head, ' ', r.action);
    Strings.SplitNoSeparator(r.action, ' ');
    assert Strings.Split(Render(r), ' ') == [head, r.action];
    Strings.SplitAtFirst(r.kind, '/', r.name);
    Strings.SplitNoSeparator(r.name, '/');
    assert Strings.Split(head, '/') == [r.kind, r.name];
  }

  lemma {:induction false} ParseRenderedLines(rs: seq<Result>)
    requires forall i :: 0 <= i < |rs| ==> Printable(rs[i])
    ensures ParseLines(RenderAll(rs)) == Results(rs)
    decreases |rs|
  {
    if rs != [] {
      var init := rs[..|rs| - 1];
      assert RenderAll(rs)[..|rs| - 1] == RenderAll(init);
      ParseRenderedLines(init);
      ParseRenderedLine(rs[|rs| - 1]);
      assert init + [rs[|rs| - 1]] == rs;
    }
  }

  /**
   * Printing Results one per line and parsing the text gives them back, in
   * order: the parser keeps exactly the well-formed lines.
   */
  lemma ParseRoundTrip(rs: seq<Result>)
    requires forall i :: 0 <= i < |rs| ==> Printable(rs[i])
    ensures ParsedOutput(Strings.Join(RenderAll(rs), '\n')) == Results(rs)
  {
    var lines := RenderAll(rs);
    if rs == [] {
      assert Strings.Split("", '\n') == [""];
      assert ParseLine("").Dropped?;
      assert [""][..0] == [];
    } else {
      forall i | 0 <= i < |lines|
        ensures '\n' !in lines[i]
      {
        assert lines[i] == rs[i].kind + "/" + rs[i].name + " " + rs[i].action;
      }
      Strings.SplitJoin(lines, '\n');
      ParseRenderedLines(rs);
    }
  }

  // ---------------------------------------------------------------------
  // Counters and gauges
  // ---------------------------------------------------------------------

  /** Labels of kubectl_exit_code_count. */
  datatype ExitCodeLabels = ExitCodeLabels(namespace: string, exitCode: string)

  /** Labels of namespace_apply_count. */
  datatype SuccessLabels = SuccessLabels(namespace: string, success: string)

  /** Labels of result_summary. */
  datatype SummaryLabels = SummaryLabels(namespace: string, kind: string, name: string, action: string)

  /**
   * The labels of one exit code: the file's base name, and the code in
   * decimal without leading zeros, which reads back as the code.
   */
  function ExitCodeLabelsFor(file: string, code: int): (l: ExitCodeLabels)
    ensures l.namespace == Filepath.Base(file)
    ensures var s := l.exitCode;
            s != [] && (s[0] == '-' ==> Strconv.AllDigits(s[1..])) && (s[0] != '-' ==> Strconv.AllDigits(s))
            && Strconv.Atoi(s) == code
    ensures code >= 0 ==> l.exitCode == "0" || l.exitCode[0] != '0'
    ensures code < 0 ==> |l.exitCode| >= 2 && l.exitCode[1] != '0'
  {
    Strconv.ItoaRoundTrip(code);
    ExitCodeLabels(Filepath.Base(file), Strconv.Itoa(code))
  }

  /** The labels of one apply outcome: the file's base name, and "true" exactly for a success. */
  function SuccessLabelsFor(file: string, success: bool): (l: SuccessLabels)
    ensures l.namespace == Filepath.Base(file)
    ensures l.success == "true" <==> success
  {
    SuccessLabels(Filepath.Base(file), Strconv.FormatBool(success))
  }

  /** The labels of one parsed object line: the file's base name and the line's three fields. */
  function SummaryLabelsFor(filePath: string, r: Result): (l: SummaryLabels)
    ensures l.namespace == Filepath.Base(filePath)
    ensures l.kind == r.kind && l.name == r.name && l.action == r.action
  {
    SummaryLabels(Filepath.Base(filePath), r.kind, r.name, r.action)
  }

  /** The value of a counter, which starts at zero. */
  function Count<K(!new)>(counters: map<K, nat>, k: K): nat
  {
    if k in counters then counters[k] else 0
  }

  /** Counter.Inc on the entry with labels `k`. */
  function Inc<K(!new)>(counters: map<K, nat>, k: K): (r: map<K, nat>)
    ensures r.Keys == counters.Keys + {k}
    ensures Count(r, k) == Count(counters, k) + 1
    ensures forall j :: j != k ==> Count(r, j) == Count(counters, j)
  {
    counters[k := Count(counters, k) + 1]
  }

  /** A target and its directory-prefixed form are counted under one key. */
  lemma SuccessLabelsIgnoreDirectory(dir: string, name: string, success: bool)
    requires name != [] && '/' !in name
    ensures SuccessLabelsFor(dir + "/" + name, success) == SuccessLabelsFor(name, success)
    ensures SuccessLabelsFor(name, success).namespace == name
  {
    Filepath.BaseOfJoin(dir, name);
    Filepath.BaseOfName(name);
  }

  /** Successes and failures of one target are counted apart. */
  lemma SuccessLabelsDistinguishOutcome(file: string)
    ensures SuccessLabelsFor(file, true) != SuccessLabelsFor(file, false)
  {
    assert Strconv.FormatBool(true)[0] != Strconv.FormatBool(false)[0];
  }

  /** Distinct exit codes of one file are counted apart. */
  lemma ExitCodeLabelsDistinguishCodes(file: string, a: int, b: int)
    requires a != b
    ensures ExitCodeLabelsFor(file, a) != ExitCodeLabelsFor(file, b)
  {
    if Strconv.Itoa(a) == Strconv.Itoa(b) {
      Strconv.ItoaInjective(a, b);
    }
  }

  /** The source panics unless every output parses without an out-of-range index. */
  predicate AllParse(outputs: map<string, string>)
  {
    forall p :: p in outputs ==> ParsedOutput(outputs[p]).Results?
  }

  function KeysOf(filePath: string, rs: seq<Result>): set<SummaryLabels>
  {
    set r | r in rs :: SummaryLabelsFor(filePath, r)
  }

  /** The result_summary entries for the outputs of the paths in `paths`. */
  function SummaryKeysOf(outputs: map<string, string>, paths: set<string>): set<SummaryLabels>
    requires AllParse(outputs)
  {
    set p, r | p in paths && p in outputs && r in ParsedOutput(outputs[p]).results :: SummaryLabelsFor(p, r)
  }

  lemma KeysOfStep(filePath: string, rs: seq<Result>, j: nat)
    requires j < |rs|
    ensures KeysOf(filePath, rs[..j + 1]) == KeysOf(filePath, rs[..j]) + {SummaryLabelsFor(filePath, rs[j])}
  {
    assert rs[..j + 1] == rs[..j] + [rs[j]];
  }

  lemma SummaryKeysStep(outputs: map<string, string>, done: set<string>, filePath: string)
    requires AllParse(outputs) && filePath in outputs
    ensures SummaryKeysOf(outputs, done + {filePath})
         == SummaryKeysOf(outputs, done) + KeysOf(filePath, ParsedOutput(outputs[filePath]).results)
  {
  }

  function SummaryKeys(outputs: map<string, string>): set<SummaryLabels>
    requires AllParse(outputs)
  {
    SummaryKeysOf(outputs, outputs.Keys)
  }

  /** Prometheus: the three label-keyed metric vectors kube-applier updates. */
  class Prometheus {
    var kubectlExitCodeCount: map<ExitCodeLabels, nat>
    var namespaceApplyCount: map<SuccessLabels, nat>
    var resultSummary: map<SummaryLabels, int>

    constructor ()
      ensures kubectlExitCodeCount == map[] && namespaceApplyCount == map[] && resultSummary == map[]
    {
      kubectlExitCodeCount := map[];
      namespaceApplyCount := map[];
      resultSummary := map[];
    }

    /** One more kubectl exit with `code`, counted under the base name of `file`. */
    method UpdateKubectlExitCodeCount(file: string, code: int)
      modifies this`kubectlExitCodeCount
      ensures kubectlExitCodeCount == Inc(old(kubectlExitCodeCount), ExitCodeLabelsFor(file, code))
    {
      kubectlExitCodeCount := Inc(kubectlExitCodeCount, ExitCodeLabelsFor(file, code));
    }

    /** One more apply attempt of `file`, counted as a success or a failure. */
    method UpdateNamespaceSuccess(file: string, success: bool)
      modifies this`namespaceApplyCount
      ensures namespaceApplyCount == Inc(old(namespaceApplyCount), SuccessLabelsFor(file, success))
    {
      namespaceApplyCount := Inc(namespaceApplyCount, SuccessLabelsFor(file, success));
    }

    /** Sets to 1 the entry of each object line of one output. */
    method SetResults(filePath: string, res: seq<Result>)
      requires forall k :: k in resultSummary ==> resultSummary[k] == 1
      modifies this`resultSummary
      ensures resultSummary.Keys == old(resultSummary.Keys) + KeysOf(filePath, res)
      ensures forall k :: k in resultSummary ==> resultSummary[k] == 1
    {
      ghost var before := resultSummary.Keys;
      var j := 0;
      while j < |res|
        invariant 0 <= j <= |res|
        invariant resultSummary.Keys == before + KeysOf(filePath, res[..j])
        invariant forall k :: k in resultSummary ==> resultSummary[k] == 1
      {
        KeysOfStep(filePath, res, j);
        resultSummary := resultSummary[SummaryLabelsFor(filePath, res[j]) := 1];
        j := j + 1;
      }
      assert res[..j] == res;
    }

    /**
     * Resets result_summary and sets to 1 the entry of every object line in
     * every output; nothing from before the call survives.
     */
    method UpdateResultSummary(outputs: map<string, string>)
      requires AllParse(outputs)
      modifies this`resultSummary
      ensures resultSummary.Keys == SummaryKeys(outputs)
      ensures forall k :: k in resultSummary ==> resultSummary[k] == 1
    {
      resultSummary := map[];
      var pending := outputs.Keys;
      ghost var done: set<string> := {};
      while pending != {}
        invariant pending + done == outputs.Keys && pending !! done
        invariant resultSummary.Keys == SummaryKeysOf(outputs, done)
        invariant forall k :: k in resultSummary ==> resultSummary[k] == 1
        decreases pending
      {
        var filePath :| filePath in pending;
        var outcome := ParseKubectlOutput(outputs[filePath]);
        SetResults(filePath, outcome.results);
        SummaryKeysStep(outputs, done, filePath);
        pending := pending - {filePath};
        done := done + {filePath};
      }
    }
  }
}
