/** The experiment-side `CesaBianchi` active-learning strategy: it registers
    its query generator, builds the annotation page address, and adds one
    "binary model" column ahead of the columns of the core strategy it extends.
    The core strategy's header, row and display series are inputs here. */
module CesaBianchiStrategy {
  import opened Wrappers
  import Decimal

  /** The column the strategy adds: the time spent updating the binary model. */
  const BinaryModelColumn: string := "binary_model"
  const BinaryModelLabel: string := "Binary model"

  /** `PlotDataset(values, title)`; the strategy's own series has no values. */
  datatype PlotDataset = PlotDataset(values: Option<seq<real>>, title: string)

  // ---------------------------------------------------------------------
  // Execution-time report

  /** `get_exec_times_header`: the new column, then the base header. */
  function ExecTimesHeader(base: seq<string>): (header: seq<string>)
    ensures |header| == |base| + 1
    ensures header[0] == BinaryModelColumn && header[1..] == base
  {
    [BinaryModelColumn] + base
  }

  /** `get_exec_times`: the model-update time, then the base row. */
  function ExecTimes(binaryModelTime: real, base: seq<real>): (line: seq<real>)
    ensures |line| == |base| + 1
    ensures line[0] == binaryModelTime && line[1..] == base
  {
    [binaryModelTime] + base
  }

  /** `get_exec_times_display`: an empty "Binary model" series, then the base series. */
  function ExecTimesDisplay(base: seq<PlotDataset>): (v: seq<PlotDataset>)
    ensures |v| == |base| + 1
    ensures v[0] == PlotDataset(None, BinaryModelLabel) && v[1..] == base
  {
    [PlotDataset(None, BinaryModelLabel)] + base
  }

  /** The value a header/row pair files under column `name`: the entry of the
      row at the first position where the header holds `name`. */
  function ColumnValue(header: seq<string>, row: seq<real>, name: string): Option<real>
  {
    if header == [] || row == [] then None
    else if header[0] == name then Some(row[0])
    else ColumnValue(header[1..], row[1..], name)
  }

  /** Reading the extended report by column name gives the model-update time
      under the new column and, under every other name, what the base report
      gives: the extension keeps header and row aligned. */
  lemma ColumnValueOfExecTimes(baseHeader: seq<string>, baseRow: seq<real>, binaryModelTime: real, name: string)
    ensures ColumnValue(ExecTimesHeader(baseHeader), ExecTimes(binaryModelTime, baseRow), name)
         == if name == BinaryModelColumn then Some(binaryModelTime) else ColumnValue(baseHeader, baseRow, name)
  {
    var header, line := ExecTimesHeader(baseHeader), ExecTimes(binaryModelTime, baseRow);
    assert header[1..] == baseHeader && line[1..] == baseRow;
  }

  /** Header, row and display stay in step when the base ones are. */
  lemma ColumnsInStep(baseHeader: seq<string>, baseRow: seq<real>, baseDisplay: seq<PlotDataset>, binaryModelTime: real)
    requires |baseHeader| == |baseRow| == |baseDisplay|
    ensures |ExecTimesHeader(baseHeader)| == |ExecTimes(binaryModelTime, baseRow)|
    ensures |ExecTimesHeader(baseHeader)| == |ExecTimesDisplay(baseDisplay)|
  {
  }

  // ---------------------------------------------------------------------
  // Annotation page address

  const AnnotationsPath: string := "/ilabAnnotations/"

  /** `get_url`: `'http://%s:%d/ilabAnnotations/%d/%d/'` filled with the
      server's host and port, the experiment id and the iteration number. */
  function AnnotationUrl(host: string, port: int, expId: int, iterNum: int): (url: string)
    // the scheme, then the host verbatim, ended by the last `:` of the address
    ensures |url| > 7 + |host| && url[..7] == "http://" && url[7..7 + |host|] == host
    ensures url[7 + |host|] == ':' && ':' !in url[7 + |host| + 1..]
  {
    var afterHost := AfterHost(port, expId, iterNum);
    var url := "http://" + host + ":" + afterHost;
    assert url[7 + |host| + 1..] == afterHost;
    url
  }

  /** The text `'%d/ilabAnnotations/%d/%d/'` that follows `host:`. */
  function AfterHost(port: int, expId: int, iterNum: int): (s: string)
    ensures ':' !in s
  {
    var p, e, n := Decimal.IntToString(port), Decimal.IntToString(expId), Decimal.IntToString(iterNum);
    var s := p + AnnotationsPath + e + "/" + n + "/";
    assert forall k :: 0 <= k < |s| ==> s[k] != ':' by {
      forall k | 0 <= k < |s| ensures s[k] != ':' {
        if k < |p| {
          assert s[k] == p[k];
        } else if k < |p| + |AnnotationsPath| {
          assert s[k] == AnnotationsPath[k - |p|];
        } else if k < |p| + |AnnotationsPath| + |e| {
          assert s[k] == e[k - |p| - |AnnotationsPath|];
        } else if k < |p| + |AnnotationsPath| + |e| + 1 {
          assert s[k] == '/';
        } else if k < |s| - 1 {
          assert s[k] == n[k - |p| - |AnnotationsPath| - |e| - 1];
        }
      }
    }
    s
  }

  datatype UrlParts = UrlParts(host: string, port: int, expId: int, iterNum: int)

  /** The position of the first `c` in `s`, or `|s|` when there is none. */
  function IndexOf(s: string, c: char): (i: nat)
    ensures i <= |s|
    ensures i < |s| ==> s[i] == c
    ensures c !in s[..i]
  {
    if s == [] || s[0] == c then 0
    else
      var j := IndexOf(s[1..], c);
      assert s[..1 + j] == [s[0]] + s[1..][..j];
      1 + j
  }

  /** Splits `s` at its first `c`: the part before and the part after. */
  function SplitFirst(s: string, c: char): (r: Option<(string, string)>)
    ensures r.Some? ==> s == r.value.0 + [c] + r.value.1 && c !in r.value.0
    ensures r.None? ==> c !in s
  {
    var i := IndexOf(s, c);
    if i == |s| then
      assert s[..i] == s;
      None
    else
      assert s == s[..i] + [c] + s[i + 1..];
      Some((s[..i], s[i + 1..]))
  }

  lemma {:induction false} IndexOfConcat(a: string, c: char, b: string)
    requires c !in a
    ensures IndexOf(a + [c] + b, c) == |a|
  {
    var s := a + [c] + b;
    if a != [] {
      assert s[0] == a[0] && s[1..] == a[1..] + [c] + b;
      IndexOfConcat(a[1..], c, b);
    }
  }

  lemma SplitFirstConcat(a: string, c: char, b: string)
    requires c !in a
    ensures SplitFirst(a + [c] + b, c) == Some((a, b))
  {
    var s := a + [c] + b;
    IndexOfConcat(a, c, b);
    assert s[..|a|] == a && s[|a| + 1..] == b;
  }

  /** The position of the last `c` in `s`, or -1 when there is none. */
  function LastIndexOf(s: string, c: char): (i: int)
    ensures -1 <= i < |s|
    ensures i >= 0 ==> s[i] == c
    ensures forall k :: i < k < |s| ==> s[k] != c
  {
    if s == [] then -1
    else if s[|s| - 1] == c then |s| - 1
    else LastIndexOf(s[..|s| - 1], c)
  }

  /** Splits `s` at its last `c`: the part before and the part after. */
  function SplitLast(s: string, c: char): (r: Option<(string, string)>)
    ensures r.Some? ==> s == r.value.0 + [c] + r.value.1 && c !in r.value.1
    ensures r.None? ==> c !in s
  {
    var i := LastIndexOf(s, c);
    if i < 0 then None
    else
      var before, after := s[..i], s[i + 1..];
      assert s == before + [c] + after;
      assert forall k :: 0 <= k < |after| ==> after[k] == s[i + 1 + k];
      Some((before, after))
  }

  lemma {:induction false} LastIndexOfConcat(a: string, c: char, b: string)
    requires c !in b
    ensures LastIndexOf(a + [c] + b, c) == |a|
    decreases |b|
  {
    var s := a + [c] + b;
    if b != [] {
      var b' := b[..|b| - 1];
      assert s[|s| - 1] == b[|b| - 1] && s[..|s| - 1] == a + [c] + b';
      LastIndexOfConcat(a, c, b');
    }
  }

  lemma SplitLastConcat(a: string, c: char, b: string)
    requires c !in b
    ensures SplitLast(a + [c] + b, c) == Some((a, b))
  {
    var s := a + [c] + b;
    LastIndexOfConcat(a, c, b);
    assert s[..|a|] == a && s[|a| + 1..] == b;
  }

  /** Reads the part of an address after `host:`. */
  function ParseAfterHost(s: string): Option<(int, int, int)> {
    match SplitFirst(s, '/')
    case None => None
    case Some((portText, afterPort)) =>
      var dir := AnnotationsPath[1..];
      if |afterPort| < |dir| || afterPort[..|dir|] != dir then None
      else
        match SplitFirst(afterPort[|dir|..], '/')
        case None => None
        case Some((expText, afterExp)) =>
          match SplitFirst(afterExp, '/')
          case None => None
          case Some((iterText, rest)) =>
            var port, expId, iterNum := Decimal.ParseInt(portText), Decimal.ParseInt(expText), Decimal.ParseInt(iterText);
            if port.None? || expId.None? || iterNum.None? || rest != [] then None
            else Some((port.value, expId.value, iterNum.value))
  }

  /** Reads an annotation page address back into its four parts. */
  function ParseAnnotationUrl(url: string): Option<UrlParts> {
    if |url| < 7 || url[..7] != "http://" then None
    else
      match SplitLast(url[7..], ':')
      case None => None
      case Some((host, afterHost)) =>
        match ParseAfterHost(afterHost)
        case None => None
        case Some((port, expId, iterNum)) => Some(UrlParts(host, port, expId, iterNum))
  }

  lemma ParseAfterHostRoundTrip(port: int, expId: int, iterNum: int)
    ensures ParseAfterHost(AfterHost(port, expId, iterNum)) == Some((port, expId, iterNum))
  {
    var p, e, n := Decimal.IntToString(port), Decimal.IntToString(expId), Decimal.IntToString(iterNum);
    var dir := AnnotationsPath[1..];
    var afterExp := n + "/";
    var afterPath := e + "/" + afterExp;
    var s := p + AnnotationsPath + e + "/" + n + "/";
    assert s == p + ['/'] + (dir + afterPath);
    SplitFirstConcat(p, '/', dir + afterPath);
    assert (dir + afterPath)[..|dir|] == dir;
    assert (dir + afterPath)[|dir|..] == afterPath;
    assert afterPath == e + ['/'] + afterExp;
    SplitFirstConcat(e, '/', afterExp);
    assert afterExp == n + ['/'] + [];
    SplitFirstConcat(n, '/', []);
    Decimal.IntRoundTrip(port);
    Decimal.IntRoundTrip(expId);
    Decimal.IntRoundTrip(iterNum);
  }

  /** The address determines the host, port, experiment and iteration it was
      built from, for every host: the host ends at the last `:`. */
  lemma AnnotationUrlRoundTrip(host: string, port: int, expId: int, iterNum: int)
    ensures ParseAnnotationUrl(AnnotationUrl(host, port, expId, iterNum)) == Some(UrlParts(host, port, expId, iterNum))
  {
    var afterHost := AfterHost(port, expId, iterNum);
    SchemeAndHost(host, afterHost);
    ParseAfterHostRoundTrip(port, expId, iterNum);
  }

  lemma SchemeAndHost(host: string, afterHost: string)
    requires ':' !in afterHost
    ensures var url := "http://" + host + ":" + afterHost;
      |url| >= 7 && url[..7] == "http://" && SplitLast(url[7..], ':') == Some((host, afterHost))
  {
    var url := "http://" + host + ":" + afterHost;
    assert url[7..] == host + [':'] + afterHost;
    SplitLastConcat(host, ':', afterHost);
  }

  /** Different servers, experiments or iterations get different addresses. */
  lemma AnnotationUrlInjective(host1: string, port1: int, expId1: int, iterNum1: int,
                               host2: string, port2: int, expId2: int, iterNum2: int)
    requires AnnotationUrl(host1, port1, expId1, iterNum1) == AnnotationUrl(host2, port2, expId2, iterNum2)
    ensures host1 == host2 && port1 == port2 && expId1 == expId2 && iterNum1 == iterNum2
  {
    AnnotationUrlRoundTrip(host1, port1, expId1, iterNum1);
    AnnotationUrlRoundTrip(host2, port2, expId2, iterNum2);
  }

  // ---------------------------------------------------------------------
  // Query registration

  /** The iteration settings the query generator is built from. */
  datatype IterationConf = IterationConf(b: real, batch: int)
  datatype Iteration = Iteration(expId: int, iterNum: int, conf: IterationConf)

  /** `CesaBianchiQueries(iteration, b, batch)`. */
  datatype QueryGenerator = CesaBianchiQueries(iteration: Iteration, b: real, batch: int)

  const QueriesKey: string := "cesa_bianchi"

  /** The query table after `_set_queries`. */
  function WithCesaBianchiQueries(queries: map<string, QueryGenerator>, iteration: Iteration): (r: map<string, QueryGenerator>)
    ensures r.Keys == queries.Keys + {QueriesKey}
    ensures r[QueriesKey] == CesaBianchiQueries(iteration, iteration.conf.b, iteration.conf.batch)
    ensures forall k :: k in queries && k != QueriesKey ==> r[k] == queries[k]
  {
    queries[QueriesKey := CesaBianchiQueries(iteration, iteration.conf.b, iteration.conf.batch)]
  }

  class CesaBianchi {
    const iteration: Iteration
    var queries: map<string, QueryGenerator>

    constructor (iteration: Iteration, queries: map<string, QueryGenerator>)
      ensures this.iteration == iteration && this.queries == queries
    {
      this.iteration := iteration;
      this.queries := queries;
    }

    /** `get_url`: the annotation page of this strategy's iteration on the
        server at `host` and `port`; it reads back as those four values. */
    function GetUrl(host: string, port: int): (url: string)
      ensures ParseAnnotationUrl(url) == Some(UrlParts(host, port, iteration.expId, iteration.iterNum))
    {
      AnnotationUrlRoundTrip(host, port, iteration.expId, iteration.iterNum);
      AnnotationUrl(host, port, iteration.expId, iteration.iterNum)
    }

    /** `_set_queries`: registers the generator under `cesa_bianchi`. */
    method SetQueries()
      modifies this
      ensures queries == WithCesaBianchiQueries(old(queries), iteration)
    {
      queries := WithCesaBianchiQueries(queries, iteration);
    }
  }
}
