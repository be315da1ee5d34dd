/** `FluxQueryBuilder` (ccres_api/services/grafana_api/query.py): a Flux query is a
    `from` line, an indented `range` line and one indented `filter` line per filtered
    column. The filters live in an `OrderedDict`, so a column keeps the place of its first
    filter and the value of its last. */
module FluxQuery {
  import opened Wrappers
  import opened Dict
  import opened Strings
  import opened Exceptions

  datatype Builder = Builder(bucket: string, start: Option<string>, stop: Option<string>, filters: Assoc<string>)

  function New(bucket: string): Builder {
    Builder(bucket, None, None, [])
  }

  /** `range`: both bounds are replaced; an omitted `stop` is `None`. */
  function Range(b: Builder, start: string, stop: Option<string>): Builder {
    b.(start := Some(start), stop := stop)
  }

  /** `filter`: `filters[on] = what`. */
  function Filter(b: Builder, on: string, what: string): Builder {
    b.(filters := Put(b.filters, on, what))
  }

  const Indent := "    "

  const RangeMissing := ValueError("You need to provide a range")

  function FromLine(bucket: string): string {
    "from(bucket: \"" + bucket + "\")"
  }

  /** The range line without its indentation; without `stop` it is `|> range(start: S )`. */
  function RangeLine(start: string, stop: Option<string>): string {
    "|> range(start: " + start + " " + (if stop.Some? then ", stop: " + stop.value else "") + ")"
  }

  function FilterLine(on: string, what: string): string {
    "|> filter(fn: (r) => r[\"" + on + "\"] == \"" + what + "\")"
  }

  /** The lines of the query of a builder that has a range. */
  function Lines(b: Builder): (r: seq<string>)
    requires b.start.Some?
    ensures |r| == 2 + |b.filters|
    ensures r[0] == FromLine(b.bucket) && r[1] == Indent + RangeLine(b.start.value, b.stop)
    ensures forall i :: 0 <= i < |b.filters| ==> r[2 + i] == Indent + FilterLine(b.filters[i].0, b.filters[i].1)
  {
    [FromLine(b.bucket), Indent + RangeLine(b.start.value, b.stop)]
      + seq(|b.filters|, i requires 0 <= i < |b.filters| => Indent + FilterLine(b.filters[i].0, b.filters[i].1))
  }

  /** `build`: without a range it raises; otherwise the query grows by one line per filter. */
  method Build(b: Builder) returns (r: Result<string, Error>)
    ensures b.start.None? ==> r == Err(RangeMissing)
    ensures b.start.Some? ==> r == Ok(Join(Lines(b), "\n"))
  {
    var query := FromLine(b.bucket);
    if b.start.None? {
      return Err(RangeMissing);
    }
    var lines := Lines(b);
    var rangeLine := Indent + RangeLine(b.start.value, b.stop);
    query := query + "\n" + rangeLine;
    assert lines[..2] == [lines[0]] + [lines[1]];
    JoinSnoc([lines[0]], lines[1], "\n");
    for i := 0 to |b.filters|
      invariant query == Join(lines[..2 + i], "\n")
    {
      var line := Indent + FilterLine(b.filters[i].0, b.filters[i].1);
      assert lines[..2 + i + 1] == lines[..2 + i] + [line];
      JoinSnoc(lines[..2 + i], line, "\n");
      query := query + "\n" + line;
    }
    assert lines[..2 + |b.filters|] == lines;
    r := Ok(query);
  }

  /** No newline in the bucket, the bounds or the filters. */
  predicate OneLineParts(b: Builder) {
    && '\n' !in b.bucket
    && (b.start.Some? ==> '\n' !in b.start.value)
    && (b.stop.Some? ==> '\n' !in b.stop.value)
    && forall i :: 0 <= i < |b.filters| ==> '\n' !in b.filters[i].0 && '\n' !in b.filters[i].1
  }

  /** When the parts hold no newline, splitting the query on newlines gives its lines
      back: exactly two plus one per filtered column. */
  lemma QueryLines(b: Builder)
    requires b.start.Some? && OneLineParts(b)
    ensures Split(Join(Lines(b), "\n"), '\n') == Lines(b)
    ensures |Split(Join(Lines(b), "\n"), '\n')| == 2 + |b.filters|
  {
    var lines := Lines(b);
    forall i | 0 <= i < |lines|
      ensures '\n' !in lines[i]
    {
      if i >= 2 {
        assert lines[i] == Indent + FilterLine(b.filters[i - 2].0, b.filters[i - 2].1);
      }
    }
    SplitJoin(lines, '\n');
  }

  /** Filtering on a column not filtered yet adds it last. */
  lemma FilterNew(b: Builder, on: string, what: string)
    requires !HasKey(b.filters, on)
    ensures Filter(b, on, what).filters == b.filters + [(on, what)]
  {
  }

  /** Three filters on distinct columns, applied to a builder without any, keep their order. */
  lemma FilterThree(b: Builder, k1: string, v1: string, k2: string, v2: string, k3: string, v3: string)
    requires b.filters == []
    requires k1 != k2 && k1 != k3 && k2 != k3
    ensures Filter(Filter(Filter(b, k1, v1), k2, v2), k3, v3).filters == [(k1, v1), (k2, v2), (k3, v3)]
  {
    FilterNew(b, k1, v1);
    var b1 := Filter(b, k1, v1);
    assert Keys(b1.filters) == [k1];
    FilterNew(b1, k2, v2);
    var b2 := Filter(b1, k2, v2);
    assert Keys(b2.filters) == [k1, k2];
    FilterNew(b2, k3, v3);
  }

  /** The filters applied one call after another. */
  function FilterAll(b: Builder, calls: seq<(string, string)>): Builder
    decreases |calls|
  {
    if |calls| == 0 then b else Filter(FilterAll(b, calls[..|calls| - 1]), calls[|calls| - 1].0, calls[|calls| - 1].1)
  }

  /** The columns of a run of calls, each at its first call. */
  function FirstOccurrences(ks: seq<string>): (r: seq<string>)
    decreases |ks|
  {
    if |ks| == 0 then []
    else
      var before := FirstOccurrences(ks[..|ks| - 1]);
      if ks[|ks| - 1] in before then before else before + [ks[|ks| - 1]]
  }

  /** The value of the last call on a column, if any. */
  function LastValue(calls: seq<(string, string)>, on: string): Option<string>
    decreases |calls|
  {
    if |calls| == 0 then None
    else if calls[|calls| - 1].0 == on then Some(calls[|calls| - 1].1)
    else LastValue(calls[..|calls| - 1], on)
  }

  function CallKeys(calls: seq<(string, string)>): (r: seq<string>)
    ensures |r| == |calls| && forall i :: 0 <= i < |calls| ==> r[i] == calls[i].0
  {
    seq(|calls|, i requires 0 <= i < |calls| => calls[i].0)
  }

  /** From a fresh builder, the filter lines follow the columns in the order of their first
      filter, each column once, with the value of its last filter. */
  lemma {:induction false} FilterOrder(b: Builder, calls: seq<(string, string)>)
    requires b.filters == []
    ensures Keys(FilterAll(b, calls).filters) == FirstOccurrences(CallKeys(calls))
    ensures UniqueKeys(FilterAll(b, calls).filters)
    ensures forall on :: Get(FilterAll(b, calls).filters, on) == LastValue(calls, on)
  {
    if |calls| > 0 {
      var n := |calls| - 1;
      var pre := FilterAll(b, calls[..n]);
      FilterOrder(b, calls[..n]);
      assert CallKeys(calls)[..n] == CallKeys(calls[..n]);
      var f := Put(pre.filters, calls[n].0, calls[n].1);
      if !HasKey(pre.filters, calls[n].0) {
        assert Keys(f) == Keys(pre.filters) + [calls[n].0];
      }
    } else {
      assert forall on :: Get(FilterAll(b, calls).filters, on) == None;
    }
  }

  /** Filtering a column again keeps its line where it was and takes the new value. */
  lemma Refilter(b: Builder, on: string, first: string, second: string)
    ensures var f := Filter(Filter(b, on, first), on, second).filters;
      && Keys(f) == Keys(Filter(b, on, first).filters)
      && Get(f, on) == Some(second)
      && forall other :: other != on ==> Get(f, other) == Get(b.filters, other)
  {
  }

  /** A second `range` replaces both bounds; leaving out `stop` clears it. */
  lemma RangeOverwrites(b: Builder, start1: string, stop1: Option<string>, start2: string, stop2: Option<string>)
    ensures Range(Range(b, start1, stop1), start2, stop2) == Range(b, start2, stop2)
    ensures Range(Range(b, start1, stop1), start2, None).stop == None
  {
  }
}

/** The older `FluxQueryBuilder` (grafana_api/query.py): no indentation, and its loop runs
    over the filter columns only, unpacking each column name into the pair `(on, what)`.
    A two-character name `xy` therefore filters `r["x"] == "y"`, its value is never used,
    and any other name raises. */
module LegacyFluxQuery {
  import opened Wrappers
  import opened Dict
  import opened Strings
  import opened Exceptions
  import opened FluxQuery

  /** Unpacking a string of the wrong length into two names. */
  function UnpackError(key: string): Error {
    if |key| < 2 then ValueError("not enough values to unpack (expected 2, got " + NatToString(|key|) + ")")
    else ValueError("too many values to unpack (expected 2)")
  }

  predicate Unpackable(b: Builder) {
    forall i :: 0 <= i < |b.filters| ==> |b.filters[i].0| == 2
  }

  /** The lines of the query of a builder that has a range and only two-character columns. */
  function LegacyLines(b: Builder): (r: seq<string>)
    requires b.start.Some? && Unpackable(b)
    ensures |r| == 2 + |b.filters|
    ensures r[0] == FromLine(b.bucket) && r[1] == RangeLine(b.start.value, b.stop)
    ensures forall i :: 0 <= i < |b.filters| ==> r[2 + i] == FilterLine([b.filters[i].0[0]], [b.filters[i].0[1]])
  {
    [FromLine(b.bucket), RangeLine(b.start.value, b.stop)]
      + seq(|b.filters|, i requires 0 <= i < |b.filters| => FilterLine([b.filters[i].0[0]], [b.filters[i].0[1]]))
  }

  /** `build`: the range check comes first; then the first column whose name is not two
      characters long raises. */
  method LegacyBuild(b: Builder) returns (r: Result<string, Error>)
    ensures b.start.None? ==> r == Err(RangeMissing)
    ensures b.start.Some? && Unpackable(b) ==> r == Ok(Join(LegacyLines(b), "\n"))
    ensures b.start.Some? && !Unpackable(b) ==>
      exists i :: && 0 <= i < |b.filters| && |b.filters[i].0| != 2
                  && (forall j :: 0 <= j < i ==> |b.filters[j].0| == 2)
                  && r == Err(UnpackError(b.filters[i].0))
  {
    var query := FromLine(b.bucket);
    if b.start.None? {
      return Err(RangeMissing);
    }
    query := query + "\n" + RangeLine(b.start.value, b.stop);
    var lines := [FromLine(b.bucket), RangeLine(b.start.value, b.stop)];
    JoinSnoc([lines[0]], lines[1], "\n");
    assert [lines[0]] + [lines[1]] == lines;
    for i := 0 to |b.filters|
      invariant |lines| == 2 + i && query == Join(lines, "\n")
      invariant lines[0] == FromLine(b.bucket) && lines[1] == RangeLine(b.start.value, b.stop)
      invariant forall j :: 0 <= j < i ==> |b.filters[j].0| == 2 && lines[2 + j] == FilterLine([b.filters[j].0[0]], [b.filters[j].0[1]])
    {
      var key := b.filters[i].0;
      if |key| != 2 {
        return Err(UnpackError(key));
      }
      var line := FilterLine([key[0]], [key[1]]);
      JoinSnoc(lines, line, "\n");
      query := query + "\n" + line;
      lines := lines + [line];
    }
    assert lines == LegacyLines(b);
    r := Ok(query);
  }

  /** Without filters the query is the `from` line and the unindented `range` line. */
  lemma NoFilters(b: Builder)
    requires b.start.Some? && b.filters == []
    ensures Join(LegacyLines(b), "\n") == FromLine(b.bucket) + "\n" + RangeLine(b.start.value, b.stop)
  {
    assert LegacyLines(b) == [FromLine(b.bucket), RangeLine(b.start.value, b.stop)];
    assert LegacyLines(b)[1..] == [RangeLine(b.start.value, b.stop)];
  }

  /** The filter values never reach the query: builders with the same columns give the same lines. */
  lemma ValuesIgnored(b: Builder, c: Builder)
    requires b.start.Some? && Unpackable(b)
    requires c == b.(filters := c.filters) && Keys(c.filters) == Keys(b.filters)
    ensures Unpackable(c) && LegacyLines(c) == LegacyLines(b)
  {
    assert forall i :: 0 <= i < |b.filters| ==> c.filters[i].0 == Keys(c.filters)[i] == b.filters[i].0;
    assert LegacyLines(c) == LegacyLines(b);
  }

  /** The two builders disagree on every query with a range: the newer one indents. */
  lemma IndentDiffers(b: Builder)
    requires b.start.Some? && Unpackable(b)
    ensures LegacyLines(b)[1] != Lines(b)[1]
  {
    assert Lines(b)[1][0] == ' ';
    assert LegacyLines(b)[1][0] == '|';
  }
}
