/** The formatter of the `/checkz` report: one sample line `<name> <value>\n`
    per health-check result, the sample-line syntax of the Prometheus
    text-based exposition format, version 0.0.4.

    The report is produced by folding the results from the left, starting from
    the empty string (`results.reduce(toPrometheusFormat, '')`). `Lines` is an
    independent reference definition (the concatenation of the sample lines)
    and `Parse` reads a report back into its results. */
module Exposition {
  import opened Wrappers
  import opened Checks

  /** The decimal digit of a severity value. */
  function Digit(v: SeverityValue): (c: char)
    ensures '0' <= c <= '3' && c as int - '0' as int == v
  {
    ('0' as int + v) as char
  }

  /** The sample line of one result: name, one space, the value, a newline. */
  function SampleLine(r: CheckResult): (line: string)
    ensures |line| == |r.name| + 3
    ensures line[..|r.name|] == r.name && line[|r.name|..] == [' ', Digit(r.value), '\n']
  {
    r.name + " " + [Digit(r.value)] + "\n"
  }

  /** The reducer: appends the sample line of one result to the accumulator,
      which it keeps unchanged as a prefix. */
  function Append(acc: string, r: CheckResult): (s: string)
    ensures |s| == |acc| + |r.name| + 3 && s[..|acc|] == acc
    ensures s[|acc|..|acc| + |r.name|] == r.name && s[|acc| + |r.name|..] == [' ', Digit(r.value), '\n']
  {
    acc + SampleLine(r)
  }

  /** `Array.prototype.reduce` of the reducer over the results, from the left. */
  function FoldLeft(acc: string, rs: seq<CheckResult>): (s: string)
    ensures |s| >= |acc| && s[..|acc|] == acc
    decreases rs
  {
    if rs == [] then acc else FoldLeft(Append(acc, rs[0]), rs[1..])
  }

  /** The report body for a sequence of results: one sample line per result,
      in order, with nothing before or after. */
  function Format(rs: seq<CheckResult>): (s: string)
    ensures s == Lines(rs)
  {
    FoldLeftIsConcat("", rs);
    FoldLeft("", rs)
  }

  /** Reference definition: the sample lines, concatenated in order. */
  function Lines(rs: seq<CheckResult>): string
  {
    if rs == [] then "" else SampleLine(rs[0]) + Lines(rs[1..])
  }

  /** The left fold from any accumulator appends the concatenated lines to it. */
  lemma {:induction false} FoldLeftIsConcat(acc: string, rs: seq<CheckResult>)
    ensures FoldLeft(acc, rs) == acc + Lines(rs)
    decreases rs
  {
    if rs != [] {
      FoldLeftIsConcat(acc + SampleLine(rs[0]), rs[1..]);
      assert acc + SampleLine(rs[0]) + Lines(rs[1..]) == acc + (SampleLine(rs[0]) + Lines(rs[1..]));
    }
  }

  /** Lines distributes over concatenation of result sequences. */
  lemma {:induction false} LinesAppend(rs: seq<CheckResult>, ts: seq<CheckResult>)
    ensures Lines(rs + ts) == Lines(rs) + Lines(ts)
  {
    if rs != [] {
      assert (rs + ts)[1..] == rs[1..] + ts;
      LinesAppend(rs[1..], ts);
    } else {
      assert rs + ts == ts;
    }
  }

  /** One more result adds exactly its sample line at the end of the report. */
  lemma FormatAppend(rs: seq<CheckResult>, r: CheckResult)
    ensures Format(rs + [r]) == Format(rs) + SampleLine(r)
  {
    LinesAppend(rs, [r]);
    assert Lines([r]) == SampleLine(r) + Lines([]);
  }

  /** Each line adds three characters (space, digit, newline) to its name. */
  lemma {:induction false} LinesLength(rs: seq<CheckResult>)
    ensures |Lines(rs)| == NameLength(rs) + 3 * |rs|
  {
    if rs != [] {
      LinesLength(rs[1..]);
    }
  }

  /** Total length of the names of the results. */
  function NameLength(rs: seq<CheckResult>): nat
  {
    if rs == [] then 0 else |rs[0].name| + NameLength(rs[1..])
  }

  /** Index of the first newline of `s`, or `|s|` when there is none. */
  function NewlineIndex(s: string): (k: nat)
    ensures k <= |s|
    ensures forall j :: 0 <= j < k ==> s[j] != '\n'
    ensures k < |s| ==> s[k] == '\n'
  {
    if s == [] then 0
    else if s[0] == '\n' then 0
    else 1 + NewlineIndex(s[1..])
  }

  /** Reads one sample line (without its newline) back into a result: the
      last character is the value, the one before it a space, the rest the name. */
  function ParseSample(line: string): Option<CheckResult>
  {
    if |line| >= 2 && line[|line| - 2] == ' ' && '0' <= line[|line| - 1] <= '3' then
      Some(CheckResult(line[..|line| - 2], line[|line| - 1] as int - '0' as int))
    else
      None
  }

  /** Reads a whole report back into its results, line by line. */
  function Parse(s: string): Option<seq<CheckResult>>
    decreases |s|
  {
    if s == [] then Some([])
    else
      var k := NewlineIndex(s);
      if k == |s| then None
      else
        match (ParseSample(s[..k]), Parse(s[k + 1..]))
        case (Some(r), Some(rest)) => Some([r] + rest)
        case _ => None
  }

  /** No name contains a newline (the formatter does not escape names). */
  predicate SingleLineNames(rs: seq<CheckResult>)
  {
    forall i :: 0 <= i < |rs| ==> '\n' !in rs[i].name
  }

  /** The first newline of a sample line followed by anything is its own. */
  lemma SampleLineNewline(r: CheckResult, rest: string)
    requires '\n' !in r.name
    ensures NewlineIndex(SampleLine(r) + rest) == |r.name| + 2
    ensures (SampleLine(r) + rest)[..|r.name| + 2] == r.name + [' ', Digit(r.value)]
    ensures (SampleLine(r) + rest)[|r.name| + 3..] == rest
  {
    var s := SampleLine(r) + rest;
    assert s[|r.name| + 2] == '\n';
  }

  /** Parsing a report gives back the results it was formatted from, as long
      as no name contains a newline. */
  lemma {:induction false} ParseLines(rs: seq<CheckResult>)
    requires SingleLineNames(rs)
    ensures Parse(Lines(rs)) == Some(rs)
  {
    if rs != [] {
      var r := rs[0];
      var rest := Lines(rs[1..]);
      SampleLineNewline(r, rest);
      var s := SampleLine(r) + rest;
      var line := s[..|r.name| + 2];
      assert line[..|line| - 2] == r.name;
      assert ParseSample(line) == Some(r);
      assert SingleLineNames(rs[1..]) by {
        forall i | 0 <= i < |rs[1..]| ensures '\n' !in rs[1..][i].name {
          assert rs[1..][i] == rs[i + 1];
        }
      }
      ParseLines(rs[1..]);
      assert [r] + rs[1..] == rs;
    }
  }

  /** The report is unambiguous: it determines the results it was made from. */
  lemma ParseFormat(rs: seq<CheckResult>)
    requires SingleLineNames(rs)
    ensures Parse(Format(rs)) == Some(rs)
  {
    ParseLines(rs);
  }
}
